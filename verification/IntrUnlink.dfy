/** Unlinking interrupt queue heads: the controller is not told, so the driver waits for nine
    microframes.  Unlinked queue heads are listed in order with the number of the unlink cycle they
    came in; the timer event UNLINK_INTR ends the cycles before the current one.  The root hub is
    running. */
module IntrUnlink {
  import opened Wrappers
  import opened QueueLists
  import T = Timer

  type Qh = nat

  /** A listed queue head, its unlink_cycle, and when it was unlinked. */
  datatype Entry = Entry(qh: Qh, cycle: nat, at: int)

  datatype State = State(
    timer: T.Timer,
    linked: set<Qh>,
    completing: set<Qh>,      // linked, and in qh_completions
    intrUnlink: seq<Entry>,
    cycle: nat,               // intr_unlink_cycle, 32 bits
    intrUnlinking: bool,
    ending: Option<Qh>)       // in end_unlink_intr

  const CYCLES: nat := 0x1_0000_0000

  function NextCycle(c: nat): nat
  {
    (c + 1) % CYCLES
  }

  /** start_unlink_intr. */
  function StartUnlink(s: State, q: Qh): State
    requires |s.timer.timeouts| == T.NUM_EVENTS
  {
    if q !in s.linked || q in s.completing then s
    else
      var s' := s.(linked := s.linked - {q}, intrUnlink := s.intrUnlink + [Entry(q, s.cycle, s.timer.now)]);
      if s.intrUnlinking then s'
      else if |s'.intrUnlink| == 1 then
        s'.(timer := T.Enable(s.timer, T.UNLINK_INTR, true), cycle := NextCycle(s.cycle))
      else s'
  }

  /** The end of fotg210_handle_intr_unlinks: handle remaining entries later. */
  function Finish(s: State): State
    requires |s.timer.timeouts| == T.NUM_EVENTS && T.Enabled(s.timer, T.HandlerEnd)
  {
    var s' := if s.intrUnlink == [] then s
              else s.(timer := T.Enable(s.timer, T.UNLINK_INTR, true), cycle := NextCycle(s.cycle));
    s'.(intrUnlinking := false, timer := T.Apply(s'.timer, T.HandlerEnd))
  }

  datatype Step =
    | Clock(step: T.Step)     // the timer, other events and their handlers
    | DoLink(q: Qh)
    | DoStartUnlink(q: Qh)
    | BeginCompletions(q: Qh)
    | EndCompletions(q: Qh)
    // fotg210_handle_intr_unlinks
    | Take
    | TakeEnd(more: bool)
    | DoFinish

  /** The handler of UNLINK_INTR is running. */
  predicate Handling(t: T.Timer)
  {
    t.func.Running? && t.func.handling && t.func.e == T.UNLINK_INTR
  }

  predicate Enabled(s: State, step: Step)
    requires |s.timer.timeouts| == T.NUM_EVENTS
  {
    match step
    case Clock(c) => T.Enabled(s.timer, c) && c != T.DoEnable(T.UNLINK_INTR)
      && (c == T.HandlerEnd ==> !Handling(s.timer))
    case DoLink(q) =>
      q !in s.linked && s.ending != Some(q) && forall i :: 0 <= i < |s.intrUnlink| ==> s.intrUnlink[i].qh != q
    case DoStartUnlink(q) => true
    case BeginCompletions(q) => q in s.linked && q !in s.completing
    case EndCompletions(q) => q in s.completing
    case Take => s.intrUnlinking && s.ending == None && s.intrUnlink != [] && s.intrUnlink[0].cycle != s.cycle
    case TakeEnd(_) => s.ending.Some?
    case DoFinish =>
      && s.intrUnlinking && s.ending == None && (s.intrUnlink == [] || s.intrUnlink[0].cycle == s.cycle)
      && T.Enabled(s.timer, T.HandlerEnd)
  }

  function Apply(s: State, step: Step): (s': State)
    requires |s.timer.timeouts| == T.NUM_EVENTS && Enabled(s, step)
    ensures |s'.timer.timeouts| == T.NUM_EVENTS
  {
    match step
    case Clock(c) =>
      var t := T.Apply(s.timer, c);
      s.(timer := t, intrUnlinking := Handling(t))
    case DoLink(q) => s.(linked := s.linked + {q})
    case DoStartUnlink(q) => StartUnlink(s, q)
    case BeginCompletions(q) => s.(completing := s.completing + {q})
    case EndCompletions(q) => s.(completing := s.completing - {q})
    case Take => s.(intrUnlink := s.intrUnlink[1..], ending := Some(s.intrUnlink[0].qh))
    case TakeEnd(more) => s.(ending := None, linked := if more then s.linked + {s.ending.value} else s.linked)
    case DoFinish => Finish(s)
  }

  /** The list is in temporal order, in two adjacent cycles: entries of the cycle before, then entries
      of the current one. */
  predicate Ordered(s: State)
  {
    && s.cycle < CYCLES
    && (forall i :: 0 <= i < |s.intrUnlink| ==> InCycle(s, s.intrUnlink[i]))
    && (forall i, j :: 0 <= i < j < |s.intrUnlink| && s.intrUnlink[i].cycle == s.cycle ==>
      s.intrUnlink[j].cycle == s.cycle)
    && (forall i, j :: 0 <= i < j < |s.intrUnlink| ==> s.intrUnlink[i].at <= s.intrUnlink[j].at)
  }

  predicate InCycle(s: State, e: Entry)
  {
    e.cycle < CYCLES && (e.cycle == s.cycle || NextCycle(e.cycle) == s.cycle) && e.at <= s.timer.now
  }

  /** The event's timeout leaves every entry of the cycle before its nine microframes. */
  predicate Granted(s: State)
    requires |s.timer.timeouts| == T.NUM_EVENTS
  {
    forall i :: 0 <= i < |s.intrUnlink| && s.intrUnlink[i].cycle != s.cycle ==>
      s.intrUnlink[i].at + T.Delay(T.UNLINK_INTR) <= s.timer.timeouts[T.UNLINK_INTR]
  }

  /** Outside the handler the event is pending while anything is listed, for the head of the list. */
  predicate Awaited(s: State)
  {
    s.intrUnlink != [] && !s.intrUnlinking ==> s.intrUnlink[0].cycle != s.cycle && T.UNLINK_INTR in T.Pending(s.timer)
  }

  /** In the handler the timeout has passed. */
  predicate Due(s: State)
    requires |s.timer.timeouts| == T.NUM_EVENTS
  {
    && s.intrUnlinking == Handling(s.timer)
    && (s.ending.Some? ==> s.intrUnlinking)
    && (s.intrUnlinking ==> s.timer.timeouts[T.UNLINK_INTR] <= s.timer.func.start)
  }

  /** A queue head is linked, listed once, being ended, or idle. */
  predicate Placed(s: State)
  {
    && s.completing <= s.linked
    && (forall i :: 0 <= i < |s.intrUnlink| ==> s.intrUnlink[i].qh !in s.linked && s.ending != Some(s.intrUnlink[i].qh))
    && (forall i, j :: 0 <= i < j < |s.intrUnlink| ==> s.intrUnlink[i].qh != s.intrUnlink[j].qh)
    && (s.ending.Some? ==> s.ending.value !in s.linked)
  }

  predicate Inv(s: State)
  {
    T.Inv(s.timer, T.IAA_WATCHDOG) && Ordered(s) && Granted(s) && Awaited(s) && Due(s) && Placed(s)
  }

  lemma NextCycleIs(c: nat)
    requires c < CYCLES
    ensures NextCycle(c) < CYCLES && NextCycle(c) != c
  {
  }

  lemma StartUnlinkInv(s: State, q: Qh)
    requires Inv(s)
    ensures Inv(StartUnlink(s, q))
  {
    hide T.Inv, NextCycle;
    TimeoutsOf(s);
    NextCycleIs(s.cycle);
    T.EnableInv(s.timer, T.IAA_WATCHDOG, T.UNLINK_INTR);
  }

  /** A queue head is the driver's: linked, listed, or being ended. */
  predicate Kept(s: State, q: Qh)
  {
    q in s.linked || (exists i :: 0 <= i < |s.intrUnlink| && s.intrUnlink[i].qh == q) || s.ending == Some(q)
  }

  /** The unlink of a queue head that is linked and not in its completions takes it off the schedule and
      lists it last, under the current cycle.  If nothing was listed and the handler is not at work, the
      event comes 1125 microseconds later and the cycle advances; the timer is left alone otherwise. */
  lemma UnlinkListed(s: State, q: Qh)
    requires |s.timer.timeouts| == T.NUM_EVENTS
    ensures var s' := StartUnlink(s, q);
      if q in s.linked && q !in s.completing then
        && s'.linked == s.linked - {q} && s'.intrUnlink == s.intrUnlink + [Entry(q, s.cycle, s.timer.now)]
        && s'.completing == s.completing && s'.intrUnlinking == s.intrUnlinking && s'.ending == s.ending
        && (if s.intrUnlinking || s.intrUnlink != [] then s'.timer == s.timer && s'.cycle == s.cycle
            else EventSet(s.timer, s'.timer) && s'.cycle == (s.cycle + 1) % 0x1_0000_0000)
      else s' == s
  {
  }

  /** UNLINK_INTR is enabled, nine microframes from now, and the timer is set for it or a lower event. */
  predicate EventSet(t: T.Timer, t': T.Timer)
    requires |t.timeouts| == T.NUM_EVENTS
  {
    && t'.enabled == t.enabled + {T.UNLINK_INTR}
    && t'.timeouts == t.timeouts[T.UNLINK_INTR := t.now + 1_125_000]
    && t'.now == t.now
  }

  /** The timer's own steps move the event along but never lose it, and start its handler in time. */
  lemma ClockInv(s: State, c: T.Step)
    requires Inv(s) && Enabled(s, Clock(c))
    ensures Inv(Apply(s, Clock(c)))
  {
    T.StepInv(s.timer, T.IAA_WATCHDOG, c);
    if s.intrUnlink != [] && !s.intrUnlinking {
      T.NotForgotten(s.timer, T.IAA_WATCHDOG, c, T.UNLINK_INTR);
    }
    ClockKeeps(s, c);
    hide T.Inv, NextCycle, T.Apply, T.Enabled, T.Pending;
  }

  lemma ClockKeeps(s: State, c: T.Step)
    requires Inv(s) && Enabled(s, Clock(c))
    ensures var t := T.Apply(s.timer, c);
      && t.timeouts[T.UNLINK_INTR] == s.timer.timeouts[T.UNLINK_INTR] && s.timer.now <= t.now
      && (Handling(s.timer) ==> Handling(t) && t.func.start == s.timer.func.start)
      && (Handling(t) ==> t.timeouts[T.UNLINK_INTR] <= t.func.start)
      && (c == T.FuncNext && t.func.handling && s.timer.func.e == T.UNLINK_INTR ==> Handling(t))
  {
  }

  lemma TakeInv(s: State)
    requires Inv(s) && Enabled(s, Take)
    ensures Inv(Apply(s, Take))
  {
    hide T.Inv, NextCycle;
  }

  lemma FinishInv(s: State)
    requires Inv(s) && Enabled(s, DoFinish)
    ensures Inv(Apply(s, DoFinish))
  {
    NextCycleIs(s.cycle);
    T.EnableInv(s.timer, T.IAA_WATCHDOG, T.UNLINK_INTR);
    var t := if s.intrUnlink == [] then s.timer else T.Enable(s.timer, T.UNLINK_INTR, true);
    T.StepInv(t, T.IAA_WATCHDOG, T.HandlerEnd);
    hide T.Inv, NextCycle;
  }

  lemma QuietInv(s: State, step: Step)
    requires Inv(s) && Enabled(s, step)
    requires step.DoLink? || step.BeginCompletions? || step.EndCompletions? || step.TakeEnd?
    ensures Inv(Apply(s, step))
  {
    hide T.Inv, NextCycle, T.Pending, T.Enabled, T.Apply;
  }

  /** Every step keeps the invariant. */
  lemma StepInv(s: State, step: Step)
    requires Inv(s) && Enabled(s, step)
    ensures Inv(Apply(s, step))
  {
    TimeoutsOf(s);
    hide Inv, Finish, StartUnlink;
    match step
    case Clock(c) => ClockInv(s, c);
    case DoStartUnlink(q) => StartUnlinkInv(s, q);
    case Take => TakeInv(s);
    case DoFinish => FinishInv(s);
    case _ => QuietInv(s, step);
  }

  /** The controller's grace period: end_unlink_intr starts on a queue head no earlier than 1125
      microseconds after it was unlinked. */
  lemma Grace(s: State)
    requires Inv(s) && Enabled(s, Take)
    ensures s.intrUnlink[0].at + 1_125_000 <= s.timer.now
  {
  }

  /** Each pass of the handler's loop takes an entry of an earlier cycle; givebacks only add entries of
      the current one, so the loop ends. */
  function Remaining(list: seq<Entry>, cycle: nat): nat
  {
    if list == [] then 0 else (if list[0].cycle == cycle then 0 else 1) + Remaining(list[1..], cycle)
  }

  lemma {:induction false} RemainingAppend(list: seq<Entry>, e: Entry, cycle: nat)
    ensures Remaining(list + [e], cycle) == Remaining(list, cycle) + if e.cycle == cycle then 0 else 1
    decreases |list|
  {
    if list == [] {
      assert list + [e] == [e];
    } else {
      assert (list + [e])[1..] == list[1..] + [e];
      RemainingAppend(list[1..], e, cycle);
    }
  }

  /** While the handler runs, no step but its own ends its loop or prolongs it. */
  lemma HandlerEnds(s: State, step: Step)
    requires Inv(s) && Enabled(s, step) && s.intrUnlinking && step != DoFinish
    ensures var s' := Apply(s, step);
      && s'.intrUnlinking && s'.cycle == s.cycle
      && Remaining(s'.intrUnlink, s.cycle) == Remaining(s.intrUnlink, s.cycle) - if step == Take then 1 else 0
  {
    if step.DoStartUnlink? {
      RemainingAppend(s.intrUnlink, Entry(step.q, s.cycle, s.timer.now), s.cycle);
    } else if step.Clock? {
      ClockKeeps(s, step.step);
    }
    hide T.Inv, T.Apply, T.Enabled;
  }

  ghost predicate Legal(s: State, run: seq<Step>)
    requires |s.timer.timeouts| == T.NUM_EVENTS
    decreases |run|
  {
    run == [] || (Enabled(s, run[0]) && Legal(Apply(s, run[0]), run[1..]))
  }

  ghost function Exec(s: State, run: seq<Step>): (s': State)
    requires |s.timer.timeouts| == T.NUM_EVENTS && Legal(s, run)
    ensures |s'.timer.timeouts| == T.NUM_EVENTS
    decreases |run|
  {
    if run == [] then s else Exec(Apply(s, run[0]), run[1..])
  }

  lemma {:induction false} RunInv(s: State, run: seq<Step>)
    requires Inv(s) && Legal(s, run)
    ensures Inv(Exec(s, run))
    decreases |run|
  {
    if run != [] {
      StepInv(s, run[0]);
      RunInv(Apply(s, run[0]), run[1..]);
    }
    hide Inv, Apply, Enabled;
  }

  function Start(slack: nat): State
  {
    State(T.Start(slack), {}, {}, [], 0, false, None)
  }

  /** Over any run, whatever is unlinked meanwhile: the list is in temporal order and in two adjacent
      cycles, the event is pending while something is listed, no queue head is listed twice, and no
      unlink ends before its grace period is over. */
  lemma RunGrace(slack: nat, run: seq<Step>)
    requires Legal(Start(slack), run)
    ensures var s := Exec(Start(slack), run);
      && Ordered(s) && Awaited(s) && Placed(s)
      && (Enabled(s, Take) ==> s.intrUnlink[0].at + 1_125_000 <= s.timer.now)
  {
    T.StartInv(slack, T.IAA_WATCHDOG);
    RunInv(Start(slack), run);
    var s := Exec(Start(slack), run);
    if Enabled(s, Take) {
      Grace(s);
    }
  }

  lemma {:induction false} RunsJoin(s: State, a: seq<Step>, b: seq<Step>)
    requires |s.timer.timeouts| == T.NUM_EVENTS && Legal(s, a) && Legal(Exec(s, a), b)
    ensures Legal(s, a + b) && Exec(s, a + b) == Exec(Exec(s, a), b)
    decreases |a|
  {
    if a == [] {
      assert a + b == b;
    } else {
      assert (a + b)[1..] == a[1..] + b;
      RunsJoin(Apply(s, a[0]), a[1..], b);
    }
    hide Apply, Enabled;
  }

  /** The queue head leaves the driver in this step: its unlink ends with nothing queued for it. */
  predicate LetsGo(s: State, step: Step, q: Qh)
  {
    step == TakeEnd(false) && s.ending == Some(q)
  }

  /** No other step lets go of a queue head; an unlink whose queue head has requests queued by its end
      links it again. */
  lemma StepKept(s: State, step: Step, q: Qh)
    requires Inv(s) && |s.timer.timeouts| == T.NUM_EVENTS && Enabled(s, step) && (Kept(s, q) || step == DoLink(q))
    ensures Kept(Apply(s, step), q) <==> !LetsGo(s, step, q)
    ensures step == TakeEnd(true) && s.ending == Some(q) ==> q in Apply(s, step).linked
  {
    hide T.Inv, T.Apply, T.Enabled, Granted, Awaited, Ordered;
    if step.DoFinish? {
      assert Apply(s, step).intrUnlink == s.intrUnlink;
    } else if step.Take? {
      assert forall i :: 1 <= i < |s.intrUnlink| ==> s.intrUnlink[1..][i - 1] == s.intrUnlink[i];
    } else if step == DoStartUnlink(q) {
      if q in s.linked && q !in s.completing {
        assert Apply(s, step).intrUnlink[|s.intrUnlink|].qh == q;
      }
    } else if step.DoStartUnlink? {
      var s' := Apply(s, step);
      assert forall i :: 0 <= i < |s.intrUnlink| ==> s'.intrUnlink[i] == s.intrUnlink[i];
    }
  }

  /** Somewhere in a run the queue head is let go. */
  ghost predicate LetGoIn(s: State, run: seq<Step>, q: Qh)
    requires |s.timer.timeouts| == T.NUM_EVENTS && Legal(s, run)
    decreases |run|
  {
    run != [] && (LetsGo(s, run[0], q) || LetGoIn(Apply(s, run[0]), run[1..], q))
  }

  /** Over any run, a queue head that has been linked stays linked, listed or being ended until an unlink
      of it has ended. */
  lemma {:induction false} RunKept(s: State, run: seq<Step>, q: Qh)
    requires Inv(s) && Kept(s, q) && Legal(s, run)
    ensures Kept(Exec(s, run), q) || LetGoIn(s, run, q)
    decreases |run|
  {
    hide Inv, Kept, Apply, Enabled, LetsGo;
    TimeoutsOf(s);
    if run != [] {
      StepKept(s, run[0], q);
      if !LetsGo(s, run[0], q) {
        StepInv(s, run[0]);
        RunKept(Apply(s, run[0]), run[1..], q);
      }
    }
  }

  lemma TimeoutsOf(s: State)
    requires Inv(s)
    ensures |s.timer.timeouts| == T.NUM_EVENTS
  {
  }

  lemma NoSteps(s: State)
    requires |s.timer.timeouts| == T.NUM_EVENTS
    ensures Legal(s, []) && Exec(s, []) == s
  {
  }

  /** A run goes on by one step. */
  lemma LastStep(s: State, run: seq<Step>, step: Step) returns (longer: seq<Step>)
    requires |s.timer.timeouts| == T.NUM_EVENTS && Legal(s, run) && Inv(Exec(s, run)) && Enabled(Exec(s, run), step)
    ensures Legal(s, longer) && Exec(s, longer) == Apply(Exec(s, run), step) && Inv(Exec(s, longer))
  {
    hide Inv, Apply, Enabled;
    OneStep(Exec(s, run), step);
    StepInv(Exec(s, run), step);
    RunsJoin(s, run, [step]);
    longer := run + [step];
  }

  lemma OneStep(s: State, step: Step)
    requires |s.timer.timeouts| == T.NUM_EVENTS && Enabled(s, step)
    ensures Legal(s, [step]) && Exec(s, [step]) == Apply(s, step)
  {
    assert [step][1..] == [];
    assert Legal(Apply(s, step), []);
    hide Apply, Enabled;
  }

  /** The queue heads of a list. */
  function QhsOf(list: seq<Entry>): (qhs: seq<Qh>)
    ensures |qhs| == |list|
  {
    seq(|list|, i requires 0 <= i < |list| => list[i].qh)
  }

  /** The cycle a queue head came in. */
  function CycleOf(cycles: map<Qh, nat>, q: Qh): nat
  {
    if q in cycles then cycles[q] else 0
  }

  ghost predicate Cycles(cycles: map<Qh, nat>, list: seq<Entry>)
  {
    forall i :: 0 <= i < |list| ==> CycleOf(cycles, list[i].qh) == list[i].cycle
  }

  lemma ListedOnce(s: State)
    requires Placed(s)
    ensures AllDistinct(QhsOf(s.intrUnlink)) && forall q :: q in s.linked ==> q !in QhsOf(s.intrUnlink)
  {
  }

  lemma ListedLast(cycles: map<Qh, nat>, list: seq<Entry>, e: Entry)
    requires Cycles(cycles, list) && e.qh !in QhsOf(list)
    ensures QhsOf(list + [e]) == QhsOf(list) + [e.qh] && Cycles(cycles[e.qh := e.cycle], list + [e])
  {
    assert forall i :: 0 <= i < |list| ==> QhsOf(list)[i] == list[i].qh;
  }

  /** The driver's side, in place.  The list is threaded through `unlink_next` of its queue heads, which also
      hold the cycle they came in. */
  class IntrSchedule {
    var timer: T.Timer
    var linked: set<Qh>
    var completing: set<Qh>
    var intrUnlink: Option<Qh>
    var intrUnlinkLast: Option<Qh>
    var unlinkNext: map<Qh, Option<Qh>>
    var unlinkCycle: map<Qh, nat>
    var cycle: nat
    var intrUnlinking: bool
    var ending: Option<Qh>
    ghost var list: seq<Entry>   // the list that begins at intrUnlink

    ghost function View(): State
      reads this`timer, this`linked, this`completing, this`list, this`cycle, this`intrUnlinking, this`ending
    {
      State(timer, linked, completing, list, cycle, intrUnlinking, ending)
    }

    /** The pointers are the list. */
    ghost predicate Threaded()
      reads this`intrUnlink, this`intrUnlinkLast, this`unlinkNext, this`unlinkCycle, this`list
    {
      ThreadsTo(intrUnlink, intrUnlinkLast, unlinkNext, QhsOf(list)) && Cycles(unlinkCycle, list)
    }

    constructor (slack: nat)
      ensures View() == Start(slack) && Inv(View()) && Threaded()
    {
      timer, linked, completing, intrUnlink, intrUnlinkLast := T.Start(slack), {}, {}, None, None;
      unlinkNext, unlinkCycle, list := map[], map[], [];
      cycle, intrUnlinking, ending := 0, false, None;
      new;
      T.StartInv(slack, T.IAA_WATCHDOG);
    }

    /** The queue head goes to the end of the list. */
    method Append(q: Qh)
      requires Threaded() && AllDistinct(QhsOf(list)) && q !in QhsOf(list)
      modifies this`intrUnlink, this`intrUnlinkLast, this`unlinkNext, this`unlinkCycle, this`list
      ensures Threaded() && list == old(list) + [Entry(q, cycle, timer.now)]
    {
      hide ThreadsTo, Cycles, QhsOf, AllDistinct;
      AppendsTo(intrUnlink, intrUnlinkLast, unlinkNext, QhsOf(list), q);
      ListedLast(unlinkCycle, list, Entry(q, cycle, timer.now));
      unlinkCycle := unlinkCycle[q := cycle];
      if intrUnlink.Some? {
        unlinkNext := unlinkNext[intrUnlinkLast.value := Some(q)];
      } else {
        intrUnlink := Some(q);
      }
      intrUnlinkLast := Some(q);
      list := list + [Entry(q, cycle, timer.now)];
    }

    /** The first of the list leaves it, and its link is cleared. */
    method TakeFirst() returns (q: Qh)
      requires Threaded() && AllDistinct(QhsOf(list)) && list != []
      modifies this`intrUnlink, this`unlinkNext, this`list
      ensures Threaded() && q == old(list)[0].qh && list == old(list)[1..] && After(unlinkNext, q) == None
    {
      TakesFrom(intrUnlink, intrUnlinkLast, unlinkNext, QhsOf(list));
      hide ThreadsTo;
      q := intrUnlink.value;
      intrUnlink := After(unlinkNext, q);
      unlinkNext := unlinkNext[q := None];
      assert QhsOf(list[1..]) == QhsOf(list)[1..];
      list := list[1..];
    }

    /** Whether the head of the list is of an earlier cycle. */
    predicate HeadIsDue()
      requires Threaded()
      reads this
      ensures HeadIsDue() <==> list != [] && list[0].cycle != cycle
    {
      assert list != [] ==> QhsOf(list)[0] == list[0].qh;
      intrUnlink.Some? && CycleOf(unlinkCycle, intrUnlink.value) != cycle
    }

    predicate NothingListed()
      requires Threaded()
      reads this
      ensures NothingListed() <==> list == []
    {
      intrUnlink.None?
    }

    /** Begin to unlink a queue head: the event is enabled for it if it is the only one of the list. */
    method StartUnlinkIntr(q: Qh)
      requires Threaded() && Inv(View())
      modifies this`linked, this`intrUnlink, this`intrUnlinkLast, this`unlinkNext, this`unlinkCycle, this`list
      modifies this`timer, this`cycle
      ensures Threaded() && View() == StartUnlink(old(View()), q) && Inv(View())
      ensures old(q in linked && q !in completing) ==>
        q !in linked && linked == old(linked) - {q} && list == old(list) + [Entry(q, old(cycle), old(timer.now))]
      ensures old(q in linked && q !in completing && !intrUnlinking && list == []) ==>
        && T.UNLINK_INTR in timer.enabled && timer.timeouts[T.UNLINK_INTR] == timer.now + 1_125_000
        && timer.now == old(timer.now) && cycle == (old(cycle) + 1) % 0x1_0000_0000
      ensures old(q !in linked || q in completing || intrUnlinking || list != []) ==>
        timer == old(timer) && cycle == old(cycle)
      ensures old(q !in linked || q in completing) ==> View() == old(View())
    {
      hide Inv, T.Inv, Threaded, QhsOf;
      TimeoutsOf(View());
      UnlinkListed(View(), q);
      StartUnlinkInv(View(), q);
      PlacedOf(View());
      ListedOnce(View());
      if q !in linked || q in completing {
        return;
      }
      var alone := NothingListed();
      linked := linked - {q};
      Append(q);
      if intrUnlinking {
        // the handler is at work and will see it
      } else if alone {
        timer := T.Enable(timer, T.UNLINK_INTR, true);
        cycle := NextCycle(cycle);
      }
    }

    /** One step of what happens elsewhere while a giveback has dropped the lock, if it can be taken by
        then; the handler itself goes no further. */
    method Elsewhere(step: Step) returns (ghost run: seq<Step>)
      requires Threaded() && Inv(View()) && intrUnlinking && ending.Some?
      modifies this
      ensures Threaded() && Inv(View()) && intrUnlinking && ending == old(ending) && cycle == old(cycle)
      ensures Legal(old(View()), run) && View() == Exec(old(View()), run)
      ensures Remaining(list, cycle) == Remaining(old(list), cycle)
    {
      hide Inv, Legal, Exec, Apply, Enabled, Threaded;
      TimeoutsOf(View());
      NoSteps(View());
      run := [];
      if !step.Take? && !step.TakeEnd? && !step.DoFinish? && CanHappen(step) {
        HandlerEnds(View(), step);
        EndingKept(View(), step);
        ghost var longer := LastStep(View(), [], step);
        run := longer;
        Happen(step);
      }
    }

    /** Whether a queue head is listed: its link says so, or it is the last one. */
    predicate IsListed(q: Qh)
      requires Threaded()
      reads this
      ensures IsListed(q) <==> q in QhsOf(list)
    {
      ListedThen(intrUnlink, intrUnlinkLast, unlinkNext, QhsOf(list), q);
      After(unlinkNext, q).Some? || (intrUnlink.Some? && intrUnlinkLast == Some(q))
    }

    predicate CanHappen(step: Step)
      requires Threaded() && |timer.timeouts| == T.NUM_EVENTS && !step.Take? && !step.TakeEnd? && !step.DoFinish?
      reads this
      ensures CanHappen(step) ==> Enabled(View(), step)
    {
      assert forall i :: 0 <= i < |list| ==> QhsOf(list)[i] == list[i].qh;
      match step
      case Clock(c) =>
        T.Enabled(timer, c) && c != T.DoEnable(T.UNLINK_INTR) && (c == T.HandlerEnd ==> !Handling(timer))
      case DoLink(q) => q !in linked && ending != Some(q) && !IsListed(q)
      case DoStartUnlink(q) => true
      case BeginCompletions(q) => q in linked && q !in completing
      case EndCompletions(q) => q in completing
    }

    method Happen(step: Step)
      requires Threaded() && Inv(View()) && |timer.timeouts| == T.NUM_EVENTS
      requires !step.Take? && !step.TakeEnd? && !step.DoFinish? && Enabled(View(), step)
      modifies this
      ensures Threaded() && View() == Apply(old(View()), step)
    {
      hide Inv, Threaded, T.Inv;
      match step {
        case Clock(c) =>
          timer := T.Apply(timer, c);
          intrUnlinking := Handling(timer);
        case DoLink(q) => linked := linked + {q};
        case DoStartUnlink(q) => StartUnlinkIntr(q);
        case BeginCompletions(q) => completing := completing + {q};
        case EndCompletions(q) => completing := completing - {q};
      }
    }

    method Giveback(work: seq<Step>) returns (ghost run: seq<Step>)
      requires Threaded() && Inv(View()) && intrUnlinking && ending.Some?
      modifies this
      ensures Threaded() && Inv(View()) && intrUnlinking && ending == old(ending) && cycle == old(cycle)
      ensures Legal(old(View()), run) && View() == Exec(old(View()), run)
      ensures Remaining(list, cycle) == Remaining(old(list), cycle)
    {
      hide Inv, Legal, Exec, Remaining, Threaded;
      TimeoutsOf(View());
      NoSteps(View());
      run := [];
      for i := 0 to |work|
        invariant Threaded() && Inv(View()) && intrUnlinking && ending == old(ending) && cycle == old(cycle)
        invariant Legal(old(View()), run) && View() == Exec(old(View()), run)
        invariant Remaining(list, cycle) == Remaining(old(list), cycle)
      {
        ghost var more := Elsewhere(work[i]);
        RunsJoin(old(View()), run, more);
        run := run + more;
      }
    }

    /** fotg210_handle_intr_unlinks, called by the timer function: end the unlinks of earlier cycles. */
    method HandleIntrUnlinks(work: seq<seq<Step>>, more: set<Qh>) returns (ghost run: seq<Step>)
      requires Threaded() && Inv(View()) && intrUnlinking && ending == None
      modifies this
      ensures Threaded() && Inv(View()) && !intrUnlinking
      ensures Legal(old(View()), run) && View() == Exec(old(View()), run)
    {
      hide Inv, Legal, Exec, T.Apply, Threaded;
      TimeoutsOf(View());
      NoSteps(View());
      run := [];
      var i := 0;
      while HeadIsDue()
        invariant Threaded() && Inv(View()) && intrUnlinking && ending == None
        invariant Legal(old(View()), run) && View() == Exec(old(View()), run)
        decreases Remaining(list, cycle)
      {
        ghost var next := EndUnlinkIntr(if i < |work| then work[i] else [], more);
        RunsJoin(old(View()), run, next);
        run := run + next;
        i := i + 1;
      }
      ghost var end := HandlerLeaves(old(View()), run);
      run := end;
    }

    /** The end of the handler: come back for what is listed. */
    method HandlerLeaves(ghost s: State, ghost run0: seq<Step>) returns (ghost run: seq<Step>)
      requires Threaded() && Inv(View()) && intrUnlinking && ending == None && !HeadIsDue()
      requires |s.timer.timeouts| == T.NUM_EVENTS && Legal(s, run0) && View() == Exec(s, run0)
      modifies this`timer, this`cycle, this`intrUnlinking
      ensures Threaded() && Inv(View()) && !intrUnlinking
      ensures Legal(s, run) && View() == Exec(s, run)
    {
      hide Inv, Legal, Exec, T.Apply, Threaded;
      TimeoutsOf(View());
      HandlerStillOn(View());
      run := LastStep(s, run0, DoFinish);
      if !NothingListed() {
        timer := T.Enable(timer, T.UNLINK_INTR, true);
        cycle := NextCycle(cycle);
      }
      intrUnlinking := false;
      timer := T.Apply(timer, T.HandlerEnd);
    }

    /** Take the head of the list and end its unlink, completions included; `more`: queue heads that
        have requests queued when their completions are over. */
    method EndUnlinkIntr(work: seq<Step>, more: set<Qh>) returns (ghost run: seq<Step>)
      requires Threaded() && Inv(View()) && intrUnlinking && ending == None && HeadIsDue()
      modifies this
      ensures Threaded() && Inv(View()) && intrUnlinking && ending == None && cycle == old(cycle)
      ensures Legal(old(View()), run) && View() == Exec(old(View()), run)
      ensures Remaining(list, cycle) < Remaining(old(list), cycle)
      ensures old(list[0]).qh in linked <==> old(list[0]).qh in more
    {
      hide Inv, Threaded, Legal, Exec;
      ghost var s := View();
      TimeoutsOf(s);
      HandlerEnds(s, Take);
      StepInv(s, Take);
      OneStep(s, Take);
      PlacedOf(s);
      ListedOnce(s);
      run := [Take];
      var q := TakeFirst();
      ending := Some(q);
      ghost var inside := Giveback(work);
      RunsJoin(s, run, inside);
      PlacedOf(View());
      StepInv(View(), TakeEnd(q in more));
      OneStep(View(), TakeEnd(q in more));
      RunsJoin(s, run + inside, [TakeEnd(q in more)]);
      run := run + inside + [TakeEnd(q in more)];
      ending := None;
      if q in more {
        linked := linked + {q};
      }
    }
  }

  lemma PlacedOf(s: State)
    requires Inv(s)
    ensures Placed(s)
  {
  }

  lemma ListedThen(first: Option<Qh>, last: Option<Qh>, next: map<Qh, Option<Qh>>, list: seq<Qh>, q: Qh)
    requires ThreadsTo(first, last, next, list)
    ensures q in list <==> After(next, q).Some? || (first.Some? && last == Some(q))
  {
    if q in list {
      var i :| 0 <= i < |list| && list[i] == q;
      assert After(next, list[i]) == EntryAt(list, i + 1);
    }
  }

  lemma EndingKept(s: State, step: Step)
    requires Inv(s) && Enabled(s, step) && !step.Take? && !step.TakeEnd? && !step.DoFinish?
    ensures Apply(s, step).ending == s.ending
  {
  }

  lemma HandlerStillOn(s: State)
    requires Inv(s) && s.intrUnlinking
    ensures T.Enabled(s.timer, T.HandlerEnd)
  {
  }
}
