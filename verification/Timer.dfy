/** One high-resolution timer for ten kinds of events, as a transition system.  Only the lowest-numbered
    pending event is tracked, and the timer is set for that one; events are numbered in order of
    increasing delay.  Event handlers drop the lock, so between the start and the end of a handler any
    other step may happen.  The status polls are enabled only while the root hub is running, and the
    poll of a dead controller only when it is not, which it never is again. */
module Timer {

  const POLL_ASS: nat := 0
  const POLL_PSS: nat := 1
  const POLL_DEAD: nat := 2
  const UNLINK_INTR: nat := 3
  const FREE_ITDS: nat := 4
  const ASYNC_UNLINKS: nat := 5
  const IAA_WATCHDOG: nat := 6
  const DISABLE_PERIODIC: nat := 7
  const DISABLE_ASYNC: nat := 8
  const IO_WATCHDOG: nat := 9
  const NUM_EVENTS: nat := 10
  const NO_EVENT: nat := 99

  /** Delay of an event in nanoseconds. */
  function Delay(e: nat): (d: int)
    ensures 1_000_000 <= d
  {
    if e < 3 then 1_000_000
    else if e == 3 then 1_125_000
    else if e == 4 then 2_000_000
    else if e == 5 then 6_000_000
    else if e < 8 then 10_000_000
    else if e == 8 then 15_000_000
    else 100_000_000
  }

  /** Where the timer function is: which events it found enabled, when, and which it looks at. */
  datatype Func = Asleep | Running(events: set<nat>, start: int, e: nat, handling: bool)

  datatype Timer = Timer(
    enabled: set<nat>,    // enabled_hrtimer_events
    timeouts: seq<int>,   // hr_timeouts
    next: nat,            // next_hrtimer_event
    armed: bool,          // the hrtimer is set,
    expiry: int,          //   for this time
    now: int,
    slack: nat,           // how late the timer function may start, and how long it may take
    running: bool,        // rh_state is RUNNING
    func: Func)

  /** fotg210_enable_event. */
  function Enable(t: Timer, e: nat, resched: bool): Timer
    requires |t.timeouts| == NUM_EVENTS && e < NUM_EVENTS
  {
    var timeouts := if resched then t.timeouts[e := t.now + Delay(e)] else t.timeouts;
    var t' := t.(timeouts := timeouts, enabled := t.enabled + {e});
    if e < t.next then t'.(next := e, armed := true, expiry := timeouts[e]) else t'
  }

  /** What the arrival of STS_IAA does to the watchdog. */
  function StopWatchdog(t: Timer): Timer
  {
    t.(enabled := t.enabled - {IAA_WATCHDOG},
       next := if t.next == IAA_WATCHDOG then IAA_WATCHDOG + 1 else t.next)
  }

  datatype Step =
    | DoEnable(e: nat)
    | DoStopWatchdog
    | DoClear(e: nat)       // the schedules clear their pending turn-off
    | Die                   // a fatal error
    | Tick(dt: nat)
    // fotg210_hrtimer_func
    | FuncBegin
    | FuncNext
    | HandlerEnd
    | FuncEnd

  /** The timer function looks at its next event: if its time has come the handler starts, otherwise it
      is enabled again with the timeout it has. */
  function Next(t: Timer): Timer
    requires |t.timeouts| == NUM_EVENTS && t.func.Running? && t.func.e < NUM_EVENTS
  {
    var e := t.func.e;
    if e !in t.func.events then t.(func := t.func.(e := e + 1))
    else if t.timeouts[e] <= t.func.start then t.(func := t.func.(handling := true))
    else Enable(t, e, false).(func := t.func.(e := e + 1))
  }

  /** poll_ASS and poll_PSS enable nothing unless the root hub is running, and handle_controller_death is
      reached only when it is not. */
  predicate May(t: Timer, e: nat)
  {
    e < NUM_EVENTS && (e < POLL_DEAD ==> t.running) && (e == POLL_DEAD ==> !t.running)
  }

  /** Time passes, but the timer function starts and ends within the slack. */
  predicate Enabled(t: Timer, step: Step)
  {
    match step
    case DoEnable(e) => May(t, e)
    case Die => true
    case DoStopWatchdog => true
    case DoClear(e) => e == DISABLE_PERIODIC || e == DISABLE_ASYNC
    case Tick(dt) =>
      && (t.armed ==> t.now + dt <= t.expiry + t.slack)
      && (t.func.Running? ==> t.now + dt <= t.func.start + t.slack)
    case FuncBegin => t.func.Asleep? && t.armed && t.expiry <= t.now
    case FuncNext => t.func.Running? && !t.func.handling && t.func.e < NUM_EVENTS
    case HandlerEnd => t.func.Running? && t.func.handling && t.func.e < NUM_EVENTS
    case FuncEnd => t.func.Running? && t.func.e == NUM_EVENTS
  }

  function Apply(t: Timer, step: Step): (t': Timer)
    requires |t.timeouts| == NUM_EVENTS && Enabled(t, step)
    ensures |t'.timeouts| == NUM_EVENTS && t'.slack == t.slack
  {
    match step
    case DoEnable(e) => Enable(t, e, true)
    case DoStopWatchdog => StopWatchdog(t)
    case DoClear(e) => t.(enabled := t.enabled - {e})
    case Die => t.(running := false)
    case Tick(dt) => t.(now := t.now + dt)
    case FuncBegin => t.(func := Running(t.enabled, t.now, 0, false), enabled := {}, next := NO_EVENT, armed := false)
    case FuncNext => Next(t)
    case HandlerEnd => t.(func := t.func.(e := t.func.e + 1, handling := false))
    case FuncEnd => t.(func := Asleep)
  }

  /** Before the driver enables anything. */
  function Start(slack: nat): Timer
  {
    Timer({}, seq(NUM_EVENTS, _ => 0), NO_EVENT, false, 0, 0, slack, true, Asleep)
  }

  /** How much the events numbered below `k` can postpone it, with the slack each may add.  POLL_DEAD does
      not add to the status polls, which are not enabled after it. */
  function Below(k: nat, slack: nat): (d: nat)
  {
    if k == 0 then 0
    else if k <= POLL_DEAD then Delay(POLL_ASS) + slack
    else if k == UNLINK_INTR then Below(POLL_DEAD, slack) + Delay(POLL_PSS) + slack
    else Below(k - 1, slack) + Delay(k - 1) + slack
  }

  /** How late an event can be.  POLL_DEAD is postponed by nothing. */
  function Late(e: nat, slack: nat): (d: nat)
  {
    if e == POLL_DEAD then 0 else Below(e, slack)
  }

  /** The timer tracks the lowest enabled event, or a lower one: an enabled event means it is armed. */
  predicate Tracked(t: Timer, limit: nat)
    requires |t.timeouts| == NUM_EVENTS
  {
    && (forall e :: e in t.enabled ==> t.next <= e < NUM_EVENTS)
    && (t.next != NO_EVENT ==> t.armed && t.next < NUM_EVENTS)
    && (t.next <= limit && t.next < NUM_EVENTS ==> t.expiry <= t.timeouts[t.next])
  }

  /** No timeout lies further ahead than the delay of its event. */
  predicate Near(t: Timer, limit: nat)
    requires |t.timeouts| == NUM_EVENTS
  {
    && (forall e :: 0 <= e < NUM_EVENTS ==> t.timeouts[e] <= t.now + Delay(e))
    && (t.next <= limit && t.next < NUM_EVENTS ==> t.expiry <= t.now + Delay(t.next))
  }

  /** Up to the watchdog, an enabled event is postponed by lower-numbered events only, once by each. */
  predicate Bounded(t: Timer, limit: nat)
    requires |t.timeouts| == NUM_EVENTS
  {
    forall e :: e in t.enabled && e <= limit && t.next <= e < NUM_EVENTS && e != POLL_DEAD ==>
      t.expiry + Below(t.next, t.slack) <= t.timeouts[e] + Below(e, t.slack)
  }

  /** POLL_DEAD is not pending before the controller has died, and afterwards no status poll has a later
      timeout. */
  predicate DeadLast(t: Timer)
    requires |t.timeouts| == NUM_EVENTS
  {
    var pending := POLL_DEAD in t.enabled || (t.func.Running? && POLL_DEAD in t.func.events);
    && (t.running ==> !pending && t.next != POLL_DEAD)
    && (pending || t.next == POLL_DEAD ==>
          t.timeouts[POLL_ASS] <= t.timeouts[POLL_DEAD] && t.timeouts[POLL_PSS] <= t.timeouts[POLL_DEAD])
  }

  /** While the timer function runs: what it enabled is not older than its start, and what it has not
      looked at yet was not late when it started. */
  predicate Snapshot(t: Timer, limit: nat)
    requires |t.timeouts| == NUM_EVENTS
  {
    t.func.Running? ==>
      && t.func.start <= t.now && t.func.e <= NUM_EVENTS && (t.func.handling ==> t.func.e < NUM_EVENTS)
      && (forall e :: e in t.func.events ==> e < NUM_EVENTS)
      && (forall e :: e in t.enabled && e < NUM_EVENTS ==> t.func.start < t.timeouts[e])
      && (forall e :: e in t.func.events && e <= limit ==> t.func.start <= t.timeouts[e] + Late(e, t.slack) + t.slack)
  }

  /** Time has not run past the timer, nor away from the timer function. */
  predicate Prompt(t: Timer)
  {
    (t.armed ==> t.now <= t.expiry + t.slack) && (t.func.Running? ==> t.now <= t.func.start + t.slack)
  }

  predicate Inv(t: Timer, limit: nat)
  {
    |t.timeouts| == NUM_EVENTS && Tracked(t, limit) && Near(t, limit) && Bounded(t, limit) && DeadLast(t)
      && Snapshot(t, limit) && Prompt(t)
  }

  lemma {:induction false} BelowGrows(j: nat, k: nat, slack: nat)
    requires j < k && k != POLL_DEAD
    ensures Below(j, slack) + Delay(j) + slack <= Below(k, slack)
  {
    if k > UNLINK_INTR && j + 1 < k {
      BelowGrows(j, k - 1, slack);
    }
  }

  lemma EnableInv(t: Timer, limit: nat, e: nat)
    requires Inv(t, limit) && May(t, e)
    ensures Inv(Enable(t, e, true), limit)
  {
    EnableBounded(t, limit, e);
    EnableRest(t, limit, e);
    hide Tracked, Near, Bounded, DeadLast, Snapshot, Prompt, Enable;
  }

  lemma EnableBounded(t: Timer, limit: nat, e: nat)
    requires Inv(t, limit) && May(t, e)
    ensures |Enable(t, e, true).timeouts| == NUM_EVENTS && Bounded(Enable(t, e, true), limit)
  {
    hide Tracked, Near, Bounded, DeadLast, Snapshot, Prompt;
    var t' := Enable(t, e, true);
    forall k | k in t'.enabled && k <= limit && t'.next <= k < NUM_EVENTS && k != POLL_DEAD
      ensures t'.expiry + Below(t'.next, t.slack) <= t'.timeouts[k] + Below(k, t.slack)
    {
      EnableBound(t, limit, e, k);
    }
    BoundedWhen(t', limit);
  }

  lemma BoundedWhen(t: Timer, limit: nat)
    requires |t.timeouts| == NUM_EVENTS
    requires forall e :: e in t.enabled && e <= limit && t.next <= e < NUM_EVENTS && e != POLL_DEAD ==>
      t.expiry + Below(t.next, t.slack) <= t.timeouts[e] + Below(e, t.slack)
    ensures Bounded(t, limit)
  {
  }

  lemma EnableRest(t: Timer, limit: nat, e: nat)
    requires Inv(t, limit) && May(t, e)
    ensures var t' := Enable(t, e, true);
      && |t'.timeouts| == NUM_EVENTS && Tracked(t', limit) && Near(t', limit) && DeadLast(t')
      && Snapshot(t', limit) && Prompt(t')
  {
    hide Bounded, Below, Late;
  }

  /** The bound after an event was enabled with a new timeout. */
  lemma EnableBound(t: Timer, limit: nat, e: nat, k: nat)
    requires Inv(t, limit) && May(t, e) && k <= limit && k != POLL_DEAD
    requires var t' := Enable(t, e, true); k in t'.enabled && t'.next <= k
    ensures var t' := Enable(t, e, true); t'.expiry + Below(t'.next, t.slack) <= t'.timeouts[k] + Below(k, t.slack)
  {
    if e < t.next {
      // the timer is set for e
      if k != e {
        BelowGrows(e, t.next, t.slack);
        BelowGrows(e, k, t.slack);
      }
    } else if k == e {
      if t.next < e {
        BelowGrows(t.next, e, t.slack);
      }
    }
  }

  /** While the timer function runs, an event it enables again keeps its timeout. */
  lemma AgainInv(t: Timer, limit: nat, e: nat)
    requires Inv(t, limit) && t.func.Running? && e in t.func.events && t.func.start < t.timeouts[e]
    ensures Inv(Enable(t, e, false), limit)
  {
    var t' := Enable(t, e, false);
    forall k | k in t'.enabled && k <= limit && t'.next <= k < NUM_EVENTS && k != POLL_DEAD
      ensures t'.expiry + Below(t'.next, t.slack) <= t'.timeouts[k] + Below(k, t.slack)
    {
      if e < t.next {
        if k != e {
          BelowGrows(e, k, t.slack);
        }
      } else if k == e && t.next < e {
        BelowGrows(t.next, e, t.slack);
      }
    }
  }

  lemma EnabledInv(t: Timer, limit: nat, e: nat, resched: bool)
    requires Inv(t, limit)
    requires if resched then May(t, e) else t.func.Running? && e in t.func.events && t.func.start < t.timeouts[e]
    ensures var t' := Enable(t, e, resched); Inv(t', limit) && t'.armed && t'.next <= e
  {
    if resched {
      EnableInv(t, limit, e);
    } else {
      AgainInv(t, limit, e);
    }
    hide Near, Bounded, Snapshot, Prompt, DeadLast;
  }

  lemma BeginInv(t: Timer, limit: nat)
    requires Inv(t, limit) && Enabled(t, FuncBegin)
    ensures Inv(Apply(t, FuncBegin), limit)
  {
  }

  lemma NextInv(t: Timer, limit: nat)
    requires Inv(t, limit) && Enabled(t, FuncNext)
    ensures Inv(Next(t), limit)
  {
    hide Tracked, Near, Bounded, DeadLast;
    var e := t.func.e;
    if e in t.func.events && t.func.start < t.timeouts[e] {
      AgainInv(t, limit, e);
      hide Enable;
      SameTimer(Enable(t, e, false), Next(t), limit);
    } else {
      SameTimer(t, Next(t), limit);
    }
  }

  lemma SameTimer(t: Timer, t': Timer, limit: nat)
    requires |t.timeouts| == NUM_EVENTS && t' == t.(func := t'.func)
    requires t.func.Running? && t'.func.Running? && t'.func.events == t.func.events
    ensures Tracked(t, limit) ==> Tracked(t', limit)
    ensures Near(t, limit) ==> Near(t', limit)
    ensures Bounded(t, limit) ==> Bounded(t', limit)
    ensures DeadLast(t) ==> DeadLast(t')
  {
  }

  /** An STS_IAA that arrives while the watchdog is the tracked event: only then is the timer said to
      track the event after it, although it is still set for the watchdog. */
  predicate Untracks(t: Timer, step: Step)
  {
    step.DoStopWatchdog? && t.next == IAA_WATCHDOG
  }

  /** Every step keeps the invariant; with the later events included, as long as no STS_IAA stops the
      watchdog while it is tracked. */
  lemma StepInv(t: Timer, limit: nat, step: Step)
    requires Inv(t, limit) && Enabled(t, step) && (Untracks(t, step) ==> limit <= IAA_WATCHDOG)
    ensures Inv(Apply(t, step), limit)
  {
    match step
    case DoEnable(e) => EnableInv(t, limit, e);
    case FuncBegin => BeginInv(t, limit);
    case FuncNext => NextInv(t, limit);
    case _ =>
  }

  /** Events that are to be looked at: enabled, or found enabled by the timer function and not reached. */
  function Pending(t: Timer): set<nat>
  {
    t.enabled +
    (match t.func
     case Asleep => {}
     case Running(events, _, next, handling) => set e | e in events && (next < e || (next == e && !handling)))
  }

  /** A pending event is overdue by the delays of the lower-numbered events at most, and the poll of a dead
      controller not at all. */
  lemma Timely(t: Timer, limit: nat, e: nat)
    requires Inv(t, limit) && e in Pending(t) && e <= limit
    ensures t.now <= t.timeouts[e] + Late(e, t.slack) + 2 * t.slack
  {
    if e in t.enabled {
      if e != POLL_DEAD && t.next < e { BelowGrows(t.next, e, t.slack); }
    }
  }

  /** No pending event is forgotten: it stays pending until its handler starts, or something clears it. */
  lemma NotForgotten(t: Timer, limit: nat, step: Step, e: nat)
    requires Inv(t, limit) && Enabled(t, step) && e in Pending(t)
    ensures || e in Pending(Apply(t, step))
            || (step == FuncNext && Apply(t, step).func.handling && t.func.e == e)
            || (step == DoClear(e) || (step == DoStopWatchdog && e == IAA_WATCHDOG))
  {
  }

  /** The steps of a run can be taken one after the other. */
  predicate Legal(t: Timer, run: seq<Step>)
    requires |t.timeouts| == NUM_EVENTS
    decreases |run|
  {
    run == [] || (Enabled(t, run[0]) && Legal(Apply(t, run[0]), run[1..]))
  }

  function Exec(t: Timer, run: seq<Step>): (t': Timer)
    requires |t.timeouts| == NUM_EVENTS && Legal(t, run)
    ensures |t'.timeouts| == NUM_EVENTS && t'.slack == t.slack
    decreases |run|
  {
    if run == [] then t else Exec(Apply(t, run[0]), run[1..])
  }

  /** Some step of the run stops the watchdog while it is tracked. */
  predicate Untracked(t: Timer, run: seq<Step>)
    requires |t.timeouts| == NUM_EVENTS && Legal(t, run)
    decreases |run|
  {
    run != [] && (Untracks(t, run[0]) || Untracked(Apply(t, run[0]), run[1..]))
  }

  lemma {:induction false} RunInv(t: Timer, limit: nat, run: seq<Step>)
    requires Inv(t, limit) && Legal(t, run) && (Untracked(t, run) ==> limit <= IAA_WATCHDOG)
    ensures Inv(Exec(t, run), limit)
    decreases |run|
  {
    if run != [] {
      StepInv(t, limit, run[0]);
      RunInv(Apply(t, run[0]), limit, run[1..]);
    }
    hide Inv, Apply, Enabled, Untracks;
  }

  lemma StartInv(slack: nat, limit: nat)
    ensures Inv(Start(slack), limit)
  {
  }

  /** Over any run: an enabled event means the timer is set and tracks an event numbered no higher; and
      a pending event up to the watchdog is never overdue by more than the delays of the events
      numbered below it, and POLL_DEAD by nothing but the slack.  So are the later events, unless the
      controller answers a doorbell while the timer tracks the watchdog. */
  lemma RunTimely(slack: nat, run: seq<Step>, e: nat)
    requires Legal(Start(slack), run)
    ensures var t := Exec(Start(slack), run);
      && (e in t.enabled ==> t.armed && t.next <= e)
      && (e in Pending(t) ==> e < NUM_EVENTS)
      && (e in Pending(t) && (e <= IAA_WATCHDOG || !Untracked(Start(slack), run)) ==>
            t.now <= t.timeouts[e] + Late(e, slack) + 2 * slack)
  {
    var limit := if Untracked(Start(slack), run) then IAA_WATCHDOG else NUM_EVENTS;
    StartInv(slack, limit);
    RunInv(Start(slack), limit, run);
    var t := Exec(Start(slack), run);
    if e in Pending(t) && e <= limit {
      Timely(t, limit, e);
    }
  }

  // ---- no handler is early ----

  /** The handler of `e` starts with this step. */
  predicate Starts(t: Timer, step: Step, e: nat)
    requires |t.timeouts| == NUM_EVENTS
  {
    step.FuncNext? && Enabled(t, step) && Next(t).func.handling && t.func.e == e
  }

  /** The run enables `e`, and the handler of `e` has not started since. */
  predicate EnabledSince(t: Timer, run: seq<Step>, e: nat)
    requires |t.timeouts| == NUM_EVENTS && Legal(t, run)
    decreases |run|
  {
    run != [] &&
    (EnabledSince(Apply(t, run[0]), run[1..], e)
      || (run[0] == DoEnable(e) && NotStarted(Apply(t, run[0]), run[1..], e)))
  }

  predicate NotStarted(t: Timer, run: seq<Step>, e: nat)
    requires |t.timeouts| == NUM_EVENTS && Legal(t, run)
    decreases |run|
  {
    run == [] || (!Starts(t, run[0], e) && NotStarted(Apply(t, run[0]), run[1..], e))
  }

  /** Time does not run backwards, and a timeout is only ever moved to a later time. */
  lemma {:induction false} TimePasses(t: Timer, run: seq<Step>, e: nat)
    requires |t.timeouts| == NUM_EVENTS && Legal(t, run) && e < NUM_EVENTS && t.timeouts[e] <= t.now + Delay(e)
    ensures var t' := Exec(t, run); t.now <= t'.now && t.timeouts[e] <= t'.timeouts[e] <= t'.now + Delay(e)
    decreases |run|
  {
    if run != [] {
      TimePasses(Apply(t, run[0]), run[1..], e);
    }
  }

  lemma {:induction false} RunSplits(t: Timer, run: seq<Step>, i: nat)
    requires |t.timeouts| == NUM_EVENTS && Legal(t, run) && i <= |run|
    ensures Legal(t, run[..i]) && Legal(Exec(t, run[..i]), run[i..])
      && Exec(Exec(t, run[..i]), run[i..]) == Exec(t, run)
    decreases |run|
  {
    if i == 0 {
      assert run[..0] == [] && run[0..] == run;
    } else {
      assert run[..i][1..] == run[1..][..i - 1] && run[i..] == run[1..][i - 1..] && run[..i][0] == run[0];
      RunSplits(Apply(t, run[0]), run[1..], i - 1);
    }
    hide Enabled, Apply;
  }

  /** What is pending was enabled, and its handler has not started since. */
  lemma {:induction false} PendingEnabled(t: Timer, run: seq<Step>, e: nat)
    requires Inv(t, 0) && Legal(t, run) && e in Pending(Exec(t, run))
    ensures EnabledSince(t, run, e) || (e in Pending(t) && NotStarted(t, run, e))
    decreases |run|
  {
    if run != [] {
      var t' := Apply(t, run[0]);
      StepInv(t, 0, run[0]);
      PendingEnabled(t', run[1..], e);
      if !EnabledSince(t, run, e) {
        BecomesPending(t, run[0], e);
      }
    }
    hide Inv, Apply, Enabled, Pending;
  }

  /** Only enabling makes an event pending, and the start of its handler ends that. */
  lemma BecomesPending(t: Timer, step: Step, e: nat)
    requires Inv(t, 0) && Enabled(t, step) && e in Pending(Apply(t, step)) && step != DoEnable(e)
    ensures e in Pending(t) && !Starts(t, step, e)
  {
  }

  /** Over any run, a handler that starts was enabled since it last started, and every time its event
      was enabled lies at least its delay in the past; also when a handler did it that ran in the same
      call of the timer function. */
  lemma RunNotEarly(slack: nat, run: seq<Step>, e: nat)
    requires Legal(Start(slack), run) && Starts(Exec(Start(slack), run), FuncNext, e)
    ensures EnabledSince(Start(slack), run, e)
    ensures forall i :: 0 <= i < |run| && run[i] == DoEnable(e) ==>
      Legal(Start(slack), run[..i]) && Exec(Start(slack), run[..i]).now + Delay(e) <= Exec(Start(slack), run).now
  {
    var t0, t := Start(slack), Exec(Start(slack), run);
    StartInv(slack, 0);
    RunInv(t0, 0, run);
    PendingEnabled(t0, run, e);
    hide Inv;
    forall i | 0 <= i < |run| && run[i] == DoEnable(e)
      ensures Legal(t0, run[..i]) && Exec(t0, run[..i]).now + Delay(e) <= t.now
    {
      RunSplits(t0, run, i);
      TimePasses(Apply(Exec(t0, run[..i]), run[i]), run[i..][1..], e);
    }
  }

  /** In a step of the run the handler of `e` starts, or its event is cleared. */
  predicate Settled(t: Timer, run: seq<Step>, e: nat)
    requires |t.timeouts| == NUM_EVENTS && Legal(t, run)
    decreases |run|
  {
    run != [] &&
    (Starts(t, run[0], e) || run[0] == DoClear(e) || (run[0] == DoStopWatchdog && e == IAA_WATCHDOG)
      || Settled(Apply(t, run[0]), run[1..], e))
  }

  lemma {:induction false} PendingSettled(t: Timer, run: seq<Step>, e: nat)
    requires Inv(t, 0) && Legal(t, run) && e in Pending(t)
    ensures e in Pending(Exec(t, run)) || Settled(t, run, e)
    decreases |run|
  {
    if run != [] {
      StepInv(t, 0, run[0]);
      NotForgotten(t, 0, run[0], e);
      if e in Pending(Apply(t, run[0])) {
        PendingSettled(Apply(t, run[0]), run[1..], e);
      }
    }
    hide Inv, Apply, Pending, Tracked;
  }

  /** From any state of any run on: an event that is enabled now is pending, with its delay still to come,
      until its handler starts or it is cleared. */
  lemma RunHandled(slack: nat, before: seq<Step>, e: nat, run: seq<Step>)
    requires Legal(Start(slack), before) && Enabled(Exec(Start(slack), before), DoEnable(e))
    requires Legal(Apply(Exec(Start(slack), before), DoEnable(e)), run)
    ensures var t := Apply(Exec(Start(slack), before), DoEnable(e));
      && e in t.enabled && t.timeouts[e] == t.now + Delay(e)
      && (e in Pending(Exec(t, run)) || Settled(t, run, e))
  {
    StartInv(slack, 0);
    RunInv(Start(slack), 0, before);
    StepInv(Exec(Start(slack), before), 0, DoEnable(e));
    PendingSettled(Apply(Exec(Start(slack), before), DoEnable(e)), run, e);
    hide Inv, Legal, Exec, Settled;
  }

  lemma {:induction false} RunsJoin(t: Timer, a: seq<Step>, b: seq<Step>)
    requires |t.timeouts| == NUM_EVENTS && Legal(t, a) && Legal(Exec(t, a), b)
    ensures Legal(t, a + b) && Exec(t, a + b) == Exec(Exec(t, a), b)
    decreases |a|
  {
    if a == [] {
      assert a + b == b;
    } else {
      assert (a + b)[1..] == a[1..] + b;
      RunsJoin(Apply(t, a[0]), a[1..], b);
    }
  }

  lemma OneStep(t: Timer, step: Step)
    requires |t.timeouts| == NUM_EVENTS && Enabled(t, step)
    ensures Legal(t, [step]) && Exec(t, [step]) == Apply(t, step)
  {
    assert [step][1..] == [];
  }

  /** What can happen while a handler has dropped the lock. */
  predicate InHandlers(step: Step)
  {
    step.DoEnable? || step.DoStopWatchdog? || step.DoClear? || step.Die? || step.Tick?
  }

  predicate AllInHandlers(work: seq<Step>)
  {
    forall step :: step in work ==> InHandlers(step)
  }

  /** The driver's side, in place. */
  class HcdTimer {
    var enabledEvents: set<nat>
    var hrTimeouts: array<int>
    var nextEvent: nat
    var armed: bool
    var expiry: int
    var now: int
    const slack: nat
    var running: bool
    var func: Func

    ghost predicate Valid()
      reads this
    {
      hrTimeouts.Length == NUM_EVENTS
    }

    ghost function View(): (t: Timer)
      requires Valid()
      reads this, hrTimeouts
      ensures |t.timeouts| == NUM_EVENTS
    {
      Timer(enabledEvents, hrTimeouts[..], nextEvent, armed, expiry, now, slack, running, func)
    }

    constructor (slack: nat)
      ensures Valid() && fresh(hrTimeouts) && View() == Start(slack)
    {
      enabledEvents, nextEvent, armed, expiry, now, running, func := {}, NO_EVENT, false, 0, 0, true, Asleep;
      hrTimeouts := new int[NUM_EVENTS](_ => 0);
      this.slack := slack;
    }

    /** rh_state allows the event. */
    predicate Possible(event: nat)
      reads this`running
    {
      event < NUM_EVENTS && (event < POLL_DEAD ==> running) && (event == POLL_DEAD ==> !running)
    }

    /** Enable an event, with a new timeout or, in the timer function, with the one it has and that has
        not come yet.  Either way the timer is then set for it or for a lower one, and no pending event
        waits for longer than it should. */
    method EnableEvent(event: nat, resched: bool)
      requires Valid() && event < NUM_EVENTS
      requires if resched then May(View(), event)
        else func.Running? && event in func.events && func.start < hrTimeouts[event]
      modifies this, hrTimeouts
      ensures Valid() && hrTimeouts == old(hrTimeouts) && View() == Enable(old(View()), event, resched)
      ensures forall limit: nat :: Inv(old(View()), limit) ==> Inv(View(), limit) && armed && nextEvent <= event
      ensures enabledEvents == old(enabledEvents) + {event} && now == old(now) && func == old(func)
      ensures hrTimeouts[event] == if resched then now + Delay(event) else old(hrTimeouts[event])
      ensures forall e :: 0 <= e < NUM_EVENTS && e != event ==> hrTimeouts[e] == old(hrTimeouts[e])
      ensures event < old(nextEvent) ==> nextEvent == event && armed && expiry == hrTimeouts[event]
      ensures event >= old(nextEvent) ==> nextEvent == old(nextEvent) && armed == old(armed) && expiry == old(expiry)
    {
      ghost var t := View();
      if resched {
        hrTimeouts[event] := now + Delay(event);
      }
      enabledEvents := enabledEvents + {event};
      // only the lowest event is tracked
      if event < nextEvent {
        nextEvent := event;
        armed, expiry := true, hrTimeouts[event];
      }
      assert View() == Enable(t, event, resched);
      forall limit: nat | Inv(t, limit)
        ensures Inv(View(), limit) && armed && nextEvent <= event
      {
        EnabledInv(t, limit, event, resched);
      }
    }

    /** One step of what happens while the lock is dropped, if it can happen now. */
    method Elsewhere(step: Step) returns (ghost run: seq<Step>)
      requires Valid() && InHandlers(step)
      modifies this, hrTimeouts
      ensures Valid() && hrTimeouts == old(hrTimeouts) && func == old(func)
      ensures Legal(old(View()), run) && View() == Exec(old(View()), run)
    {
      run := [];
      if step.DoEnable? && Possible(step.e) {
        run := [step];
        EnableEvent(step.e, true);
      } else if step.DoStopWatchdog? {
        run := [step];
        enabledEvents := enabledEvents - {IAA_WATCHDOG};
        if nextEvent == IAA_WATCHDOG {
          nextEvent := nextEvent + 1;
        }
      } else if step.DoClear? && (step.e == DISABLE_PERIODIC || step.e == DISABLE_ASYNC) {
        run := [step];
        enabledEvents := enabledEvents - {step.e};
      } else if step.Die? {
        run := [step];
        running := false;
      } else if step.Tick? && (armed ==> now + step.dt <= expiry + slack)
        && (func.Running? ==> now + step.dt <= func.start + slack) {
        run := [step];
        now := now + step.dt;
      }
      assert run != [] ==> run[1..] == [] && Legal(old(View()), run);
    }

    /** A handler: whatever steps other parts of the driver take meanwhile. */
    method Handle(work: seq<Step>) returns (ghost run: seq<Step>)
      requires Valid() && AllInHandlers(work)
      modifies this, hrTimeouts
      ensures Valid() && hrTimeouts == old(hrTimeouts) && func == old(func)
      ensures Legal(old(View()), run) && View() == Exec(old(View()), run)
    {
      run := [];
      for i := 0 to |work|
        invariant Valid() && hrTimeouts == old(hrTimeouts) && func == old(func)
        invariant Legal(old(View()), run) && View() == Exec(old(View()), run)
      {
        ghost var more := Elsewhere(work[i]);
        RunsJoin(old(View()), run, more);
        run := run + more;
      }
    }

    /** One look at event `e`, with its handler if it is due. */
    method LookAt(e: nat, work: seq<Step>) returns (ghost run: seq<Step>)
      requires Valid() && e < NUM_EVENTS && func.Running? && func.e == e && !func.handling
      requires AllInHandlers(work)
      modifies this, hrTimeouts
      ensures Valid() && hrTimeouts == old(hrTimeouts) && func == old(func).(e := e + 1)
      ensures Legal(old(View()), run) && View() == Exec(old(View()), run)
    {
      ghost var t := View();
      run := [FuncNext];
      assert run[1..] == [] && Legal(t, run);
      if e !in func.events {
        func := func.(e := e + 1);
      } else if hrTimeouts[e] <= func.start {
        func := func.(handling := true);
        ghost var inside := Handle(work);
        RunsJoin(t, run, inside);
        ghost var end := [HandlerEnd];
        assert end[1..] == [] && Legal(View(), end);
        RunsJoin(t, run + inside, end);
        run := run + inside + end;
        func := func.(e := e + 1, handling := false);
      } else {
        EnableEvent(e, false);
        func := func.(e := e + 1);
      }
    }

    /** The timer function: check each event found pending, handle it if its time has come, otherwise
        enable it again.  Together with what its handlers let happen it is a run of the system. */
    method HrtimerFunc(work: seq<seq<Step>>) returns (ghost run: seq<Step>)
      requires Valid() && func.Asleep? && armed && expiry <= now && |work| == NUM_EVENTS
      requires forall e :: 0 <= e < NUM_EVENTS ==> AllInHandlers(work[e])
      modifies this, hrTimeouts
      ensures Valid() && hrTimeouts == old(hrTimeouts) && func == Asleep
      ensures Legal(old(View()), run) && View() == Exec(old(View()), run)
    {
      ghost var t := View();
      func := Running(enabledEvents, now, 0, false);
      enabledEvents := {};
      nextEvent := NO_EVENT;
      armed := false;
      run := [FuncBegin];
      assert run[1..] == [] && Legal(t, run);
      for e := 0 to NUM_EVENTS
        invariant Valid() && hrTimeouts == old(hrTimeouts) && func.Running? && func.e == e && !func.handling
        invariant Legal(t, run) && View() == Exec(t, run)
      {
        ghost var more := LookAt(e, work[e]);
        RunsJoin(t, run, more);
        run := run + more;
      }
      ghost var end := [FuncEnd];
      assert end[1..] == [] && Legal(View(), end);
      RunsJoin(t, run, end);
      run := run + end;
      func := Asleep;
    }
  }
}
