/** The order of the givebacks of a whole call, which may make several passes over the queue. */
module CompletionOrder {
  import opened Wrappers
  import opened QtdCompletion
  import opened CompletionSafety
  import opened CompletionRuns

  /** From number `from` on, requests were given back in the order they have in `queue`. */
  ghost predicate OrderedSince(queue: seq<Td>, given: seq<Given>, from: nat)
  {
    forall a, b :: from <= a < b < |given| ==> Before(queue, given[a].urb, given[b].urb)
  }

  /** A request is cancelled that the running pass of an idle queue head has skipped. */
  predicate CancelsSkipped(s: State, step: Step)
  {
    step.Dequeue? && s.c.idle && HasUrb(s.l.kept, step.u)
  }

  /** Some step of the run does. */
  ghost predicate SkippedCancelled(s: State, run: seq<Step>)
    requires Legal(s, run)
    decreases |run|
  {
    run != [] && (CancelsSkipped(s, run[0]) || SkippedCancelled(Apply(s, run[0]), run[1..]))
  }

  /** The steps between the beginning of a call and its return. */
  ghost predicate Inside(run: seq<Step>)
  {
    forall step :: step in run ==> !step.Begin? && !step.Return?
  }

  /** What the pass has skipped lies behind its cursor, and so does the request being given back. */
  predicate Seen(s: State)
  {
    s.c.pc != Outside && |s.l.todo| <= |s.start| ==>
      var v := |s.start| - |s.l.todo|;
      && (forall i :: 0 <= i < |s.l.kept| ==> HasUrb(s.start[..v], s.l.kept[i].urb))
      && (s.c.dropped ==> 0 < v && s.mark < |s.rq.given| && s.start[v - 1].urb == s.rq.given[|s.rq.given| - 1].urb)
  }

  /** An entry that no pass takes off as long as its request is not cancelled. */
  predicate Stays(td: Td, s: State)
  {
    TokenOf(s.hw, td.id).active && td.urb !in s.rq.unlinked && s.c.running
  }

  predicate AllStay(tds: seq<Td>, s: State)
  {
    forall i :: 0 <= i < |tds| ==> Stays(tds[i], s)
  }

  /** A pass over an idle queue head reaches the end of its queue. */
  predicate ToTheEnd(s: State)
  {
    s.c.idle ==> s.c.stopped && (s.c.pc == Ended || s.c.pc == After ==> s.l.todo == [])
  }

  /** The first pass of the call, in which nothing was skipped and then cancelled. */
  predicate First(s: State, queue: seq<Td>, from: nat)
  {
    s.start == queue && s.mark == from && (s.c.idle ==> AllStay(s.l.kept, s))
  }

  /** A later pass that will give nothing back. */
  predicate Later(s: State)
  {
    s.c.idle && AllStay(s.l.kept + s.l.todo, s) && s.l.last.None? && s.c.status == InProgress && !s.c.dropped
  }

  /** A call on `queue`, in which no request was cancelled that had been skipped. */
  ghost predicate Clean(s: State, queue: seq<Td>, from: nat)
  {
    && Inv(s) && s.c.pc != Outside && Seen(s) && ToTheEnd(s)
    && (First(s, queue, from) || (Later(s) && OrderedSince(queue, s.rq.given, from)))
  }

  lemma BeginClean(s: State, idle: bool, running: bool)
    requires Inv(s) && Enabled(s, Begin(idle, running))
    ensures Clean(Apply(s, Begin(idle, running)), Queue(s.l), |s.rq.given|)
  {
    StepInv(s, Begin(idle, running));
    assert Shape(s);
    assert Queue(s.l) == s.l.todo;
    hide Inv;
  }

  lemma CleanOrdered(s: State, queue: seq<Td>, from: nat)
    requires Clean(s, queue, from)
    ensures OrderedSince(queue, s.rq.given, from)
  {
    hide Struct, Chained, Residues, Budget, Before, Contiguous, HasUrb;
  }

  /** What one look does to the lists, and that it drops no lock. */
  lemma VisitKept(s: State)
    requires s.l.todo != [] && s.l.last.None? && s.c.pc == Loop
    ensures var td, s' := s.l.todo[0], Visit(s); var v := Judge(Retry(s, td), td);
      && s'.l.kept == (if v == Skip then s.l.kept + [td] else s.l.kept)
      && s'.l.todo == (if v == Stop then s.l.todo else s.l.todo[1..])
      && s'.l.last == (if v.Take? then Some(td) else None)
      && s'.c.pc == (if v == Stop then Ended else Loop) && (s.c.stopped ==> s'.c.stopped && v != Stop)
      && (v == Skip ==> s'.c.status == s.c.status)
  {
    hide Judge, Retry, Visit, Collect, Patch;
    var td := s.l.todo[0];
    if Judge(Retry(s, td), td).Take? {
      VisitTake(s);
    } else if Judge(Retry(s, td), td).Skip? {
      VisitSkip(s);
    } else {
      VisitStop(s);
      Verdicts(s, td);
    }
  }

  // ---- the cursor ----

  lemma SeenVisit(s: State)
    requires Seen(s) && InPass(s) && Enabled(s, DoVisit)
    ensures Seen(Visit(s))
  {
    hide Judge, Retry, Visit, HasUrb, Contiguous, Before;
    var s', v := Visit(s), |s.start| - |s.l.todo|;
    VisitKept(s);
    VisitWhole(s);
    assert s.start[v] == s.start[v..][0];
    if s'.l.todo != s.l.todo {
      assert s.start[..v + 1] == s.start[..v] + [s.start[v]];
      forall i | 0 <= i < |s'.l.kept|
        ensures HasUrb(s.start[..v + 1], s'.l.kept[i].urb)
      {
        HasUrbJoin(s.start[..v], [s.start[v]], s'.l.kept[i].urb);
        if i == |s.l.kept| {
          OwnUrb(s.start[v]);
        }
      }
    }
  }

  lemma OwnUrb(td: Td)
    ensures HasUrb([td], td.urb)
  {
    assert [td][0].urb == td.urb;
  }

  lemma SeenStep(s: State, step: Step)
    requires Seen(s) && InPass(s) && Enabled(s, step) && s.c.pc != Outside && !step.Return?
    ensures Seen(Apply(s, step))
  {
    hide Judge, Retry, Visit, HasUrb, Contiguous, Before, Acceptable;
    if step.DoVisit? {
      SeenVisit(s);
    }
  }

  lemma EndStep(s: State, step: Step)
    requires ToTheEnd(s) && Enabled(s, step) && s.c.pc != Outside && !step.Return?
    ensures ToTheEnd(Apply(s, step)) && Apply(s, step).c.pc != Outside
  {
    hide Judge, Retry, Visit, Acceptable;
    if step.DoVisit? {
      VisitKept(s);
      VisitWhole(s);
    }
  }

  // ---- what stays ----

  /** Entries stay whatever happens to other entries. */
  lemma StayOn(tds: seq<Td>, s: State, s': State)
    requires AllStay(tds, s) && s'.c.running == s.c.running
    requires forall i :: 0 <= i < |tds| ==> TokenOf(s'.hw, tds[i].id) == TokenOf(s.hw, tds[i].id)
    requires forall i :: 0 <= i < |tds| ==> tds[i].urb in s'.rq.unlinked ==> tds[i].urb in s.rq.unlinked
    ensures AllStay(tds, s')
  {
    forall i | 0 <= i < |tds|
      ensures Stays(tds[i], s')
    {
      assert Stays(tds[i], s);
    }
  }

  /** The tokens of skipped entries do not change under a look at the next one. */
  lemma KeptTokens(s: State)
    requires Struct(s) && Enabled(s, DoVisit)
    ensures forall i :: 0 <= i < |s.l.kept| ==>
      TokenOf(Retry(s, s.l.todo[0]).hw, s.l.kept[i].id) == TokenOf(s.hw, s.l.kept[i].id)
    ensures TokenOf(s.hw, s.l.todo[0].id).active ==> Retry(s, s.l.todo[0]) == s
  {
    QueueDistinct(s);
    RetryInOrder(s, s.l.todo[0]);
    var k := |s.l.kept|;
    assert Queue(s.l)[k] == s.l.todo[0];
    assert forall i :: 0 <= i < k ==> Queue(s.l)[i] == s.l.kept[i];
    hide Retry, TokenOf, InOrder, Ids, Contiguous, GivenOnce, LaterNew, Skipping;
  }

  /** A look at the next entry leaves the skipped ones as they were, and skips only one that stays. */
  lemma StayVisit(s: State)
    requires Struct(s) && Enabled(s, DoVisit) && AllStay(s.l.kept, s)
    ensures AllStay(Visit(s).l.kept, Visit(s))
  {
    hide Judge, Retry, Visit, Struct, Patch, Collect, TokenOf;
    var td, s' := s.l.todo[0], Visit(s);
    KeptTokens(s);
    VisitWhole(s);
    if Judge(Retry(s, td), td).Take? {
      VisitTake(s);
      forall i | 0 <= i < |s.l.kept|
        ensures TokenOf(s'.hw, s.l.kept[i].id) == TokenOf(s.hw, s.l.kept[i].id)
      {
        SameToken(s'.hw, Retry(s, td).hw, s.l.kept[i].id);
      }
      StayOn(s.l.kept, s, s');
    } else if Judge(Retry(s, td), td).Skip? {
      VisitSkip(s);
      Verdicts(s, td);
      StayOn(s.l.kept, s, s');
    } else {
      VisitStop(s);
      StayOn(s.l.kept, s, s');
    }
  }

  lemma StaySubmit(s: State, r: Request)
    requires Struct(s) && Enabled(s, DoSubmit(r)) && AllStay(s.l.kept, s)
    ensures AllStay(s.l.kept, Submit(s, r))
  {
    hide Contiguous, GivenOnce, LaterNew, InOrder, Skipping, Whole, TokenOf, AllStay;
    QueueIds(s);
    forall i | 0 <= i < |s.l.kept|
      ensures TokenOf(Submit(s, r).hw, s.l.kept[i].id) == TokenOf(s.hw, s.l.kept[i].id)
    {
      assert Queue(s.l)[i] == s.l.kept[i];
      NotNew(s, r, s.l.kept[i].id);
      SubmittedToken(s, r, s.l.kept[i].id);
    }
    StayOn(s.l.kept, s, Submit(s, r));
  }

  lemma SubmittedToken(s: State, r: Request, id: nat)
    requires DistinctIds(r.tds) && !HasId(r.tds, id)
    ensures TokenOf(Submit(s, r).hw, id) == TokenOf(s.hw, id)
  {
    AddedTokens(s.hw.token, r.tds, id);
    hide HasId, AddTokens, AddLinks;
  }

  lemma FirstStep(s: State, step: Step, queue: seq<Td>, from: nat)
    requires Struct(s) && First(s, queue, from) && Enabled(s, step) && s.c.pc != Outside
    requires !step.Begin? && !step.Return? && !step.Rescan? && !CancelsSkipped(s, step)
    ensures First(Apply(s, step), queue, from)
  {
    hide Struct, Visit, Submit, TokenOf;
    var s' := Apply(s, step);
    if step.DoVisit? {
      VisitWhole(s);
      if s.c.idle {
        StayVisit(s);
      }
    } else if step.DoSubmit? {
      assert s'.c == s.c && s'.start == s.start && s'.mark == s.mark
        && s'.l.kept == s.l.kept by { SubmitQuiet(s, step.r); }
      if s.c.idle {
        StaySubmit(s, step.r);
      }
    } else if s.c.idle {
      assert s'.l.kept == s.l.kept && s'.hw == s.hw;
      forall i | 0 <= i < |s.l.kept|
        ensures s.l.kept[i].urb in s'.rq.unlinked ==> s.l.kept[i].urb in s.rq.unlinked
      {
      }
      StayOn(s.l.kept, s, s');
    }
  }

  lemma SubmitQuiet(s: State, r: Request)
    requires s.c.pc != Outside
    ensures var s' := Submit(s, r);
      && s'.c == s.c && s'.start == s.start && s'.mark == s.mark && s'.l.kept == s.l.kept && s'.l.todo == s.l.todo
      && s'.l.last == s.l.last && s'.rq.given == s.rq.given && s'.rq.unlinked == s.rq.unlinked
  {
  }

  /** A pass over entries that stay skips the next one as well. */
  lemma LaterVisit(s: State)
    requires Struct(s) && Enabled(s, DoVisit) && Later(s) && s.c.stopped
    ensures Later(Visit(s)) && Visit(s).rq.given == s.rq.given
  {
    var td, s' := s.l.todo[0], Visit(s);
    assert (s.l.kept + s.l.todo)[|s.l.kept|] == td;
    assert Stays(td, s);
    KeptTokens(s);
    assert Judge(Retry(s, td), td) == Skip;
    hide Judge, Retry, Visit, Struct, TokenOf;
    VisitSkip(s);
    VisitKept(s);
    VisitWhole(s);
    assert s'.l.kept + s'.l.todo == s.l.kept + s.l.todo;
    StayOn(s.l.kept + s.l.todo, s, s');
  }

  lemma LaterStep(s: State, step: Step)
    requires Struct(s) && Later(s) && ToTheEnd(s) && Enabled(s, step) && s.c.pc != Outside && !step.Begin?
      && !step.Return?
    ensures Later(Apply(s, step)) && Apply(s, step).rq.given == s.rq.given
  {
    hide Struct, Visit, TokenOf;
    if step.DoVisit? {
      LaterVisit(s);
    } else if step.Rescan? {
      assert [] + (s.l.kept + s.l.todo) == s.l.kept + s.l.todo;
      StayOn(s.l.kept + s.l.todo, s, Apply(s, step));
    }
  }

  /** A second pass over what the first one skipped. */
  lemma RescanClean(s: State, queue: seq<Td>, from: nat)
    requires Inv(s) && First(s, queue, from) && ToTheEnd(s) && Enabled(s, Rescan)
    ensures Later(Apply(s, Rescan)) && OrderedSince(queue, Apply(s, Rescan).rq.given, from)
  {
    hide Struct, Chained, Residues, Budget, Before, Contiguous, HasUrb, TokenOf;
    var s' := Apply(s, Rescan);
    assert s'.l.kept + s'.l.todo == s.l.kept;
    StayOn(s.l.kept, s, s');
  }

  lemma StepClean(s: State, step: Step, queue: seq<Td>, from: nat)
    requires Clean(s, queue, from) && Enabled(s, step) && !CancelsSkipped(s, step) && !step.Begin? && !step.Return?
    ensures Clean(Apply(s, step), queue, from)
  {
    StepInv(s, step);
    hide Apply, Enabled, Struct, Chained, Residues, Budget, CancelsSkipped, OrderedSince;
    SeenStep(s, step);
    EndStep(s, step);
    if First(s, queue, from) {
      if step.Rescan? {
        RescanClean(s, queue, from);
      } else {
        FirstStep(s, step, queue, from);
      }
    } else {
      LaterStep(s, step);
    }
    hide Seen, ToTheEnd, First, Later;
  }

  // ---- a skipped request that was cancelled ----

  /** Request `u` of an idle queue head was cancelled when `n` requests had been given back, it not among
      them: another pass will take what was skipped of it. */
  predicate Doomed(s: State, u: Urb, n: nat)
  {
    && s.c.pc != Outside && s.c.idle && u in s.rq.unlinked && u in s.rq.total && !HasUrb(s.l.later, u)
    && n <= |s.rq.given| && (forall i :: 0 <= i < n ==> s.rq.given[i].urb != u)
    && (HasUrb(s.l.kept, u) ==> s.c.needsRescan)
  }

  /** Givebacks are only added. */
  lemma GivenGrows(s: State, step: Step)
    requires Enabled(s, step)
    ensures |s.rq.given| <= |Apply(s, step).rq.given| && Apply(s, step).rq.given[..|s.rq.given|] == s.rq.given
    ensures Apply(s, step).rq.unlinked >= s.rq.unlinked && Apply(s, step).rq.total.Keys >= s.rq.total.Keys
  {
    hide Visit, Acceptable, Judge, Retry;
    if step.DoVisit? {
      VisitWhole(s);
    }
  }

  lemma DoomedVisit(s: State, u: Urb, n: nat)
    requires Doomed(s, u, n) && ToTheEnd(s) && Enabled(s, DoVisit)
    ensures Doomed(Visit(s), u, n)
  {
    hide Visit, Judge, Retry, HasUrb;
    var td, s' := s.l.todo[0], Visit(s);
    VisitKept(s);
    VisitWhole(s);
    Verdicts(s, td);
    if Judge(Retry(s, td), td).Skip? {
      HasUrbJoin(s.l.kept, [td], u);
      NotOwnUrb(td, u);
    }
    assert s'.c.needsRescan == s.c.needsRescan by { VisitRescan(s); }
  }

  lemma NotOwnUrb(td: Td, u: Urb)
    requires td.urb != u
    ensures !HasUrb([td], u)
  {
  }

  lemma VisitRescan(s: State)
    requires s.l.todo != []
    ensures Visit(s).c.needsRescan == s.c.needsRescan
  {
    hide Judge, CopyStatus, Transferred, Actual, TokenOf, LinkOf;
    RetryQuiet(s, s.l.todo[0]);
  }

  lemma StepDoomed(s: State, step: Step, u: Urb, n: nat)
    requires Doomed(s, u, n) && ToTheEnd(s) && Enabled(s, step) && !step.Begin? && !step.Return?
    ensures Doomed(Apply(s, step), u, n)
  {
    hide Visit, HasUrb, Judge, Retry;
    GivenGrows(s, step);
    var s' := Apply(s, step);
    assert forall i :: 0 <= i < n ==> s'.rq.given[i] == s'.rq.given[..|s.rq.given|][i];
    if step.DoVisit? {
      DoomedVisit(s, u, n);
    } else if step.DoSubmit? {
      SubmitQuiet(s, step.r);
      HasUrbJoin(s.l.later, step.r.tds, u);
      OnlyUrb(step.r, u, s);
    } else if step.Rescan? {
      assert !HasUrb([], u) by { NoUrbs(u); }
    }
  }

  lemma NoUrbs(u: Urb)
    ensures !HasUrb([], u)
  {
  }

  /** When the call returns the request has been given back, after the others. */
  lemma DoomedGiven(s: State, u: Urb, n: nat)
    requires Inv(s) && Doomed(s, u, n) && ToTheEnd(s) && Enabled(s, Return)
    ensures exists b :: n <= b < |s.rq.given| && s.rq.given[b].urb == u
  {
    assert Shape(s) && GivenOnce(s);
    assert Whole(s.l) == s.l.kept + s.l.later;
    HasUrbJoin(s.l.kept, s.l.later, u);
    assert IsGiven(s.rq, u);
    var b :| 0 <= b < |s.rq.given| && s.rq.given[b].urb == u;
    assert n <= b;
  }

  lemma DoomedInside(s: State, u: Urb, n: nat)
    requires Doomed(s, u, n)
    ensures s.c.pc != Outside
  {
  }

  lemma {:induction false} DoomedRun(s: State, run: seq<Step>, u: Urb, n: nat)
    requires Inv(s) && Doomed(s, u, n) && ToTheEnd(s) && Legal(s, run) && Inside(run) && Enabled(Exec(s, run), Return)
    ensures var given := Exec(s, run).rq.given;
      && |given| >= |s.rq.given| && given[..|s.rq.given|] == s.rq.given
      && exists b :: n <= b < |given| && given[b].urb == u
    decreases |run|
  {
    hide Inv, Apply, Enabled, Doomed, ToTheEnd;
    if run == [] {
      DoomedGiven(s, u, n);
    } else {
      var step, s' := run[0], Apply(s, run[0]);
      assert step in run && forall x :: x in run[1..] ==> x in run;
      StepInv(s, step);
      StepDoomed(s, step, u, n);
      assert s.c.pc != Outside by { DoomedInside(s, u, n); }
      EndStep(s, step);
      GivenGrows(s, step);
      DoomedRun(s', run[1..], u, n);
      var given := Exec(s', run[1..]).rq.given;
      assert given[..|s.rq.given|] == given[..|s'.rq.given|][..|s.rq.given|];
    }
  }

  /** A request that is cancelled after it was skipped stands in the queue before the one that is being
      given back. */
  lemma SkippedBefore(s: State, queue: seq<Td>, from: nat, u: Urb)
    requires Clean(s, queue, from) && Enabled(s, Dequeue(u)) && CancelsSkipped(s, Dequeue(u))
    ensures from < |s.rq.given| && !Before(queue, s.rq.given[|s.rq.given| - 1].urb, u)
    ensures Doomed(Apply(s, Dequeue(u)), u, |s.rq.given|)
  {
    assert InPass(s) && First(s, queue, from) && s.c.dropped && Struct(s);
    hide Struct, Chained, Residues, Budget, InPass;
    CursorPast(s, u);
    hide Seen, Before;
    var i :| 0 <= i < |s.l.kept| && s.l.kept[i].urb == u;
    SkippedNew(s, u, i);
    hide HasUrb, Queue, AllStay;
  }

  lemma CursorPast(s: State, u: Urb)
    requires Seen(s) && InPass(s) && s.c.pc != Outside && s.c.dropped && HasUrb(s.l.kept, u)
    ensures s.mark < |s.rq.given| && !Before(s.start, s.rq.given[|s.rq.given| - 1].urb, u)
  {
    hide GivenInOrder, Contiguous;
    var v, w := |s.start| - |s.l.todo|, s.rq.given[|s.rq.given| - 1].urb;
    var i :| 0 <= i < |s.l.kept| && s.l.kept[i].urb == u;
    var x :| 0 <= x < v && s.start[..v][x].urb == u;
    assert s.start[x].urb == u && s.start[v - 1].urb == w && x <= v - 1;
  }

  /** It has not been given back, and it is none of those queued since the call began. */
  lemma SkippedNew(s: State, u: Urb, i: nat)
    requires Struct(s) && i < |s.l.kept| && s.l.kept[i].urb == u
    ensures u in s.rq.total && !HasUrb(s.l.later, u) && forall k :: 0 <= k < |s.rq.given| ==> s.rq.given[k].urb != u
  {
    assert Whole(s.l)[i] == s.l.kept[i];
    assert (s.l.kept + Seq(s.l.last) + s.l.todo)[i] == s.l.kept[i];
    assert HasUrb(Whole(s.l), u);
    hide Whole, Ids, Shape, InOrder, Contiguous, Skipping;
  }

  /** From then on the call is bound to give it back, too late. */
  lemma CancelDooms(s: State, queue: seq<Td>, from: nat, u: Urb)
    requires Clean(s, queue, from) && Enabled(s, Dequeue(u)) && CancelsSkipped(s, Dequeue(u))
    ensures var s', n := Apply(s, Dequeue(u)), |s.rq.given|;
      && Inv(s') && Doomed(s', u, n) && ToTheEnd(s') && s'.rq.given == s.rq.given
      && from < n && !Before(queue, s.rq.given[n - 1].urb, u)
  {
    hide Inv, Doomed, Before, First, Later, Seen, HasUrb;
    SkippedBefore(s, queue, from, u);
    StepInv(s, Dequeue(u));
    EndStep(s, Dequeue(u));
  }

  lemma Disorders(s: State, run: seq<Step>, queue: seq<Td>, from: nat, u: Urb)
    requires Clean(s, queue, from) && Enabled(s, Dequeue(u)) && CancelsSkipped(s, Dequeue(u))
    requires var s' := Apply(s, Dequeue(u)); Legal(s', run) && Inside(run) && Enabled(Exec(s', run), Return)
    ensures !OrderedSince(queue, Exec(Apply(s, Dequeue(u)), run).rq.given, from)
  {
    hide Apply, Enabled, Clean, Inv, Doomed, ToTheEnd, Before, CancelsSkipped, Legal, Exec, Inside;
    var n, s' := |s.rq.given|, Apply(s, Dequeue(u));
    CancelDooms(s, queue, from, u);
    DoomedRun(s', run, u, n);
    var given := Exec(s', run).rq.given;
    var b :| n <= b < |given| && given[b].urb == u;
    assert given[n - 1] == given[..n][n - 1];
    assert !Before(queue, given[n - 1].urb, given[b].urb);
  }

  lemma {:induction false} OrderFrom(s: State, run: seq<Step>, queue: seq<Td>, from: nat)
    requires Clean(s, queue, from) && Legal(s, run) && Inside(run) && Enabled(Exec(s, run), Return)
    ensures OrderedSince(queue, Exec(s, run).rq.given, from) <==> !SkippedCancelled(s, run)
    decreases |run|
  {
    if run == [] {
      CleanOrdered(s, queue, from);
    } else {
      assert run[0] in run && forall x :: x in run[1..] ==> x in run;
      if CancelsSkipped(s, run[0]) {
        Disorders(s, run[1..], queue, from, run[0].u);
      } else {
        StepClean(s, run[0], queue, from);
        OrderFrom(Apply(s, run[0]), run[1..], queue, from);
      }
    }
    hide Clean, Apply, Enabled, OrderedSince, CancelsSkipped;
  }

  /** A call gives requests back in the order of the queue it found, if and only if, of an idle queue
      head, no request is cancelled during a giveback that the pass has skipped before. */
  lemma OrderIff(dummy: nat, before: seq<Step>, idle: bool, running: bool, run: seq<Step>)
    requires Legal(Empty(dummy), before) && Enabled(Exec(Empty(dummy), before), Begin(idle, running))
    requires var s := Apply(Exec(Empty(dummy), before), Begin(idle, running));
      Legal(s, run) && Inside(run) && Enabled(Exec(s, run), Return)
    ensures var s0 := Exec(Empty(dummy), before); var s := Apply(s0, Begin(idle, running));
      OrderedSince(Queue(s0.l), Exec(s, run).rq.given, |s0.rq.given|) <==> !SkippedCancelled(s, run)
  {
    hide Enabled, Apply, OrderedSince;
    EmptyInv(dummy);
    RunInv(Empty(dummy), before);
    var s0 := Exec(Empty(dummy), before);
    BeginClean(s0, idle, running);
    hide Inv, Clean, Queue;
    OrderFrom(Apply(s0, Begin(idle, running)), run, Queue(s0.l), |s0.rq.given|);
  }
}
