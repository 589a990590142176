/** Faults: how often a transaction error is retried, and what becomes of the rest of a request when one
    of its descriptors has failed. */
module CompletionFaults {
  import opened Wrappers
  import opened QtdCompletion
  import opened CompletionSafety
  import opened CompletionRuns

  // ---- retries ----

  /** The look takes the entry under the cursor off. */
  predicate Takes(s: State)
  {
    s.l.todo != [] && Judge(Retry(s, s.l.todo[0]), s.l.todo[0]).Take?
  }

  predicate TakesOff(s: State, step: Step)
  {
    step.DoVisit? && Takes(s)
  }

  /** The look makes a halted descriptor active again. */
  predicate Retried(s: State, step: Step)
  {
    step.DoVisit? && s.l.todo != [] && Retries(s, s.l.todo[0], TokenOf(s.hw, s.l.todo[0].id))
  }

  /** No descriptor is taken off, and the queue head is not linked again. */
  predicate NoneTaken(s: State, run: seq<Step>)
    requires Legal(s, run)
    decreases |run|
  {
    run == [] || (!TakesOff(s, run[0]) && run[0] != Relink && NoneTaken(Apply(s, run[0]), run[1..]))
  }

  function RetriesIn(s: State, run: seq<Step>): nat
    requires Legal(s, run)
    decreases |run|
  {
    if run == [] then 0 else (if Retried(s, run[0]) then 1 else 0) + RetriesIn(Apply(s, run[0]), run[1..])
  }

  /** When a look retries: at a transaction error with no tries left, of a request that is not cancelled,
      fewer than 31 retries after the last entry was taken off.  Descriptor and overlay are then active
      again with three tries, and otherwise the look changes neither. */
  lemma RetryMeans(s: State)
    requires Enabled(s, DoVisit)
    ensures var td := s.l.todo[0]; var t, hw := TokenOf(s.hw, td.id), Visit(s).hw;
      && (Retried(s, DoVisit) <==>
            !t.active && t.halt && t.xact && t.cerr == 0 && s.c.xacterrs < 31 && td.urb !in s.rq.unlinked)
      && (if Retried(s, DoVisit)
          then TokenOf(hw, td.id) == hw.overlayToken == t.(halt := false, active := true, cerr := 3)
          else TokenOf(hw, td.id) == t && hw.overlayToken == s.hw.overlayToken)
  {
    hide Collect;
  }

  /** What a look does to the counter of transaction errors. */
  lemma VisitXacterrs(s: State)
    requires Enabled(s, DoVisit) && s.c.xacterrs < XACTERR_MAX
    ensures Visit(s).c.xacterrs < XACTERR_MAX
    ensures TakesOff(s, DoVisit) ==> Visit(s).c.xacterrs == 0
    ensures !TakesOff(s, DoVisit) ==> Visit(s).c.xacterrs == s.c.xacterrs + if Retried(s, DoVisit) then 1 else 0
  {
    hide Collect, Patch;
  }

  lemma StepXacterrs(s: State, step: Step)
    requires Enabled(s, step) && s.c.xacterrs < XACTERR_MAX
    ensures var s' := Apply(s, step);
      && s'.c.xacterrs < XACTERR_MAX
      && (!TakesOff(s, step) && step != Relink ==> s'.c.xacterrs == s.c.xacterrs + if Retried(s, step) then 1 else 0)
  {
    hide Visit, Acceptable, Judge, Retry;
    if step.DoVisit? {
      VisitXacterrs(s);
    }
  }

  lemma {:induction false} RetriesFrom(s: State, run: seq<Step>)
    requires Legal(s, run) && s.c.xacterrs < XACTERR_MAX
    ensures Exec(s, run).c.xacterrs < XACTERR_MAX
    ensures NoneTaken(s, run) ==> s.c.xacterrs + RetriesIn(s, run) < XACTERR_MAX
    decreases |run|
  {
    if run != [] {
      StepXacterrs(s, run[0]);
      RetriesFrom(Apply(s, run[0]), run[1..]);
    }
    hide Enabled, Apply, TakesOff, Retried;
  }

  /** From any state of any run on, at most 31 retries are made before a descriptor is taken off or
      the queue head is linked again. */
  lemma RetriesBounded(dummy: nat, before: seq<Step>, run: seq<Step>)
    requires Legal(Empty(dummy), before) && Legal(Exec(Empty(dummy), before), run)
    requires NoneTaken(Exec(Empty(dummy), before), run)
    ensures RetriesIn(Exec(Empty(dummy), before), run) < 32
  {
    RetriesFrom(Empty(dummy), before);
    RetriesFrom(Exec(Empty(dummy), before), run);
    hide Legal, Exec, NoneTaken, RetriesIn;
  }

  // ---- the rest of a request that failed ----

  /** A status other than success means that the queue has stopped. */
  predicate FaultStops(s: State)
  {
    s.c.pc == Loop && s.c.status != InProgress ==> s.c.stopped
  }

  lemma VisitStops(s: State)
    requires Enabled(s, DoVisit) && FaultStops(s)
    ensures FaultStops(Visit(s))
  {
    hide Patch, Retries;
  }

  lemma StepStops(s: State, step: Step)
    requires Enabled(s, step) && FaultStops(s)
    ensures FaultStops(Apply(s, step))
  {
    hide Visit, Acceptable;
    if step.DoVisit? {
      VisitStops(s);
    }
  }

  lemma {:induction false} RunStops(s: State, run: seq<Step>)
    requires Legal(s, run) && FaultStops(s)
    ensures FaultStops(Exec(s, run))
    decreases |run|
  {
    if run != [] {
      StepStops(s, run[0]);
      RunStops(Apply(s, run[0]), run[1..]);
    }
    hide Enabled, Apply, FaultStops;
  }

  /** Inside the loop, behind an entry of request `u` that has failed. */
  predicate Failed(s: State, u: Urb)
  {
    s.c.pc == Loop && !s.c.dropped && s.l.last.Some? && s.l.last.value.urb == u && s.c.status != InProgress
      && s.c.stopped
  }

  /** The next entry of the request is taken off as well, whatever its token says, and neither the status
      nor the credit changes. */
  lemma NextRemoved(s: State, u: Urb)
    requires Failed(s, u) && s.l.todo != [] && s.l.todo[0].urb == u
    ensures var s1 := CleanUp(s); var s2 := Visit(s1);
      && Enabled(s, DoCleanUp) && Enabled(s1, DoVisit) && s1 == Apply(s, DoCleanUp) && s2 == Apply(s1, DoVisit)
      && s2.l == Lists(s.l.kept, Some(s.l.todo[0]), s.l.todo[1..], s.l.later) && Failed(s2, u)
      && s2.rq == s.rq && s2.freed == s.freed + [s.l.last.value.id] && s2.c.running == s.c.running
      && (s2.c.status == s.c.status || (!s.c.running && s2.c.status == Shutdown))
  {
    var s1 := CleanUp(s);
    hide Retries, CountsRetry, CopyStatus, Transferred, Actual;
    assert Judge(Retry(s1, s1.l.todo[0]), s1.l.todo[0]).Take?;
    VisitTake(s1);
    VisitWhole(s1);
  }

  /** The loop over the next `n` entries. */
  function Turns(n: nat): seq<Step>
  {
    if n == 0 then [] else [DoCleanUp, DoVisit] + Turns(n - 1)
  }

  lemma {:induction false} TurnsRemove(s: State, u: Urb, n: nat)
    requires Failed(s, u) && n <= |s.l.todo| && forall i :: 0 <= i < n ==> s.l.todo[i].urb == u
    ensures Legal(s, Turns(n)) && Removed(s, Exec(s, Turns(n)), u, n)
    decreases n
  {
    if n > 0 {
      NextRemoved(s, u);
      var s1 := Apply(s, DoCleanUp);
      var s2 := Apply(s1, DoVisit);
      TurnsRemove(s2, u, n - 1);
      assert Turns(n)[1..] == [DoVisit] + Turns(n - 1) && Turns(n)[1..][1..] == Turns(n - 1);
      assert Legal(s1, Turns(n)[1..]);
    }
    hide Enabled, Apply, Failed;
  }

  /** Between `s` and `s'` the next `n` entries were taken off, and the request kept status and credit. */
  predicate Removed(s: State, s': State, u: Urb, n: nat)
    requires n <= |s.l.todo|
  {
    && s'.l.kept == s.l.kept && s'.l.todo == s.l.todo[n..] && s'.l.later == s.l.later && Failed(s', u)
    && s'.rq == s.rq && |s'.freed| == |s.freed| + n && s'.c.running == s.c.running
    && (s'.c.status == s.c.status || (!s.c.running && s'.c.status == Shutdown))
  }

  /** When a descriptor of request `u` has failed, the same pass takes off all that is left of the
      request, with no giveback in between, and status and credit stay those of the failure. */
  lemma RestRemoved(dummy: nat, before: seq<Step>, u: Urb, n: nat)
    requires Legal(Empty(dummy), before)
    requires var s := Exec(Empty(dummy), before);
      && s.c.pc == Loop && !s.c.dropped && s.l.last.Some? && s.l.last.value.urb == u && s.c.status != InProgress
      && n <= |s.l.todo| && forall i :: 0 <= i < n ==> s.l.todo[i].urb == u
    ensures var s := Exec(Empty(dummy), before);
      Failed(s, u) && Legal(s, Turns(n)) && Removed(s, Exec(s, Turns(n)), u, n)
  {
    RunStops(Empty(dummy), before);
    TurnsRemove(Exec(Empty(dummy), before), u, n);
    hide Legal, Exec, Turns, Removed;
  }

  /** No other step can come in between: the lock is held, and the controller has stopped at the queue. */
  lemma OnlyTurns(s: State, u: Urb, step: Step, next: Step)
    requires Failed(s, u) && s.l.todo != [] && s.l.todo[0].urb == u
    requires Enabled(s, step) && Enabled(Apply(s, step), next)
    ensures step == DoCleanUp && next == DoVisit
  {
  }
}
