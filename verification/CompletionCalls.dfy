/** What a call leaves behind: whatever is still queued of what it found was active when the call looked at
    it, and an idle queue head is rid of every cancelled request. */
module CompletionCalls {
  import opened Wrappers
  import opened QtdCompletion
  import opened CompletionSafety
  import opened CompletionRuns

  /** What the pass has skipped is active, and not cancelled unless another look is called for; the queue
      has stopped, the root hub runs. */
  predicate SkippedActive(s: State)
  {
    s.l.kept != [] ==>
      && s.c.stopped && s.c.running
      && forall i :: 0 <= i < |s.l.kept| ==> SkippedAt(s, s.l.kept[i])
  }

  predicate SkippedAt(s: State, td: Td)
  {
    TokenOf(s.hw, td.id).active && (td.urb !in s.rq.unlinked || s.c.needsRescan)
  }

  /** A pass that ends before its last entry ends at one of a queue that has not stopped. */
  predicate EndedEarly(s: State)
  {
    s.c.pc == Ended && s.l.todo != [] ==> s.c.running && !s.c.stopped && s.l.last.None? && s.l.kept == []
  }

  /** The queue of an idle queue head has stopped from the start, so its passes go all the way. */
  predicate IdleStopped(s: State)
  {
    s.c.pc != Outside && s.c.idle ==> s.c.stopped && (s.c.pc != Loop ==> s.l.todo == [])
  }

  ghost predicate Cleared(s: State)
  {
    SkippedActive(s) && EndedEarly(s) && IdleStopped(s)
  }

  lemma VisitCleared(s: State)
    requires Struct(s) && Enabled(s, DoVisit) && Cleared(s)
    ensures Cleared(Visit(s))
  {
    hide Struct, Judge, Visit, Retry, Whole, TokenOf, Patch, Collect;
    var td, s' := s.l.todo[0], Visit(s);
    VisitWhole(s);
    Verdicts(s, td);
    VisitRest(s);
    KeptTokens(s);
    if Judge(Retry(s, td), td).Take? {
      VisitTake(s);
    } else if Judge(Retry(s, td), td).Skip? {
      VisitSkip(s);
    } else {
      VisitStop(s);
    }
    assert TokenOf(s'.hw, td.id) == TokenOf(Retry(s, td).hw, td.id) by { SameToken(s'.hw, Retry(s, td).hw, td.id); }
  }

  lemma VisitRest(s: State)
    requires Enabled(s, DoVisit)
    ensures Visit(s).c.needsRescan == s.c.needsRescan && (s.c.stopped ==> Visit(s).c.stopped)
  {
    hide Patch, Collect, TokenOf;
  }

  /** A look leaves the tokens of what was skipped alone. */
  lemma KeptTokens(s: State)
    requires Struct(s) && Enabled(s, DoVisit)
    ensures forall i :: 0 <= i < |s.l.kept| ==> TokenOf(Visit(s).hw, s.l.kept[i].id) == TokenOf(s.hw, s.l.kept[i].id)
  {
    hide Judge, Visit, Retry, TokenOf, InOrder, Contiguous, GivenOnce, LaterNew, Skipping, Patch, Collect, Shape;
    var td, r, s' := s.l.todo[0], Retry(s, s.l.todo[0]), Visit(s);
    QueueDistinct(s);
    RetryInOrder(s, td);
    if Judge(r, td).Take? {
      VisitTake(s);
    } else if Judge(r, td).Skip? {
      VisitSkip(s);
    } else {
      VisitStop(s);
    }
    var queue := Queue(s.l);
    assert queue[|s.l.kept|] == td;
    forall i | 0 <= i < |s.l.kept|
      ensures TokenOf(s'.hw, s.l.kept[i].id) == TokenOf(s.hw, s.l.kept[i].id)
    {
      assert queue[i] == s.l.kept[i];
      SameToken(s'.hw, r.hw, s.l.kept[i].id);
    }
  }

  lemma SubmitCleared(s: State, r: Request)
    requires Struct(s) && Enabled(s, DoSubmit(r)) && Cleared(s)
    ensures Cleared(Submit(s, r))
  {
    hide Queue, Whole, Contiguous, GivenOnce, LaterNew, InOrder, Skipping, AddTokens, AddLinks, Acceptable;
    var s' := Submit(s, r);
    if s.c.pc != Outside {
      QueueIds(s);
      OldIds(s, r);
      forall i | 0 <= i < |s.l.kept|
        ensures SkippedAt(s', s.l.kept[i])
      {
        assert SkippedAt(s, s.l.kept[i]);
      }
    }
    hide TokenOf;
  }

  /** What the pass has still to look at, and what it has skipped, keeps its tokens. */
  lemma OldIds(s: State, r: Request)
    requires Struct(s) && Enabled(s, DoSubmit(r))
    ensures forall i :: 0 <= i < |s.l.kept| ==>
      TokenOf(Submit(s, r).hw, s.l.kept[i].id) == TokenOf(s.hw, s.l.kept[i].id)
    ensures s.l.todo != [] ==> TokenOf(Submit(s, r).hw, s.l.todo[0].id) == TokenOf(s.hw, s.l.todo[0].id)
  {
    var queue := Queue(s.l);
    QueueIds(s);
    forall i | 0 <= i < |queue|
      ensures TokenOf(Submit(s, r).hw, queue[i].id) == TokenOf(s.hw, queue[i].id)
    {
      NotNew(s, r, queue[i].id);
      AddedTokens(s.hw.token, r.tds, queue[i].id);
    }
    assert forall i :: 0 <= i < |s.l.kept| ==> queue[i] == s.l.kept[i];
    assert s.l.todo != [] ==> queue[|s.l.kept|] == s.l.todo[0];
    hide Queue, Whole, Contiguous, GivenOnce, LaterNew, InOrder, Skipping, AddTokens, AddLinks, Acceptable, TokenOf;
  }

  lemma OtherCleared(s: State, step: Step)
    requires Struct(s) && Enabled(s, step) && !step.DoVisit? && !step.DoSubmit? && Cleared(s)
    ensures Cleared(Apply(s, step))
  {
    hide Ids, Contiguous, GivenOnce, LaterNew, InOrder, Skipping, HasUrb, Whole, Queue;
  }

  /** Every step keeps it. */
  lemma StepCleared(s: State, step: Step)
    requires Struct(s) && Enabled(s, step) && Cleared(s)
    ensures Cleared(Apply(s, step))
  {
    hide Struct, Cleared;
    if step.DoVisit? {
      VisitCleared(s);
    } else if step.DoSubmit? {
      SubmitCleared(s, step.r);
    } else {
      OtherCleared(s, step);
    }
  }

  lemma {:induction false} RunCleared(s: State, run: seq<Step>)
    requires Inv(s) && Legal(s, run) && Cleared(s)
    ensures Inv(Exec(s, run)) && Cleared(Exec(s, run))
    decreases |run|
  {
    hide Struct, Chained, Residues, Budget, InPass, Apply, Enabled, Cleared;
    if run != [] {
      StepInv(s, run[0]);
      StepCleared(s, run[0]);
      RunCleared(Apply(s, run[0]), run[1..]);
    }
  }

  /** Over any run.  When a pass ends, every entry it skipped is active; it stops early only at an active
      entry of a queue that has not stopped, with nothing skipped; and when a call for an idle queue head
      returns, what is left of the queue it found is active and not cancelled, with the root hub running:
      nothing finished, failed or cancelled stays behind. */
  lemma CallClears(dummy: nat, run: seq<Step>)
    requires Legal(Empty(dummy), run)
    ensures var s := Exec(Empty(dummy), run);
      && (Enabled(s, DoVisit) && Visit(s).c.pc == Ended ==>
            TokenOf(Visit(s).hw, s.l.todo[0].id).active && s.c.running && !s.c.stopped && !s.c.idle && s.l.kept == [])
      && (Enabled(s, Finish) ==> forall i :: 0 <= i < |s.l.kept| ==> TokenOf(s.hw, s.l.kept[i].id).active)
      && (Enabled(s, Return) && s.c.idle ==>
            && s.l.todo == [] && (s.l.kept != [] ==> s.c.running)
            && forall i :: 0 <= i < |s.l.kept| ==>
                 TokenOf(s.hw, s.l.kept[i].id).active && s.l.kept[i].urb !in s.rq.unlinked)
  {
    hide Struct, Chained, Residues, Budget, InPass, Legal, Exec, TokenOf, Visit;
    EmptyInv(dummy);
    RunCleared(Empty(dummy), run);
    var s := Exec(Empty(dummy), run);
    assert forall i :: 0 <= i < |s.l.kept| ==> SkippedAt(s, s.l.kept[i]);
    if Enabled(s, DoVisit) && Visit(s).c.pc == Ended {
      EndsAt(s);
    }
  }

  /** A look that ends the pass. */
  lemma EndsAt(s: State)
    requires Enabled(s, DoVisit) && Visit(s).c.pc == Ended
    ensures TokenOf(Visit(s).hw, s.l.todo[0].id).active && s.c.running && !s.c.stopped
  {
    hide Judge, Visit, Retry, Patch, Collect, TokenOf;
    var td := s.l.todo[0];
    Verdicts(s, td);
    if Judge(Retry(s, td), td).Take? {
      VisitTake(s);
    } else if Judge(Retry(s, td), td).Skip? {
      VisitSkip(s);
    } else {
      VisitStop(s);
    }
  }
}
