/** Runs of completions: the hardware chain, the bytes credited, and the order of givebacks. */
module CompletionRuns {
  import opened Wrappers
  import opened QtdCompletion
  import opened CompletionSafety

  // ---- the hardware chain ----

  /** Each descriptor's link leads to the next one in the queue, the last one's to the dummy. */
  predicate Chained(queue: seq<Td>, hw: Hw)
  {
    forall i :: 0 <= i < |queue| ==> LinkOf(hw, queue[i].id) == NextId(queue, i, hw.dummy)
  }

  function NextId(queue: seq<Td>, i: nat, dummy: nat): nat
    requires i < |queue|
  {
    if i + 1 < |queue| then queue[i + 1].id else dummy
  }

  lemma SameLinks(queue: seq<Td>, hw: Hw, hw': Hw)
    requires Chained(queue, hw) && hw'.hwNext == hw.hwNext && hw'.dummy == hw.dummy
    ensures Chained(queue, hw')
  {
  }

  /** The link of entry `i` of the shorter queue. */
  lemma PatchedLink(kept: seq<Td>, td: Td, rest: seq<Td>, hw: Hw, hw': Hw, i: nat)
    requires Chained(kept + [td] + rest, hw) && DistinctIds(kept + [td] + rest) && i < |kept + rest|
      && hw'.dummy == hw.dummy
    requires kept == [] ==> hw'.hwNext == hw.hwNext
    requires kept != [] ==> hw'.hwNext == hw.hwNext[kept[|kept| - 1].id := LinkOf(hw, td.id)]
    ensures LinkOf(hw', (kept + rest)[i].id) == NextId(kept + rest, i, hw'.dummy)
  {
    hide NextId;
    var whole, queue, k := kept + [td] + rest, kept + rest, |kept|;
    var j := if i < k then i else i + 1;
    NextWithout(kept, td, rest, i, hw.dummy);
    assert whole[k] == td && queue[i] == whole[j];
    assert LinkOf(hw, td.id) == NextId(whole, k, hw.dummy) && LinkOf(hw, whole[j].id) == NextId(whole, j, hw.dummy);
    if k > 0 {
      assert whole[k - 1] == kept[k - 1] && (j != k - 1 ==> whole[j].id != whole[k - 1].id);
    }
  }

  lemma NextWithout(kept: seq<Td>, td: Td, rest: seq<Td>, i: nat, dummy: nat)
    requires i < |kept + rest|
    ensures var whole, k := kept + [td] + rest, |kept|;
      NextId(kept + rest, i, dummy) == NextId(whole, if i + 1 == k then k else if i < k then i else i + 1, dummy)
  {
    var whole, k := kept + [td] + rest, |kept|;
    assert forall x :: 0 <= x < |kept + rest| ==> (kept + rest)[x] == whole[if x < k then x else x + 1];
  }

  /** Taking off the head needs no patch; taking off another entry needs exactly one. */
  lemma PatchChained(kept: seq<Td>, td: Td, rest: seq<Td>, hw: Hw, stopped: bool)
    requires Chained(kept + [td] + rest, hw) && DistinctIds(kept + [td] + rest) && (kept != [] ==> stopped)
    ensures Chained(kept + rest, Patch(hw, kept, td, stopped))
  {
    var queue, hw' := kept + rest, Patch(hw, kept, td, stopped);
    forall i | 0 <= i < |queue|
      ensures LinkOf(hw', queue[i].id) == NextId(queue, i, hw'.dummy)
    {
      PatchedLink(kept, td, rest, hw, hw', i);
    }
  }

  lemma VisitChained(s: State)
    requires Struct(s) && Enabled(s, DoVisit) && Chained(Queue(s.l), s.hw)
    ensures Chained(Queue(Visit(s).l), Visit(s).hw)
  {
    hide Judge, Retry, Visit, Collect, Patch, Queue, Chained, DistinctIds, Whole, Contiguous, GivenOnce, LaterNew,
      InOrder;
    var td, s' := s.l.todo[0], Visit(s);
    VisitWhole(s);
    RetryLinks(s, td);
    if Judge(Retry(s, td), td).Take? {
      var rest := s.l.todo[1..] + s.l.later;
      VisitTake(s);
      QueueSplit(s, s');
      QueueDistinct(s);
      KeptStopped(s);
      PatchChained(s.l.kept, td, rest, Retry(s, td).hw, s'.c.stopped);
      PatchDummy(Retry(s, td).hw, s.l.kept, td, s'.c.stopped);
    } else if Judge(Retry(s, td), td).Skip? {
      VisitSkip(s);
      QueueSkipped(s, s');
    } else {
      VisitStop(s);
    }
  }

  lemma RetryLinks(s: State, td: Td)
    requires Chained(Queue(s.l), s.hw)
    ensures Chained(Queue(s.l), Retry(s, td).hw)
  {
    SameLinks(Queue(s.l), s.hw, Retry(s, td).hw);
    hide Chained;
  }

  lemma QueueSplit(s: State, s': State)
    requires s.l.todo != [] && s'.l.kept == s.l.kept && s'.l.todo == s.l.todo[1..] && s'.l.later == s.l.later
    ensures var rest := s.l.todo[1..] + s.l.later;
      Queue(s.l) == s.l.kept + [s.l.todo[0]] + rest && Queue(s'.l) == s.l.kept + rest
  {
  }

  lemma QueueSkipped(s: State, s': State)
    requires s.l.todo != [] && s'.l.kept == s.l.kept + [s.l.todo[0]] && s'.l.todo == s.l.todo[1..]
      && s'.l.later == s.l.later
    ensures Queue(s'.l) == Queue(s.l)
  {
  }

  lemma PatchDummy(hw: Hw, kept: seq<Td>, td: Td, stopped: bool)
    ensures Patch(hw, kept, td, stopped).dummy == hw.dummy
  {
  }

  lemma KeptStopped(s: State)
    requires Struct(s)
    ensures s.l.kept != [] ==> s.c.stopped
  {
  }

  lemma {:induction false} AddedLinks(hwNext: map<nat, nat>, tds: seq<Td>, dummy: nat, id: nat)
    requires DistinctIds(tds)
    ensures var hwNext' := AddLinks(hwNext, tds, dummy);
      && (!HasId(tds, id) ==> (id in hwNext' <==> id in hwNext) && (id in hwNext ==> hwNext'[id] == hwNext[id]))
      && (forall i :: 0 <= i < |tds| && tds[i].id == id ==> id in hwNext' && hwNext'[id] == NextId(tds, i, dummy))
    decreases |tds|
  {
    if tds != [] {
      assert forall i :: 0 <= i < |tds| - 1 ==> tds[1..][i] == tds[i + 1];
      AddedLinks(hwNext[tds[0].id := if |tds| > 1 then tds[1].id else dummy], tds[1..], dummy, id);
      if HasId(tds[1..], id) {
        var i :| 0 <= i < |tds| - 1 && tds[1..][i].id == id;
        assert tds[i + 1].id == id;
      }
      if tds[0].id == id {
        assert !HasId(tds[1..], id);
      }
    }
  }

  lemma SubmitChained(s: State, r: Request)
    requires Struct(s) && Enabled(s, DoSubmit(r)) && Chained(Queue(s.l), s.hw)
    ensures Chained(Queue(Submit(s, r).l), Submit(s, r).hw)
  {
    hide Queue, Whole, Contiguous, GivenOnce, LaterNew, InOrder, Skipping;
    var queue, s' := Queue(s.l), Submit(s, r);
    SubmitWhole(s, r);
    QueueIds(s);
    forall i | 0 <= i < |queue + r.tds|
      ensures LinkOf(s'.hw, (queue + r.tds)[i].id) == NextId(queue + r.tds, i, r.dummy)
    {
      if i < |queue| {
        assert (queue + r.tds)[i] == queue[i];
        assert LinkOf(s.hw, queue[i].id) == NextId(queue, i, s.hw.dummy);
        NotNew(s, r, queue[i].id);
        AddedLinks(s.hw.hwNext, r.tds, r.dummy, queue[i].id);
      } else {
        assert (queue + r.tds)[i] == r.tds[i - |queue|];
        AddedLinks(s.hw.hwNext, r.tds, r.dummy, r.tds[i - |queue|].id);
      }
    }
  }

  /** Other steps change neither the queue nor its links. */
  lemma SameQueue(s: State, step: Step)
    requires Struct(s) && Enabled(s, step) && !step.DoVisit? && !step.DoSubmit?
    ensures var s' := Apply(s, step);
      Queue(s'.l) == Queue(s.l) && s'.hw.hwNext == s.hw.hwNext && s'.hw.dummy == s.hw.dummy
  {
    hide Ids, Contiguous, GivenOnce, LaterNew, InOrder, Skipping, TokenOf, HasUrb;
  }

  /** Under every step the chain stays the queue. */
  lemma StepChained(s: State, step: Step)
    requires Struct(s) && Enabled(s, step) && Chained(Queue(s.l), s.hw)
    ensures Chained(Queue(Apply(s, step).l), Apply(s, step).hw)
  {
    hide Struct, Chained, Visit, Submit, Queue, Acceptable;
    if step.DoVisit? {
      VisitChained(s);
    } else if step.DoSubmit? {
      SubmitChained(s, step.r);
    } else {
      SameQueue(s, step);
      SameLinks(Queue(s.l), s.hw, Apply(s, step).hw);
    }
  }

  // ---- bytes ----

  lemma {:induction false} BytesJoin(a: seq<Td>, b: seq<Td>, u: Urb)
    ensures Bytes(a + b, u) == Bytes(a, u) + Bytes(b, u)
  {
    if a == [] {
      assert a + b == b;
    } else {
      assert (a + b)[1..] == a[1..] + b;
      BytesJoin(a[1..], b, u);
    }
  }

  lemma {:induction false} NoBytes(tds: seq<Td>, u: Urb)
    requires !HasUrb(tds, u)
    ensures Bytes(tds, u) == 0
  {
    if tds != [] {
      assert tds[0].urb != u;
      forall i | 0 <= i < |tds[1..]|
        ensures tds[1..][i].urb != u
      {
        assert tds[1..][i] == tds[i + 1];
      }
      NoBytes(tds[1..], u);
    }
  }

  /** What a request was credited with, and what its queued descriptors may still add, is no more than
      it asked for. */
  predicate Budget(s: State)
  {
    && (forall u :: u in s.rq.total ==> InBudget(s.rq, Queue(s.l), u))
    && (forall i :: 0 <= i < |s.rq.given| ==>
          s.rq.given[i].urb in s.rq.total && 0 <= s.rq.given[i].actual <= s.rq.total[s.rq.given[i].urb])
  }

  predicate InBudget(rq: Requests, queue: seq<Td>, u: Urb)
    requires u in rq.total
  {
    0 <= Actual(rq, u) && Actual(rq, u) + Bytes(queue, u) <= rq.total[u]
  }

  /** Residues are at most the lengths, in the descriptors and in the overlay, and the overlay stays at
      a halted descriptor. */
  predicate Residues(queue: seq<Td>, hw: Hw)
  {
    (forall i :: 0 <= i < |queue| ==> Residual(queue[i], hw))
      && (hw.overlay == Some(hw.dummy) ==> hw.overlayToken.residue == 0)
  }

  predicate Residual(td: Td, hw: Hw)
  {
    && TokenOf(hw, td.id).residue <= td.length
    && (hw.overlay == Some(td.id) ==> hw.overlayToken.residue <= td.length)
    && (Halted(TokenOf(hw, td.id)) ==> hw.overlay == Some(td.id))
  }

  lemma RetryResidues(s: State, td: Td)
    requires Residues(Queue(s.l), s.hw) && DistinctIds(Queue(s.l)) && s.l.todo != [] && td == s.l.todo[0]
      && td.id != s.hw.dummy
    ensures Residues(Queue(s.l), Retry(s, td).hw)
  {
    var queue, hw := Queue(s.l), Retry(s, td).hw;
    assert queue[|s.l.kept|] == td;
    assert Residual(td, s.hw);
    hide Queue;
    forall i | 0 <= i < |queue|
      ensures Residual(queue[i], hw)
    {
      assert Residual(queue[i], s.hw);
      assert queue[i].id == td.id ==> queue[i] == td;
    }
  }

  lemma SameResidues(queue: seq<Td>, queue': seq<Td>, hw: Hw, hw': Hw)
    requires Residues(queue, hw) && hw'.token == hw.token && hw'.overlay == hw.overlay
      && hw'.overlayToken == hw.overlayToken
      && hw'.dummy == hw.dummy
    requires forall i :: 0 <= i < |queue'| ==> queue'[i] in queue
    ensures Residues(queue', hw')
  {
    forall i | 0 <= i < |queue'|
      ensures Residual(queue'[i], hw')
    {
      var k :| 0 <= k < |queue| && queue[k] == queue'[i];
      assert Residual(queue[k], hw);
    }
  }

  lemma CursorNotDummy(s: State)
    requires Struct(s) && s.l.todo != []
    ensures s.l.todo[0].id != s.hw.dummy
  {
    assert Whole(s.l)[|s.l.kept| + |Seq(s.l.last)|] == s.l.todo[0];
  }

  lemma VisitResidues(s: State)
    requires Struct(s) && Enabled(s, DoVisit) && Residues(Queue(s.l), s.hw)
    ensures Residues(Queue(Visit(s).l), Visit(s).hw)
  {
    var td, r, s' := s.l.todo[0], Retry(s, s.l.todo[0]), Visit(s);
    QueueDistinct(s);
    CursorNotDummy(s);
    RetryResidues(s, td);
    if Judge(r, td).Take? {
      VisitTake(s);
      assert forall i :: 0 <= i < |Queue(s'.l)| ==> Queue(s'.l)[i] == Queue(s.l)[if i < |s.l.kept| then i else i + 1];
    } else if Judge(r, td).Skip? {
      VisitSkip(s);
      assert Queue(s'.l) == Queue(s.l);
    } else {
      VisitStop(s);
    }
    hide Judge, Retry, Visit, Residues, Queue, Struct, DistinctIds;
    SameResidues(Queue(s.l), Queue(s'.l), r.hw, s'.hw);
  }

  /** The token a descriptor's status is collected from leaves no more than its length. */
  lemma TakenResidue(s: State)
    requires Struct(s) && Enabled(s, DoVisit) && Residues(Queue(s.l), s.hw)
    requires Judge(Retry(s, s.l.todo[0]), s.l.todo[0]).Take?
    ensures Judge(Retry(s, s.l.todo[0]), s.l.todo[0]).token.residue <= s.l.todo[0].length
  {
    var td := s.l.todo[0];
    QueueDistinct(s);
    CursorNotDummy(s);
    RetryResidues(s, td);
    assert Queue(s.l)[|s.l.kept|] == td;
    assert Residual(td, Retry(s, td).hw);
    hide Retry, Struct, Queue;
  }

  /** Taking off one descriptor credits its request with its length less the residue, unless the status is
      known or it is SETUP: at most what it had left to credit. */
  lemma Credited(rq: Requests, status: Status, td: Td, t: Token, kept: seq<Td>, rest: seq<Td>, u: Urb)
    requires u in rq.total && InBudget(rq, kept + [td] + rest, u) && t.residue <= td.length
    ensures var rq' := Collect(rq, status, td, t).0;
      && u in rq'.total && InBudget(rq', kept + rest, u)
      && Actual(rq', u) == Actual(rq, u) +
           (if td.urb == u && td.pid != Setup && status == InProgress then td.length - t.residue else 0)
  {
    hide CopyStatus;
    BytesJoin(kept + [td], rest, u);
    BytesJoin(kept, [td], u);
    BytesJoin(kept, rest, u);
    assert Bytes([td], u) == if td.urb == u && td.pid != Setup then td.length else 0;
    hide Bytes;
  }

  lemma AllCredited(s: State, s': State, status: Status, td: Td, t: Token, kept: seq<Td>, rest: seq<Td>)
    requires Budget(s) && Queue(s.l) == kept + [td] + rest && Queue(s'.l) == kept + rest && t.residue <= td.length
    requires s'.rq == Collect(s.rq, status, td, t).0
    ensures Budget(s')
  {
    hide Queue, InBudget, CopyStatus;
    forall u | u in s.rq.total
      ensures InBudget(s'.rq, kept + rest, u)
    {
      Credited(s.rq, status, td, t, kept, rest, u);
    }
  }

  lemma TakeBudget(s: State)
    requires Struct(s) && Enabled(s, DoVisit) && Residues(Queue(s.l), s.hw) && Budget(s)
    requires Judge(Retry(s, s.l.todo[0]), s.l.todo[0]).Take?
    ensures Budget(Visit(s))
  {
    hide Judge, Retry, Visit, Struct, Patch, Collect, Residues, Budget;
    var td, s' := s.l.todo[0], Visit(s);
    var v, rest := Judge(Retry(s, td), td), s.l.todo[1..] + s.l.later;
    TakenResidue(s);
    VisitTake(s);
    assert Queue(s.l) == s.l.kept + [td] + rest && Queue(s'.l) == s.l.kept + rest;
    AllCredited(s, s', v.status, td, v.token, s.l.kept, rest);
  }

  lemma VisitBudget(s: State)
    requires Struct(s) && Enabled(s, DoVisit) && Residues(Queue(s.l), s.hw) && Budget(s)
    ensures Budget(Visit(s))
  {
    var td := s.l.todo[0];
    if Judge(Retry(s, td), td).Take? {
      TakeBudget(s);
    } else if Judge(Retry(s, td), td).Skip? {
      VisitSkip(s);
      assert Queue(Visit(s).l) == Queue(s.l);
    } else {
      VisitStop(s);
    }
    hide Judge, Retry, Visit, Struct, InBudget;
  }

  lemma DoneBudget(s: State)
    requires Struct(s) && s.l.last.Some? && Budget(s)
    ensures Budget(Done(s))
  {
    var u, s' := s.l.last.value.urb, Done(s);
    assert Whole(s.l)[|s.l.kept|] == s.l.last.value;
    assert InBudget(s.rq, Queue(s.l), u);
    assert Queue(s'.l) == Queue(s.l);
    hide Whole, Struct, Queue;
    forall v | v in s'.rq.total
      ensures InBudget(s'.rq, Queue(s'.l), v)
    {
      assert InBudget(s.rq, Queue(s.l), v);
    }
  }

  lemma SubmitBudget(s: State, r: Request)
    requires Struct(s) && Enabled(s, DoSubmit(r)) && Budget(s)
    ensures Budget(Submit(s, r))
  {
    var queue, s' := Queue(s.l), Submit(s, r);
    SubmitWhole(s, r);
    NotYetThere(s, r.urb);
    QueueUrbs(s, r.urb);
    hide Struct, Queue, Whole, Acceptable;
    forall u | u in s'.rq.total
      ensures InBudget(s'.rq, queue + r.tds, u)
    {
      BytesJoin(queue, r.tds, u);
      if u == r.urb {
        NoBytes(queue, u);
      } else {
        assert InBudget(s.rq, queue, u);
        assert !HasUrb(r.tds, u) by { OnlyUrb(r, u, s); }
        NoBytes(r.tds, u);
      }
    }
    forall i | 0 <= i < |s'.rq.given|
      ensures s'.rq.given[i].urb in s'.rq.total && 0 <= s'.rq.given[i].actual <= s'.rq.total[s'.rq.given[i].urb]
    {
      assert s.rq.given[i].urb in s.rq.total;
    }
  }

  lemma OnlyUrb(r: Request, u: Urb, s: State)
    requires Acceptable(s, r) && u != r.urb
    ensures !HasUrb(r.tds, u)
  {
  }

  lemma QueueUrbs(s: State, u: Urb)
    requires !HasUrb(Whole(s.l), u)
    ensures !HasUrb(Queue(s.l), u)
  {
    var rest := s.l.todo + s.l.later;
    assert Queue(s.l) == s.l.kept + rest && Whole(s.l) == s.l.kept + Seq(s.l.last) + rest;
    HasUrbJoin(s.l.kept + Seq(s.l.last), rest, u);
    HasUrbJoin(s.l.kept, Seq(s.l.last), u);
    HasUrbJoin(s.l.kept, rest, u);
    hide Whole, Queue;
  }

  lemma SubmitResidues(s: State, r: Request)
    requires Struct(s) && Enabled(s, DoSubmit(r)) && Residues(Queue(s.l), s.hw)
    ensures Residues(Queue(Submit(s, r).l), Submit(s, r).hw)
  {
    hide Queue, Whole, Contiguous, GivenOnce, LaterNew, InOrder, Skipping, AddTokens, AddLinks;
    var queue, s' := Queue(s.l), Submit(s, r);
    SubmitWhole(s, r);
    QueueIds(s);
    forall i | 0 <= i < |queue + r.tds|
      ensures Residual((queue + r.tds)[i], s'.hw)
    {
      if i < |queue| {
        assert Residual(queue[i], s.hw);
        NotNew(s, r, queue[i].id);
        AddedTokens(s.hw.token, r.tds, queue[i].id);
      } else {
        assert (queue + r.tds)[i] == r.tds[i - |queue|];
        AddedTokens(s.hw.token, r.tds, r.tds[i - |queue|].id);
      }
    }
  }

  lemma RetireResidues(s: State, i: nat, t: Token)
    requires Struct(s) && Enabled(s, Retire(i, t)) && Residues(Queue(s.l), s.hw)
    ensures Residues(Queue(s.l), Apply(s, Retire(i, t)).hw)
  {
    hide Queue, Whole, Contiguous, GivenOnce, LaterNew, Skipping, Shape;
    var queue, hw := Queue(s.l), Apply(s, Retire(i, t)).hw;
    QueueDistinct(s);
    QueueIds(s);
    assert InOrder(queue, s.hw);
    forall k | 0 <= k < |queue|
      ensures Residual(queue[k], hw)
    {
      assert Residual(queue[k], s.hw);
      if k < i {
        assert Finished(TokenOf(s.hw, queue[k].id));
      } else if k > i {
        assert TokenOf(s.hw, queue[k].id).active;
      }
    }
  }

  /** Every step keeps the residues and the budget. */
  lemma StepBudget(s: State, step: Step)
    requires Struct(s) && Enabled(s, step) && Residues(Queue(s.l), s.hw) && Budget(s)
    ensures Residues(Queue(Apply(s, step).l), Apply(s, step).hw) && Budget(Apply(s, step))
  {
    var s' := Apply(s, step);
    if step.DoVisit? {
      VisitResidues(s);
      VisitBudget(s);
    } else if step.DoSubmit? {
      SubmitResidues(s, step.r);
      SubmitBudget(s, step.r);
    } else if step.Retire? {
      RetireResidues(s, step.i, step.t);
    } else if step.Overlay? {
      OverlayResidues(s, step.id, step.t);
    } else {
      QuietBudget(s, step);
    }
    hide Struct, Residues, InBudget, Visit, Submit, Queue;
  }

  /** Steps that change neither the queue nor what the controller sees. */
  lemma QuietBudget(s: State, step: Step)
    requires Struct(s) && Enabled(s, step) && Residues(Queue(s.l), s.hw) && Budget(s)
    requires !step.DoVisit? && !step.DoSubmit? && !step.Retire? && !step.Overlay?
    ensures Residues(Queue(Apply(s, step).l), Apply(s, step).hw) && Budget(Apply(s, step))
  {
    hide Residues, Budget, InBudget, Queue, Apply, Enabled, Struct, Done;
    var s' := Apply(s, step);
    QuietSame(s, step);
    if s.l.last.Some? {
      DoneBudget(s);
    }
    var d := if s.l.last.Some? then Done(s) else s;
    assert Queue(d.l) == Queue(s.l) by { DoneQueue(s); }
    if s'.rq == s.rq.(unlinked := s'.rq.unlinked) {
      SameBudget(s, s');
    } else {
      SameBudget(d, s');
    }
  }

  lemma DoneQueue(s: State)
    ensures s.l.last.Some? ==> Queue(Done(s).l) == Queue(s.l)
  {
  }

  lemma QuietSame(s: State, step: Step)
    requires Struct(s) && Enabled(s, step)
    requires !step.DoVisit? && !step.DoSubmit? && !step.Retire? && !step.Overlay?
    ensures var s' := Apply(s, step);
      && Queue(s'.l) == Queue(s.l) && s'.hw == s.hw
      && (s'.rq == s.rq.(unlinked := s'.rq.unlinked) || (s.l.last.Some? && s'.rq == Done(s).rq))
  {
    hide Ids, Contiguous, GivenOnce, LaterNew, InOrder, Skipping, TokenOf, HasUrb, Whole;
  }

  lemma SameBudget(s: State, s': State)
    requires Budget(s) && s'.rq == s.rq.(unlinked := s'.rq.unlinked) && Queue(s'.l) == Queue(s.l)
    ensures Budget(s')
  {
    assert forall u :: u in s.rq.total && InBudget(s.rq, Queue(s.l), u) ==> InBudget(s'.rq, Queue(s'.l), u);
    hide Queue;
  }

  lemma OverlayResidues(s: State, id: nat, t: Token)
    requires Struct(s) && Enabled(s, Overlay(id, t)) && Residues(Queue(s.l), s.hw)
    ensures Residues(Queue(s.l), Apply(s, Overlay(id, t)).hw)
  {
    var queue, hw := Queue(s.l), Apply(s, Overlay(id, t)).hw;
    hide Struct, Queue;
    forall k | 0 <= k < |queue|
      ensures Residual(queue[k], hw)
    {
      assert Residual(queue[k], s.hw);
    }
  }

  // ---- order ----

  /** In the queue of the pass every descriptor of `u` comes before every one of `w`. */
  predicate Before(start: seq<Td>, u: Urb, w: Urb)
  {
    forall x, y :: 0 <= x < |start| && 0 <= y < |start| && start[x].urb == u && start[y].urb == w ==> x < y
  }

  /** The pass has looked at the queue of its start up to its cursor; the entry it removed is the one
      before the cursor; and it has given requests back in the order of that queue. */
  predicate InPass(s: State)
  {
    s.c.pc != Outside ==>
      && |s.l.todo| <= |s.start| && Contiguous(s.start) && s.mark <= |s.rq.given|
      && (var v := |s.start| - |s.l.todo|;
          && s.start[v..] == s.l.todo
          && (s.l.last.Some? ==> v > 0 && s.start[v - 1] == s.l.last.value)
          && forall a :: s.mark <= a < |s.rq.given| ==> HasUrb(s.start[..v], s.rq.given[a].urb))
      && GivenInOrder(s)
  }

  predicate GivenInOrder(s: State)
  {
    forall a, b :: s.mark <= a < b < |s.rq.given| ==> Before(s.start, s.rq.given[a].urb, s.rq.given[b].urb)
  }

  /** A request given back earlier in the pass comes before the one the cursor has just passed. */
  lemma EarlierBefore(start: seq<Td>, v: nat, u: Urb)
    requires 0 < v <= |start| && Contiguous(start) && HasUrb(start[..v], u) && !HasUrb(start[v - 1..], u)
    ensures Before(start, u, start[v - 1].urb)
  {
    forall x | v - 1 <= x < |start|
      ensures start[x].urb != u
    {
      assert start[v - 1..][x - (v - 1)] == start[x];
    }
  }

  lemma DoneInPass(s: State)
    requires Struct(s) && InPass(s) && s.c.pc != Outside && s.l.last.Some?
    ensures InPass(Done(s))
  {
    var s', v := Done(s), |s.start| - |s.l.todo|;
    var w, n := s.l.last.value.urb, |s.rq.given|;
    assert s.start[..v][v - 1] == s.l.last.value;
    forall a | s.mark <= a < n
      ensures Before(s.start, s.rq.given[a].urb, w)
    {
      var u := s.rq.given[a].urb;
      NotAhead(s, u);
      EarlierBefore(s.start, v, u);
    }
    hide Struct, Before, HasUrb, Contiguous;
  }

  /** A request that was given back has nothing from the cursor's last entry on. */
  lemma NotAhead(s: State, u: Urb)
    requires InPass(s) && s.c.pc != Outside && s.l.last.Some? && !HasUrb(Whole(s.l), u)
    ensures !HasUrb(s.start[|s.start| - |s.l.todo| - 1..], u)
  {
    var v := |s.start| - |s.l.todo|;
    var tail := s.start[v - 1..];
    assert forall i :: 0 <= i < |s.l.todo| ==> s.start[v..][i] == s.l.todo[i];
    forall i | 0 <= i < |tail|
      ensures tail[i].urb != u
    {
      assert Whole(s.l)[|s.l.kept| + i] == tail[i];
    }
  }

  /** A look leaves the cursor where it is, or moves it past the entry under it. */
  lemma VisitCursor(s: State)
    requires s.l.todo != [] && s.l.last.None?
    ensures var s' := Visit(s);
      || (s'.l.todo == s.l.todo && s'.l.last.None?)
      || (s'.l.todo == s.l.todo[1..] && (s'.l.last.None? || s'.l.last == Some(s.l.todo[0])))
    ensures s.c.pc != Outside ==> Visit(s).c.pc != Outside
  {
    hide Judge, Retry, Visit, Collect, Patch;
    var td := s.l.todo[0];
    if Judge(Retry(s, td), td).Take? {
      VisitTake(s);
    } else if Judge(Retry(s, td), td).Skip? {
      VisitSkip(s);
    } else {
      VisitStop(s);
    }
  }

  lemma VisitInPass(s: State)
    requires Struct(s) && InPass(s) && Enabled(s, DoVisit)
    ensures InPass(Visit(s))
  {
    hide Struct, Visit, Judge, Retry, HasUrb, Contiguous, Before, Whole, Acceptable;
    var s', v := Visit(s), |s.start| - |s.l.todo|;
    VisitWhole(s);
    VisitCursor(s);
    assert s.start[v] == s.start[v..][0];
    assert s.start[v + 1..] == s.start[v..][1..];
    assert s.start[..v + 1] == s.start[..v] + [s.start[v]];
    forall a | s.mark <= a < |s.rq.given|
      ensures HasUrb(s.start[..v + 1], s.rq.given[a].urb)
    {
      HasUrbJoin(s.start[..v], [s.start[v]], s.rq.given[a].urb);
    }
  }

  lemma NewPass(s: State, step: Step)
    requires Struct(s) && Enabled(s, step) && (step.Begin? || step.Rescan?)
    ensures InPass(Apply(s, step))
  {
    var s' := Apply(s, step);
    assert s'.start[0..] == s'.start;
    if step.Begin? {
      assert Whole(s.l) == s'.start;
    } else {
      assert Whole(s.l) == s'.start + s.l.later;
      assert forall i :: 0 <= i < |s'.start| ==> Whole(s.l)[i] == s'.start[i];
    }
  }

  /** Every step keeps the order of the givebacks of its pass. */
  lemma StepInPass(s: State, step: Step)
    requires Struct(s) && InPass(s) && Enabled(s, step)
    ensures InPass(Apply(s, step))
  {
    hide Struct, Visit, Submit, HasUrb, Contiguous, Before, Retry, Judge, Acceptable, Queue, Whole;
    if step.Begin? || step.Rescan? {
      NewPass(s, step);
    } else if step.DoVisit? {
      VisitInPass(s);
    } else if step.DoSubmit? {
      SubmitInPass(s, step.r);
    } else if s.l.last.Some? && s.c.pc != Outside {
      DoneInPass(s);
      FreedInPass(s, Apply(s, step), step);
    }
  }

  lemma SubmitInPass(s: State, r: Request)
    requires InPass(s)
    ensures InPass(Submit(s, r))
  {
    hide HasUrb, Contiguous, Before, AddTokens, AddLinks;
  }

  lemma FreedInPass(s: State, s': State, step: Step)
    requires InPass(s) && s.l.last.Some? && InPass(Done(s)) && s.c.pc != Outside && Enabled(s, step)
      && s' == Apply(s, step)
    requires !step.Begin? && !step.Rescan? && !step.DoVisit? && !step.DoSubmit?
    ensures InPass(s')
  {
    hide HasUrb, Contiguous, Before, Queue, Whole;
  }

  // ---- descriptors ----

  function IdsOf(tds: seq<Td>): multiset<nat>
  {
    if tds == [] then multiset{} else multiset{tds[0].id} + IdsOf(tds[1..])
  }

  lemma {:induction false} IdsJoin(a: seq<Td>, b: seq<Td>)
    ensures IdsOf(a + b) == IdsOf(a) + IdsOf(b)
  {
    if a == [] {
      assert a + b == b;
    } else {
      assert (a + b)[1..] == a[1..] + b;
      IdsJoin(a[1..], b);
    }
  }

  /** Every descriptor that was ever queued, however often: those still queued or just removed, and those
      freed. */
  function Account(s: State): multiset<nat>
  {
    IdsOf(Whole(s.l)) + multiset(s.freed)
  }

  /** The descriptors a step queues. */
  function Queued(step: Step): multiset<nat>
  {
    if step.DoSubmit? then IdsOf(step.r.tds) else multiset{}
  }

  /** The removed entry is freed. */
  lemma FreedAccount(s: State, s': State)
    requires s.l.last.Some? && s'.l == s.l.(last := None) && s'.freed == s.freed + [s.l.last.value.id]
    ensures Account(s') == Account(s)
  {
    hide IdsOf;
    var td, rest := s.l.last.value, s.l.todo + s.l.later;
    WithoutLast(s.l);
    IdsJoin(s.l.kept, [td] + rest);
    IdsJoin([td], rest);
    IdsJoin(s.l.kept, rest);
    OneId(td);
    hide Whole;
    assert multiset(s'.freed) == multiset(s.freed) + multiset{td.id};
  }

  lemma WithoutLast(l: Lists)
    requires l.last.Some?
    ensures Whole(l) == l.kept + ([l.last.value] + (l.todo + l.later))
    ensures Whole(l.(last := None)) == l.kept + (l.todo + l.later)
  {
  }

  lemma OneId(td: Td)
    ensures IdsOf([td]) == multiset{td.id}
  {
    assert [td][1..] == [];
  }

  lemma SameAccount(s: State, s': State)
    requires Whole(s'.l) == Whole(s.l) && s'.freed == s.freed
    ensures Account(s') == Account(s)
  {
  }

  /** No step loses a descriptor. */
  lemma StepAccount(s: State, step: Step)
    requires Struct(s) && Enabled(s, step)
    ensures Account(Apply(s, step)) == Account(s) + Queued(step)
  {
    hide Visit, Account, Ids, Contiguous, GivenOnce, LaterNew, InOrder, Skipping, IdsOf, Acceptable, TokenOf, HasUrb;
    var s' := Apply(s, step);
    if step.DoVisit? {
      VisitWhole(s);
      SameAccount(s, s');
    } else if step.DoSubmit? {
      SubmitAccount(s, step.r);
    } else if step.DoCleanUp? || (step.Finish? && s.l.last.Some?) {
      FreedAccount(s, s');
    } else {
      assert Whole(s'.l) == Whole(s.l);
      SameAccount(s, s');
    }
  }

  lemma SubmitAccount(s: State, r: Request)
    requires Shape(s)
    ensures Account(Submit(s, r)) == Account(s) + IdsOf(r.tds)
  {
    SubmitWhole(s, r);
    IdsJoin(Whole(s.l), r.tds);
    hide Whole, Shape, IdsOf, AddTokens, AddLinks;
  }

  // ---- runs ----

  ghost predicate Inv(s: State)
  {
    Struct(s) && Chained(Queue(s.l), s.hw) && Residues(Queue(s.l), s.hw) && Budget(s) && InPass(s)
  }

  lemma StepInv(s: State, step: Step)
    requires Inv(s) && Enabled(s, step)
    ensures Inv(Apply(s, step))
  {
    StepStruct(s, step);
    StepChained(s, step);
    StepBudget(s, step);
    StepInPass(s, step);
    hide Struct, Chained, Residues, Budget, InPass, Apply, Enabled, Queue;
  }

  predicate Legal(s: State, run: seq<Step>)
    decreases |run|
  {
    run == [] || (Enabled(s, run[0]) && Legal(Apply(s, run[0]), run[1..]))
  }

  function Exec(s: State, run: seq<Step>): State
    requires Legal(s, run)
    decreases |run|
  {
    if run == [] then s else Exec(Apply(s, run[0]), run[1..])
  }

  lemma {:induction false} RunInv(s: State, run: seq<Step>)
    requires Inv(s) && Legal(s, run)
    ensures Inv(Exec(s, run))
    decreases |run|
  {
    if run != [] {
      StepInv(s, run[0]);
      RunInv(Apply(s, run[0]), run[1..]);
    }
    hide Inv, Apply, Enabled;
  }

  /** A queue head with nothing queued. */
  function Empty(dummy: nat): State
  {
    State(Lists([], None, [], []), Hw(map[], map[], None, Token(false, true, false, false, false, false, 0, 0), dummy),
          Requests(map[], map[], {}, []), Call(true, true, false, false, 0, InProgress, Outside, false, dummy),
          [], [], 0)
  }

  lemma EmptyStruct(dummy: nat)
    ensures Struct(Empty(dummy))
  {
    var s := Empty(dummy);
    assert Whole(s.l) == [] && Queue(s.l) == [];
    hide Whole, Queue;
  }

  lemma EmptyInv(dummy: nat)
    ensures Inv(Empty(dummy))
  {
    EmptyStruct(dummy);
    hide Struct;
    assert Queue(Empty(dummy).l) == [];
    hide Queue;
  }

  /** The descriptors a run queues. */
  function AllQueued(run: seq<Step>): multiset<nat>
  {
    if run == [] then multiset{} else Queued(run[0]) + AllQueued(run[1..])
  }

  lemma {:induction false} RunAccount(s: State, run: seq<Step>)
    requires Inv(s) && Legal(s, run)
    ensures Account(Exec(s, run)) == Account(s) + AllQueued(run)
    decreases |run|
  {
    if run != [] {
      StepInv(s, run[0]);
      StepAccount(s, run[0]);
      RunAccount(Apply(s, run[0]), run[1..]);
    }
    hide Struct, Chained, Residues, Budget, InPass, Apply, Enabled, Account, Queued;
  }

  lemma EmptyAccount(dummy: nat)
    ensures Account(Empty(dummy)) == multiset{}
  {
    assert Whole(Empty(dummy).l) == [];
  }

  /** Over any run.  A request is given back at most once; it has been given back if and only if none of
      its descriptors is left; it was credited with no less than nothing and no more than it asked for;
      one pass gives requests back in the order of the queue; no descriptor is freed twice or while it is
      queued, and none is lost: what was queued is still there or has been freed; and the hardware chain is
      the queue. */
  lemma RunSafe(dummy: nat, run: seq<Step>)
    requires Legal(Empty(dummy), run)
    ensures var s := Exec(Empty(dummy), run);
      && (forall i, j :: 0 <= i < j < |s.rq.given| ==> s.rq.given[i].urb != s.rq.given[j].urb)
      && (forall u :: u in s.rq.total ==> (IsGiven(s.rq, u) <==> !HasUrb(Whole(s.l), u)))
      && (forall i :: 0 <= i < |s.rq.given| ==>
            s.rq.given[i].urb in s.rq.total && 0 <= s.rq.given[i].actual <= s.rq.total[s.rq.given[i].urb])
      && (s.c.pc != Outside ==> GivenInOrder(s))
      && Ids(s) && Chained(Queue(s.l), s.hw)
      && AllQueued(run) == IdsOf(Whole(s.l)) + multiset(s.freed)
  {
    EmptyInv(dummy);
    RunInv(Empty(dummy), run);
    RunAccount(Empty(dummy), run);
    EmptyAccount(dummy);
    var s := Exec(Empty(dummy), run);
    forall u | u in s.rq.total && IsGiven(s.rq, u)
      ensures !HasUrb(Whole(s.l), u)
    {
      var i :| 0 <= i < |s.rq.given| && s.rq.given[i].urb == u;
    }
    hide Legal, Exec, Apply, Enabled, Whole, Queue, HasUrb, Chained, Residues, Ids, Contiguous, InOrder, Before, IdsOf;
    hide AllQueued;
  }

  lemma {:induction false} Extend(s: State, run: seq<Step>, step: Step)
    requires Legal(s, run) && Enabled(Exec(s, run), step)
    ensures Legal(s, run + [step]) && Exec(s, run + [step]) == Apply(Exec(s, run), step)
    decreases |run|
  {
    hide Enabled, Apply;
    if run == [] {
      assert [step][1..] == [];
      assert run + [step] == [step];
    } else {
      assert (run + [step])[1..] == run[1..] + [step];
      Extend(Apply(s, run[0]), run[1..], step);
    }
  }

  /** Two requests of one descriptor each on an idle queue head, the second one cancelled. */
  const A: Td := Td(0, 1, 8, In, true)
  const B: Td := Td(10, 2, 8, In, true)

  const SUBMIT_A: Step := DoSubmit(Request(1, 8, [A], 10))
  const SUBMIT_B: Step := DoSubmit(Request(2, 8, [B], 20))

  /** The first request alone. */
  lemma QueuedFirst() returns (s: State)
    ensures Legal(Empty(0), [SUBMIT_A]) && s == Exec(Empty(0), [SUBMIT_A])
    ensures s.l == Lists([], None, [A], []) && s.c.pc == Outside && s.rq.unlinked == {} && s.rq.given == []
      && 2 !in s.rq.total
    ensures TokenOf(s.hw, 0).active && s.hw.dummy == 10 && s.hw.overlay == None && s.freed == [] && s.c.end == 0
  {
    var s0 := Empty(0);
    assert Bytes([A], 1) == 8 by { assert [A][1..] == []; }
    assert Acceptable(s0, SUBMIT_A.r);
    Extend(s0, [], SUBMIT_A);
    s := Apply(s0, SUBMIT_A);
    AddedTokens(s0.hw.token, [A], 0);
    assert [A][0] == A;
    hide AddTokens, AddLinks, Acceptable, Bytes;
  }

  lemma SecondAcceptable(s: State)
    requires s.l == Lists([], None, [A], []) && s.c.pc == Outside && 2 !in s.rq.total
    requires s.hw.dummy == 10 && s.hw.overlay == None && s.freed == [] && s.c.end == 0
    ensures Acceptable(s, SUBMIT_B.r)
  {
    assert Bytes([B], 2) == 8 by { assert [B][1..] == []; }
    assert Whole(s.l) == [A];
  }

  /** Both queued, the second one cancelled. */
  lemma BothQueued() returns (run: seq<Step>, s: State)
    ensures Legal(Empty(0), run) && s == Exec(Empty(0), run)
    ensures s.l == Lists([], None, [A, B], []) && s.c.pc == Outside && s.rq.unlinked == {2} && s.rq.given == []
    ensures TokenOf(s.hw, 0).active && TokenOf(s.hw, 10).active
  {
    var s1 := QueuedFirst();
    SecondAcceptable(s1);
    run := [SUBMIT_A];
    Extend(Empty(0), run, SUBMIT_B);
    run := run + [SUBMIT_B];
    var s2 := Apply(s1, SUBMIT_B);
    AddedTokens(s1.hw.token, [B], 0);
    AddedTokens(s1.hw.token, [B], 10);
    assert [B][0] == B;
    hide AddTokens, AddLinks, Acceptable, Bytes, Legal, Exec;
    assert Queue(s2.l) == [A, B] && Queue(s2.l)[1].urb == 2;
    Extend(Empty(0), run, Dequeue(2));
    run := run + [Dequeue(2)];
    s := Apply(s2, Dequeue(2));
  }

  /** The first pass skips the first request, which is active and not cancelled. */
  lemma Skipped(s0: State) returns (run: seq<Step>, s: State)
    requires s0.l == Lists([], None, [A, B], []) && s0.c.pc == Outside && s0.rq.unlinked == {2} && s0.rq.given == []
    requires TokenOf(s0.hw, 0).active && TokenOf(s0.hw, 10).active
    ensures Legal(s0, run) && s == Exec(s0, run) && Return !in run
    ensures s.l == Lists([A], None, [B], [])
      && s.c == Call(true, true, true, false, s.c.xacterrs, InProgress, Loop, false, s.c.end)
    ensures s.rq.unlinked == {2} && s.rq.given == [] && TokenOf(s.hw, 0).active && TokenOf(s.hw, 10).active
  {
    hide Legal, Exec;
    var begin := Begin(true, true);
    NoRun(s0);
    Extend(s0, [], begin);
    run := [] + [begin];
    s := Apply(s0, begin);
    assert Retry(s, A) == s && Judge(s, A) == Skip;
    Extend(s0, run, DoVisit);
    run := run + [DoVisit];
    VisitSkip(s);
    VisitWhole(s);
    s := Apply(s, DoVisit);
  }

  lemma NoRun(s: State)
    ensures Legal(s, []) && Exec(s, []) == s
  {
  }

  /** Then it takes the second one off and gives it back. */
  lemma FirstPass(s0: State) returns (run: seq<Step>, s: State)
    requires s0.l == Lists([A], None, [B], [])
      && s0.c == Call(true, true, true, false, s0.c.xacterrs, InProgress, Loop, false, s0.c.end)
    requires s0.rq.unlinked == {2} && s0.rq.given == [] && TokenOf(s0.hw, 0).active && TokenOf(s0.hw, 10).active
    ensures Legal(s0, run) && s == Exec(s0, run) && Return !in run
    ensures s.l == Lists([A], None, [], []) && s.c == Call(true, true, true, false, 0, InProgress, After, true, s.c.end)
    ensures s.rq.unlinked == {2} && TokenOf(s.hw, 0).active && |s.rq.given| == 1 && s.rq.given[0].urb == 2
  {
    hide Legal, Exec, Collect, Patch;
    assert Retry(s0, B) == s0 && Judge(s0, B).Take?;
    VisitTake(s0);
    VisitWhole(s0);
    NoRun(s0);
    Extend(s0, [], DoVisit);
    run := [] + [DoVisit];
    s := Apply(s0, DoVisit);
    TakenQuietly(s0, s);
    hide Retry, Judge, Visit, Remove;
    Extend(s0, run, LoopDone);
    run := run + [LoopDone];
    s := Apply(s, LoopDone);
    Extend(s0, run, Finish);
    run := run + [Finish];
    s := Apply(s, Finish);
  }

  /** Taking off a cancelled entry changes neither the tokens nor what is not said of it. */
  lemma TakenQuietly(s: State, s': State)
    requires s.l.todo != [] && Retry(s, s.l.todo[0]) == s && Judge(s, s.l.todo[0]).Take? && s' == Visit(s)
    ensures s'.c == s.c.(stopped := s'.c.stopped, status := s'.c.status, xacterrs := 0) && s'.hw.token == s.hw.token
    ensures s'.rq.given == s.rq.given && s'.rq.unlinked == s.rq.unlinked
  {
    hide Judge, CopyStatus, Transferred, Retry;
  }

  /** While the second request is given back the first one is cancelled, so there is a second pass. */
  lemma Cancelled(s0: State) returns (run: seq<Step>, s: State)
    requires s0.l == Lists([A], None, [], [])
      && s0.c == Call(true, true, true, false, 0, InProgress, After, true, s0.c.end)
    requires s0.rq.unlinked == {2} && TokenOf(s0.hw, 0).active && |s0.rq.given| == 1 && s0.rq.given[0].urb == 2
    ensures Legal(s0, run) && s == Exec(s0, run) && Return !in run
    ensures s.l == Lists([], None, [A], [])
      && s.c == Call(true, true, true, false, 0, InProgress, Loop, false, s0.c.end)
    ensures s.rq.unlinked == {1, 2} && TokenOf(s.hw, 0).active && s.rq.given == s0.rq.given
  {
    assert Queue(s0.l)[0].urb == 1;
    Extend(s0, [], Dequeue(1));
    run := [Dequeue(1)];
    s := Apply(s0, Dequeue(1));
    hide Legal, Exec;
    Extend(s0, run, Resume);
    run := run + [Resume];
    s := Apply(s, Resume);
    Extend(s0, run, Rescan);
    run := run + [Rescan];
    s := Apply(s, Rescan);
  }

  /** The second pass gives the first request back. */
  lemma SecondPass(s0: State) returns (run: seq<Step>, s: State)
    requires s0.l == Lists([], None, [A], [])
      && s0.c == Call(true, true, true, false, 0, InProgress, Loop, false, s0.c.end)
    requires s0.rq.unlinked == {1, 2} && TokenOf(s0.hw, 0).active && |s0.rq.given| == 1 && s0.rq.given[0].urb == 2
    ensures Legal(s0, run) && s == Exec(s0, run) && Return !in run
    ensures |s.rq.given| == 2 && s.rq.given[0].urb == 2 && s.rq.given[1].urb == 1
  {
    assert Retry(s0, A) == s0 && Judge(s0, A).Take?;
    VisitTake(s0);
    VisitWhole(s0);
    Extend(s0, [], DoVisit);
    run := [DoVisit];
    s := Apply(s0, DoVisit);
    hide Retry, Judge, Visit, Legal, Exec, Collect, Patch;
    Extend(s0, run, LoopDone);
    run := run + [LoopDone];
    s := Apply(s, LoopDone);
    Extend(s0, run, Finish);
    run := run + [Finish];
    s := Apply(s, Finish);
  }

  /** The order of the queue is not kept over a whole call: here the queue is A, B, and one call gives B
      back first and then, in its second pass, A. */
  lemma OutOfOrder() returns (before: seq<Step>, call: seq<Step>)
    ensures Legal(Empty(0), before) && Exec(Empty(0), before).c.pc == Outside
      && Queue(Exec(Empty(0), before).l) == [A, B]
    ensures Legal(Exec(Empty(0), before), call) && Return !in call
    ensures var given := Exec(Exec(Empty(0), before), call).rq.given;
      |given| == 2 && given[0].urb == B.urb && given[1].urb == A.urb
  {
    hide Legal, Exec;
    var s, s1, s2, s3, s4, skip, first, cancel, second;
    before, s := BothQueued();
    skip, s1 := Skipped(s);
    first, s2 := FirstPass(s1);
    cancel, s3 := Cancelled(s2);
    second, s4 := SecondPass(s3);
    Join(s2, cancel, second);
    Join(s1, first, cancel + second);
    Join(s, skip, first + (cancel + second));
    call := skip + (first + (cancel + second));
  }

  lemma {:induction false} Join(s: State, a: seq<Step>, b: seq<Step>)
    requires Legal(s, a) && Legal(Exec(s, a), b)
    ensures Legal(s, a + b) && Exec(s, a + b) == Exec(Exec(s, a), b)
    decreases |a|
  {
    hide Enabled, Apply;
    if a == [] {
      assert a + b == b;
    } else {
      assert (a + b)[1..] == a[1..] + b;
      Join(Apply(s, a[0]), a[1..], b);
    }
  }
}
