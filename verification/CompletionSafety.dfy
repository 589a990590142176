/** What every step of completions keeps: each request is given back once, when none of its descriptors
    is left; descriptors are freed once; the hardware chain stays the queue; and no request is credited
    with more bytes than it asked for. */
module CompletionSafety {
  import opened Wrappers
  import opened QtdCompletion

  // ---- the queue, with the entry just removed still in its place ----

  /** The descriptors of a request are next to each other. */
  predicate Contiguous(tds: seq<Td>)
  {
    forall i, j, k :: 0 <= i < j < k < |tds| && tds[i].urb == tds[k].urb ==> tds[j].urb == tds[i].urb
  }

  /** Identities: queued or just removed, freed, or the dummy; the pass ends before the dummy of its
      beginning, which is the first descriptor queued since. */
  predicate Ids(s: State)
  {
    && DistinctIds(Whole(s.l)) && !HasId(Whole(s.l), s.hw.dummy)
    && (forall i, j :: 0 <= i < j < |s.freed| ==> s.freed[i] != s.freed[j])
    && s.hw.dummy !in s.freed
    && (forall i :: 0 <= i < |Whole(s.l)| ==> Whole(s.l)[i].id !in s.freed)
  }

  predicate Shape(s: State)
  {
    && (s.c.pc == Outside ==> s.l.kept == [] && s.l.last.None? && s.l.later == [])
    && (s.c.pc != Outside ==> if s.l.later == [] then s.hw.dummy == s.c.end else s.l.later[0].id == s.c.end)
    && (s.c.pc == Ended && s.l.last.Some? ==> s.l.todo == [])
    && (s.c.pc == After ==> s.l.last.None?)
  }

  /** A request that has been given back has nothing queued, and one that has not has. */
  predicate GivenOnce(s: State)
  {
    && (forall i, j :: 0 <= i < j < |s.rq.given| ==> s.rq.given[i].urb != s.rq.given[j].urb)
    && (forall i :: 0 <= i < |s.rq.given| ==> !HasUrb(Whole(s.l), s.rq.given[i].urb) && s.rq.given[i].urb in s.rq.total)
    && (forall u :: u in s.rq.total ==> HasUrb(Whole(s.l), u) || IsGiven(s.rq, u))
    && (forall i :: 0 <= i < |Whole(s.l)| ==> Whole(s.l)[i].urb in s.rq.total)
  }

  predicate IsGiven(rq: Requests, u: Urb)
  {
    exists i :: 0 <= i < |rq.given| && rq.given[i].urb == u
  }

  /** What was queued since the call began belongs to new requests. */
  predicate LaterNew(l: Lists)
  {
    forall i, j :: 0 <= i < |l.kept + Seq(l.last) + l.todo| && 0 <= j < |l.later| ==>
      (l.kept + Seq(l.last) + l.todo)[i].urb != l.later[j].urb
  }

  /** Finished descriptors come first, and nothing is finished after a halted one. */
  predicate InOrder(queue: seq<Td>, hw: Hw)
  {
    forall i, j :: 0 <= i < j < |queue| && !TokenOf(hw, queue[j].id).active ==> Finished(TokenOf(hw, queue[i].id))
  }

  /** The entry the pass skipped last, if any: the queue has stopped before it, and if the entry under
      the cursor belongs to the same request, nothing can have changed that would take it off. */
  predicate Skipping(s: State)
  {
    s.l.kept != [] ==>
      var k := s.l.kept[|s.l.kept| - 1];
      && s.c.stopped && s.c.running && TokenOf(s.hw, k.id).active
      && (s.l.last.Some? ==> !HasUrb(s.l.kept, s.l.last.value.urb))
      && (s.l.todo != [] && s.l.todo[0].urb == k.urb ==>
            s.l.last.None? && !s.c.dropped && s.c.status == InProgress && k.urb !in s.rq.unlinked && s.c.pc == Loop)
  }

  lemma HasUrbJoin(a: seq<Td>, b: seq<Td>, u: Urb)
    ensures HasUrb(a + b, u) <==> HasUrb(a, u) || HasUrb(b, u)
  {
    if HasUrb(a, u) {
      var i :| 0 <= i < |a| && a[i].urb == u;
      assert (a + b)[i].urb == u;
    }
    if HasUrb(b, u) {
      var i :| 0 <= i < |b| && b[i].urb == u;
      assert (a + b)[|a| + i].urb == u;
    }
    if HasUrb(a + b, u) {
      var i :| 0 <= i < |a + b| && (a + b)[i].urb == u;
      assert i < |a| ==> a[i].urb == u;
      assert i >= |a| ==> b[i - |a|].urb == u;
    }
  }

  lemma HasIdJoin(a: seq<Td>, b: seq<Td>, id: nat)
    ensures HasId(a + b, id) <==> HasId(a, id) || HasId(b, id)
  {
    if HasId(a, id) {
      var i :| 0 <= i < |a| && a[i].id == id;
      assert (a + b)[i].id == id;
    }
    if HasId(b, id) {
      var i :| 0 <= i < |b| && b[i].id == id;
      assert (a + b)[|a| + i].id == id;
    }
    if HasId(a + b, id) {
      var i :| 0 <= i < |a + b| && (a + b)[i].id == id;
      assert i < |a| ==> a[i].id == id;
      assert i >= |a| ==> b[i - |a|].id == id;
    }
  }

  /** If the neighbours of an entry in a contiguous list are of other requests, the rest of the list is
      free of its request. */
  lemma Alone(a: seq<Td>, td: Td, b: seq<Td>)
    requires Contiguous(a + [td] + b) && !HasUrb(a, td.urb) && (b != [] ==> b[0].urb != td.urb)
    ensures !HasUrb(a + b, td.urb)
  {
    HasUrbJoin(a, b, td.urb);
    var whole := a + [td] + b;
    forall i | 0 <= i < |b|
      ensures b[i].urb != td.urb
    {
      assert whole[|a|] == td && whole[|a| + 1] == b[0] && whole[|a| + 1 + i] == b[i];
    }
  }

  /** An entry whose request is not that of the entry before it starts its request. */
  lemma FirstOfItsOwn(a: seq<Td>, td: Td, b: seq<Td>)
    requires Contiguous(a + [td] + b) && (a != [] ==> a[|a| - 1].urb != td.urb)
    ensures !HasUrb(a, td.urb)
  {
    var whole := a + [td] + b;
    forall i | 0 <= i < |a|
      ensures a[i].urb != td.urb
    {
      assert whole[i] == a[i] && whole[|a| - 1] == a[|a| - 1] && whole[|a|] == td;
    }
  }

  lemma ContiguousWithout(a: seq<Td>, td: Td, b: seq<Td>)
    requires Contiguous(a + [td] + b)
    ensures Contiguous(a + b)
  {
    var whole, rest := a + [td] + b, a + b;
    assert forall i :: 0 <= i < |rest| ==> rest[i] == whole[if i < |a| then i else i + 1];
  }

  lemma ContiguousWith(a: seq<Td>, b: seq<Td>, u: Urb)
    requires Contiguous(a) && !HasUrb(a, u) && forall i :: 0 <= i < |b| ==> b[i].urb == u
    ensures Contiguous(a + b)
  {
    assert forall i :: 0 <= i < |a| ==> a[i].urb != u;
  }

  lemma DistinctWithout(a: seq<Td>, td: Td, b: seq<Td>)
    requires DistinctIds(a + [td] + b)
    ensures DistinctIds(a + b) && !HasId(a + b, td.id)
  {
    var whole, rest := a + [td] + b, a + b;
    assert forall i :: 0 <= i < |rest| ==> rest[i] == whole[if i < |a| then i else i + 1];
    assert whole[|a|] == td;
  }

  ghost predicate Struct(s: State)
  {
    && Ids(s) && Shape(s) && Contiguous(Whole(s.l)) && GivenOnce(s) && LaterNew(s.l) && InOrder(Queue(s.l), s.hw)
      && Skipping(s)
  }

  /** While the lists add up to the same, what is said about the whole queue stays. */
  lemma SameWhole(s: State, s': State)
    requires Whole(s'.l) == Whole(s.l) && s'.hw.dummy == s.hw.dummy && s'.freed == s.freed
    requires s'.rq.given == s.rq.given && s'.rq.total == s.rq.total
    ensures Ids(s) ==> Ids(s')
    ensures GivenOnce(s) ==> GivenOnce(s')
  {
    hide Whole;
  }

  /** A retry makes a halted entry active again; nothing after it was finished. */
  lemma RetryInOrder(s: State, td: Td)
    requires InOrder(Queue(s.l), s.hw) && DistinctIds(Queue(s.l)) && s.l.todo != [] && td == s.l.todo[0]
    ensures InOrder(Queue(s.l), Retry(s, td).hw)
    ensures forall id :: id != td.id ==> TokenOf(Retry(s, td).hw, id) == TokenOf(s.hw, id)
    ensures TokenOf(s.hw, td.id).active ==> Retry(s, td) == s
  {
    var queue, k := Queue(s.l), |s.l.kept|;
    assert queue[k] == td;
    hide Queue;
    var hw := Retry(s, td).hw;
    forall i, j | 0 <= i < j < |queue| && !TokenOf(hw, queue[j].id).active
      ensures Finished(TokenOf(hw, queue[i].id))
    {
      assert queue[i].id != queue[j].id;
      assert !TokenOf(s.hw, queue[j].id).active;
      assert Finished(TokenOf(s.hw, queue[i].id));
    }
  }

  lemma QueueDistinct(s: State)
    requires DistinctIds(Whole(s.l))
    ensures DistinctIds(Queue(s.l)) && (s.l.last.Some? ==> !HasId(Queue(s.l), s.l.last.value.id))
  {
    var rest := s.l.todo + s.l.later;
    assert Queue(s.l) == s.l.kept + rest;
    if s.l.last.Some? {
      assert Whole(s.l) == s.l.kept + [s.l.last.value] + rest;
      DistinctWithout(s.l.kept, s.l.last.value, rest);
    } else {
      assert Whole(s.l) == s.l.kept + rest;
    }
  }

  /** The rest of a request whose descriptor was skipped is skipped too. */
  lemma RestSkipped(s: State)
    requires Struct(s) && Enabled(s, DoVisit)
    ensures s.l.kept != [] && s.l.kept[|s.l.kept| - 1].urb == s.l.todo[0].urb ==>
      Judge(Retry(s, s.l.todo[0]), s.l.todo[0]) == Skip
  {
    var td, kept := s.l.todo[0], s.l.kept;
    if kept != [] && kept[|kept| - 1].urb == td.urb {
      assert Queue(s.l)[|kept| - 1] == kept[|kept| - 1] && Queue(s.l)[|kept|] == td;
      assert TokenOf(s.hw, td.id).active;
    }
    hide Ids, Contiguous, GivenOnce, LaterNew, Whole;
  }

  /** An entry is taken off only if the one skipped before it belongs to another request. */
  lemma TakeStarts(s: State)
    requires Struct(s) && Enabled(s, DoVisit) && Judge(Retry(s, s.l.todo[0]), s.l.todo[0]).Take?
    ensures !HasUrb(s.l.kept, s.l.todo[0].urb)
  {
    var td, kept := s.l.todo[0], s.l.kept;
    RestSkipped(s);
    hide Judge, Retry;
    assert Whole(s.l) == kept + [td] + (s.l.todo[1..] + s.l.later);
    FirstOfItsOwn(kept, td, s.l.todo[1..] + s.l.later);
  }

  /** Whatever becomes of the entry under the cursor, the whole queue is the same. */
  lemma VisitWhole(s: State)
    requires s.l.todo != [] && s.l.last.None?
    ensures Whole(Visit(s).l) == Whole(s.l) && Visit(s).l.later == s.l.later
    ensures Visit(s).hw.dummy == s.hw.dummy && Visit(s).freed == s.freed && Visit(s).start == s.start
      && Visit(s).mark == s.mark
    ensures Visit(s).rq.given == s.rq.given && Visit(s).rq.total == s.rq.total && Visit(s).rq.unlinked == s.rq.unlinked
    ensures Visit(s).c.end == s.c.end && Visit(s).c.idle == s.c.idle && Visit(s).c.running == s.c.running
    ensures Visit(s).c.dropped == s.c.dropped
  {
    hide Judge, Retry, CopyStatus, Transferred, Actual, TokenOf, LinkOf;
    var td := s.l.todo[0];
    assert s.l.todo == [td] + s.l.todo[1..];
    RetryQuiet(s, td);
  }

  /** A retry changes a token and the overlay only. */
  lemma RetryQuiet(s: State, td: Td)
    ensures var r := Retry(s, td);
      r == s.(c := s.c.(xacterrs := r.c.xacterrs), hw := s.hw.(token := r.hw.token, overlayToken := r.hw.overlayToken))
  {
  }

  /** The state after an entry was taken off. */
  lemma VisitTake(s: State)
    requires s.l.todo != [] && Judge(Retry(s, s.l.todo[0]), s.l.todo[0]).Take?
    ensures var td, s' := s.l.todo[0], Visit(s); var v := Judge(Retry(s, td), td);
      && s'.l == Lists(s.l.kept, Some(td), s.l.todo[1..], s.l.later)
      && s'.hw.token == Retry(s, td).hw.token
      && s'.hw == Patch(Retry(s, td).hw, s.l.kept, td, s'.c.stopped)
      && s'.c.stopped == (s.c.stopped || v.stops) && s'.c.pc == s.c.pc
      && (s'.rq, s'.c.status) == Collect(s.rq, v.status, td, v.token)
  {
    hide Judge, Retries, CountsRetry, CopyStatus, Transferred, Actual, TokenOf, LinkOf;
  }

  /** The state after an entry was skipped. */
  lemma VisitSkip(s: State)
    requires s.l.todo != [] && Judge(Retry(s, s.l.todo[0]), s.l.todo[0]) == Skip
    ensures var td, s' := s.l.todo[0], Visit(s);
      && s'.l == Lists(s.l.kept + [td], s.l.last, s.l.todo[1..], s.l.later)
      && s'.hw == Retry(s, td).hw && s'.rq == s.rq && s'.c.stopped && s'.c.pc == s.c.pc && s'.c.status == s.c.status
  {
    hide Judge, Retries, CountsRetry, TokenOf;
  }

  /** The state after the pass stopped. */
  lemma VisitStop(s: State)
    requires s.l.todo != [] && Judge(Retry(s, s.l.todo[0]), s.l.todo[0]) == Stop
    ensures var td, s' := s.l.todo[0], Visit(s);
      && s'.l == s.l && s'.hw == Retry(s, td).hw && s'.rq == s.rq && s'.c.pc == Ended && s'.c.stopped == s.c.stopped
      && s'.c.status == s.c.status
  {
    hide Judge, Retries, CountsRetry, TokenOf;
  }

  /** When an entry is skipped or the pass stops. */
  lemma Verdicts(s: State, td: Td)
    ensures var r := Retry(s, td); var v := Judge(r, td);
      && (v == Skip ==>
            s.c.running && s.c.status == InProgress && td.urb !in s.rq.unlinked && TokenOf(r.hw, td.id).active)
      && (v == Stop ==> !s.c.stopped && s.c.running && TokenOf(r.hw, td.id).active)
  {
    hide TokenOf, Retries, CountsRetry;
  }

  lemma TakeInOrder(s: State)
    requires Struct(s) && Enabled(s, DoVisit) && Judge(Retry(s, s.l.todo[0]), s.l.todo[0]).Take?
    ensures InOrder(Queue(Visit(s).l), Visit(s).hw)
  {
    hide Retry, Judge, Visit, InOrder, TokenOf, Contiguous, GivenOnce, LaterNew, Skipping, Patch, Collect, Shape;
    var td, r, s' := s.l.todo[0], Retry(s, s.l.todo[0]), Visit(s);
    QueueDistinct(s);
    RetryInOrder(s, td);
    VisitTake(s);
    hide Ids;
    var rest := s.l.todo[1..] + s.l.later;
    assert Queue(s.l) == s.l.kept + [td] + rest && Queue(s'.l) == s.l.kept + rest;
    InOrderWithout(s.l.kept, td, rest, r.hw);
    SameTokens(Queue(s'.l), r.hw, s'.hw);
  }

  lemma VisitInOrder(s: State)
    requires Struct(s) && Enabled(s, DoVisit)
    ensures InOrder(Queue(Visit(s).l), Visit(s).hw)
  {
    hide Retry, Judge, Visit, InOrder, TokenOf, Contiguous, GivenOnce, LaterNew, Skipping, Patch, Collect, Shape;
    var td := s.l.todo[0];
    if Judge(Retry(s, td), td).Take? {
      TakeInOrder(s);
    } else {
      QueueDistinct(s);
      RetryInOrder(s, td);
      if Judge(Retry(s, td), td).Skip? {
        VisitSkip(s);
        assert Queue(Visit(s).l) == Queue(s.l);
      } else {
        VisitStop(s);
      }
    }
  }

  lemma SameTokens(queue: seq<Td>, hw: Hw, hw': Hw)
    requires hw'.token == hw.token
    ensures InOrder(queue, hw) ==> InOrder(queue, hw')
  {
  }

  lemma InOrderWithout(a: seq<Td>, td: Td, b: seq<Td>, hw: Hw)
    requires InOrder(a + [td] + b, hw)
    ensures InOrder(a + b, hw)
  {
    var whole, rest := a + [td] + b, a + b;
    assert forall i :: 0 <= i < |rest| ==> rest[i] == whole[if i < |a| then i else i + 1];
    hide Finished, TokenOf;
  }

  /** A skipped entry stays active when another one is retried. */
  lemma KeptActive(s: State)
    requires Struct(s) && Enabled(s, DoVisit) && s.l.kept != []
    ensures TokenOf(Retry(s, s.l.todo[0]).hw, s.l.kept[|s.l.kept| - 1].id).active
  {
    QueueDistinct(s);
    RetryInOrder(s, s.l.todo[0]);
    var k := |s.l.kept|;
    assert Queue(s.l)[k - 1] == s.l.kept[k - 1] && Queue(s.l)[k] == s.l.todo[0];
    hide Retry, TokenOf, InOrder, Ids, Contiguous, GivenOnce, LaterNew;
  }

  lemma SkipSkipping(s: State)
    requires Struct(s) && Enabled(s, DoVisit) && Judge(Retry(s, s.l.todo[0]), s.l.todo[0]) == Skip
    ensures Skipping(Visit(s))
  {
    Verdicts(s, s.l.todo[0]);
    VisitSkip(s);
    VisitWhole(s);
    hide Retry, Judge, Visit, InOrder, TokenOf, Ids, Contiguous, GivenOnce, LaterNew, Skipping, Whole;
    var s' := Visit(s);
    assert s'.l.kept[|s'.l.kept| - 1] == s.l.todo[0];
    AtSkipped(s');
  }

  lemma AtSkipped(s: State)
    requires s.l.kept != [] && s.c.stopped && s.c.running && TokenOf(s.hw, s.l.kept[|s.l.kept| - 1].id).active
      && s.l.last.None?
    requires !s.c.dropped && s.c.status == InProgress && s.l.kept[|s.l.kept| - 1].urb !in s.rq.unlinked
      && s.c.pc == Loop
    ensures Skipping(s)
  {
  }

  lemma SameToken(hw: Hw, hw': Hw, id: nat)
    requires hw.token == hw'.token
    ensures TokenOf(hw, id) == TokenOf(hw', id)
  {
  }

  lemma TakeSkipping(s: State)
    requires Struct(s) && Enabled(s, DoVisit) && Judge(Retry(s, s.l.todo[0]), s.l.todo[0]).Take?
    ensures Skipping(Visit(s))
  {
    hide Retry, Judge, Visit, InOrder, TokenOf, Ids, GivenOnce, LaterNew, Patch, Collect;
    var kept, td := s.l.kept, s.l.todo[0];
    VisitTake(s);
    VisitWhole(s);
    TakeStarts(s);
    if kept != [] {
      KeptActive(s);
      SameToken(Visit(s).hw, Retry(s, td).hw, kept[|kept| - 1].id);
      NextApart(kept, td, s.l.todo[1..], s.l.later, Whole(s.l));
    }
    hide Retry, Judge, Visit, InOrder, TokenOf, Ids, Contiguous, GivenOnce, LaterNew, Whole, HasUrb, Patch, Collect;
  }

  /** Around an entry of its own request the neighbours belong to different ones. */
  lemma NextApart(kept: seq<Td>, td: Td, rest: seq<Td>, later: seq<Td>, whole: seq<Td>)
    requires kept != [] && whole == kept + ([td] + rest) + later && Contiguous(whole) && !HasUrb(kept, td.urb)
    ensures rest != [] ==> rest[0].urb != kept[|kept| - 1].urb
  {
    if rest != [] {
      assert whole[|kept| - 1] == kept[|kept| - 1] && whole[|kept|] == td && whole[|kept| + 1] == rest[0];
    }
  }

  lemma VisitSkipping(s: State)
    requires Struct(s) && Enabled(s, DoVisit)
    ensures Skipping(Visit(s))
  {
    var td := s.l.todo[0];
    if Judge(Retry(s, td), td).Take? {
      TakeSkipping(s);
    } else if Judge(Retry(s, td), td).Skip? {
      SkipSkipping(s);
    } else {
      Verdicts(s, td);
      VisitStop(s);
    }
    hide Retry, Judge, Visit, InOrder, TokenOf, Ids, Contiguous, GivenOnce, LaterNew;
  }

  lemma VisitShape(s: State)
    requires Struct(s) && Enabled(s, DoVisit)
    ensures Shape(Visit(s)) && LaterNew(Visit(s).l)
  {
    hide Retry, Judge, Visit, InOrder, TokenOf, Ids, Contiguous, GivenOnce, Skipping, Patch, Collect, Whole;
    var td := s.l.todo[0];
    VisitWhole(s);
    assert s.l.todo == [td] + s.l.todo[1..];
    if Judge(Retry(s, td), td).Take? {
      VisitTake(s);
    } else if Judge(Retry(s, td), td).Skip? {
      VisitSkip(s);
    } else {
      VisitStop(s);
    }
    assert Visit(s).l.kept + Seq(Visit(s).l.last) + Visit(s).l.todo == s.l.kept + Seq(s.l.last) + s.l.todo;
  }

  lemma VisitStruct(s: State)
    requires Struct(s) && Enabled(s, DoVisit)
    ensures Struct(Visit(s))
  {
    VisitWhole(s);
    VisitShape(s);
    VisitSkipping(s);
    VisitInOrder(s);
    SameWhole(s, Visit(s));
    hide Visit, Shape, Skipping, InOrder, GivenOnce, Ids, LaterNew, Contiguous, Whole, Queue;
  }

  // ---- freeing an entry, and giving a request back ----

  /** Freeing the entry that was removed. */
  lemma FreeIds(s: State, s': State)
    requires Ids(s) && s.l.last.Some? && s'.l == s.l.(last := None) && s'.freed == s.freed + [s.l.last.value.id]
    requires s'.hw.dummy == s.hw.dummy
    ensures Ids(s')
  {
    var td, rest := s.l.last.value, s.l.todo + s.l.later;
    assert Whole(s.l) == s.l.kept + [td] + rest && Whole(s'.l) == s.l.kept + rest;
    DistinctWithout(s.l.kept, td, rest);
    assert Whole(s.l)[|s.l.kept|] == td;
    assert forall i :: 0 <= i < |Whole(s'.l)| ==> Whole(s'.l)[i] == Whole(s.l)[if i < |s.l.kept| then i else i + 1];
    HasIdJoin(s.l.kept, rest, s.hw.dummy);
    hide Whole;
  }

  lemma FreeContiguous(s: State, s': State)
    requires Contiguous(Whole(s.l)) && s.l.last.Some? && s'.l == s.l.(last := None)
    ensures Contiguous(Whole(s'.l))
  {
    var td, rest := s.l.last.value, s.l.todo + s.l.later;
    assert Whole(s.l) == s.l.kept + [td] + rest && Whole(s'.l) == s.l.kept + rest;
    ContiguousWithout(s.l.kept, td, rest);
  }

  /** The parts of the whole queue around the removed entry. */
  lemma WholeHasUrb(l: Lists, u: Urb)
    ensures HasUrb(Whole(l), u) <==> HasUrb(Whole(l.(last := None)), u) || (l.last.Some? && l.last.value.urb == u)
  {
    var rest := l.todo + l.later;
    assert Whole(l) == l.kept + Seq(l.last) + rest && Whole(l.(last := None)) == l.kept + rest;
    HasUrbJoin(l.kept, rest, u);
    HasUrbJoin(l.kept + Seq(l.last), rest, u);
    HasUrbJoin(l.kept, Seq(l.last), u);
    if l.last.Some? {
      assert Seq(l.last)[0].urb == l.last.value.urb;
    }
    hide Whole;
  }

  /** Nothing of the request is left when it is given back. */
  lemma NothingLeft(s: State)
    requires Struct(s) && s.l.last.Some? && (s.l.todo != [] ==> s.l.todo[0].urb != s.l.last.value.urb)
    ensures !HasUrb(Whole(s.l.(last := None)), s.l.last.value.urb)
  {
    var td, kept, todo, later := s.l.last.value, s.l.kept, s.l.todo, s.l.later;
    var u := td.urb;
    assert Whole(s.l) == kept + [td] + (todo + later) && Whole(s.l.(last := None)) == kept + (todo + later);
    assert !HasUrb(kept, u);
    var before := kept + Seq(s.l.last) + todo;
    assert before[|kept|] == td;
    assert later != [] ==> before[|kept|].urb != later[0].urb;
    hide Whole, Ids, Shape, GivenOnce, InOrder, Skipping, LaterNew;
    Alone(kept, td, todo + later);
  }

  lemma DoneGiven(s: State)
    requires Struct(s) && s.l.last.Some? && (s.l.todo != [] ==> s.l.todo[0].urb != s.l.last.value.urb)
    ensures GivenOnce(Done(s))
  {
    var s' := Done(s);
    var u := s.l.last.value.urb;
    NothingLeft(s);
    assert s'.l == s.l.(last := None);
    forall v
      ensures HasUrb(Whole(s.l), v) <==> HasUrb(Whole(s'.l), v) || v == u
    {
      WholeHasUrb(s.l, v);
    }
    assert HasUrb(Whole(s.l), u);
    HasTotal(s, u);
    SubsetUrbs(s);
    DoneGivenFrom(s, s', u);
  }

  lemma HasTotal(s: State, u: Urb)
    requires GivenOnce(s) && HasUrb(Whole(s.l), u)
    ensures u in s.rq.total && !IsGiven(s.rq, u)
  {
    hide Whole;
  }

  lemma SubsetUrbs(s: State)
    requires GivenOnce(s)
    ensures forall i :: 0 <= i < |Whole(s.l.(last := None))| ==> Whole(s.l.(last := None))[i].urb in s.rq.total
  {
    forall i | 0 <= i < |Whole(s.l.(last := None))|
      ensures Whole(s.l.(last := None))[i].urb in s.rq.total
    {
      WholeHasUrb(s.l, Whole(s.l.(last := None))[i].urb);
    }
    hide Whole;
  }

  lemma DoneGivenFrom(s: State, s': State, u: Urb)
    requires GivenOnce(s) && u in s.rq.total && !IsGiven(s.rq, u)
    requires forall v :: HasUrb(Whole(s.l), v) <==> HasUrb(Whole(s'.l), v) || v == u
    requires !HasUrb(Whole(s'.l), u)
    requires |s'.rq.given| == |s.rq.given| + 1 && s'.rq.given[..|s.rq.given|] == s.rq.given
      && s'.rq.given[|s.rq.given|].urb == u
    requires s'.rq.total == s.rq.total && forall i :: 0 <= i < |Whole(s'.l)| ==> Whole(s'.l)[i].urb in s.rq.total
    ensures GivenOnce(s')
  {
    hide Whole, HasUrb;
    var n := |s.rq.given|;
    assert forall i :: 0 <= i < n ==> s'.rq.given[i] == s.rq.given[i];
    forall v | v in s'.rq.total
      ensures HasUrb(Whole(s'.l), v) || IsGiven(s'.rq, v)
    {
      if IsGiven(s.rq, v) {
        var i :| 0 <= i < n && s.rq.given[i].urb == v;
        assert s'.rq.given[i].urb == v;
      } else if v == u {
        assert s'.rq.given[n].urb == v;
      }
    }
  }

  /** Freeing an entry whose request goes on under the cursor. */
  lemma FreeGiven(s: State, s': State)
    requires GivenOnce(s) && s.l.last.Some? && s.l.todo != [] && s.l.todo[0].urb == s.l.last.value.urb
    requires s'.l == s.l.(last := None) && s'.rq == s.rq
    ensures GivenOnce(s')
  {
    var u := s.l.last.value.urb;
    assert Whole(s'.l)[|s.l.kept|].urb == u;
    forall v
      ensures HasUrb(Whole(s.l), v) <==> HasUrb(Whole(s'.l), v)
    {
      WholeHasUrb(s.l, v);
    }
    SubsetUrbs(s);
    hide Whole, HasUrb;
  }

  /** What freeing an entry leaves of the rest. */
  lemma FreeRest(s: State, s': State)
    requires Struct(s) && s.l.last.Some? && s'.l == s.l.(last := None) && s'.hw == s.hw
    requires s'.c.pc == s.c.pc && s'.c.end == s.c.end && s'.c.stopped == s.c.stopped && s'.c.running == s.c.running
    ensures Shape(s') && LaterNew(s'.l) && InOrder(Queue(s'.l), s'.hw) && Skipping(s')
  {
    var kept, td := s.l.kept, s.l.last.value;
    var a, b := kept + Seq(s.l.last) + s.l.todo, kept + s.l.todo;
    assert kept + Seq(s'.l.last) + s.l.todo == b;
    assert forall i :: 0 <= i < |b| ==> b[i] == a[if i < |kept| then i else i + 1];
    assert Queue(s'.l) == Queue(s.l);
    if kept != [] && s.l.todo != [] {
      assert Whole(s.l) == kept + ([td] + s.l.todo) + s.l.later;
      NextApart(kept, td, s.l.todo, s.l.later, Whole(s.l));
    }
    hide InOrder, TokenOf, Contiguous, GivenOnce, Ids, Whole, HasUrb;
  }

  lemma DoneStruct(s: State)
    requires Struct(s) && s.l.last.Some? && (s.l.todo != [] ==> s.l.todo[0].urb != s.l.last.value.urb)
    ensures Struct(Done(s))
  {
    var s' := Done(s);
    FreeIds(s, s');
    FreeContiguous(s, s');
    DoneGiven(s);
    FreeRest(s, s');
    hide Ids, Contiguous, GivenOnce, LaterNew, InOrder, Skipping, Shape, Whole, Queue;
  }

  lemma CleanUpStruct(s: State)
    requires Struct(s) && Enabled(s, DoCleanUp)
    ensures Struct(CleanUp(s))
  {
    if s.l.last.value.urb != s.l.todo[0].urb {
      DoneStruct(s);
    } else {
      var s' := CleanUp(s);
      FreeIds(s, s');
      FreeContiguous(s, s');
      FreeGiven(s, s');
      FreeRest(s, s');
    }
    hide Ids, Contiguous, GivenOnce, LaterNew, InOrder, Skipping, Shape, Whole, Queue;
  }

  lemma FinishStruct(s: State)
    requires Struct(s) && Enabled(s, Finish)
    ensures Struct(Apply(s, Finish))
  {
    var d := if s.l.last.Some? then Done(s) else s;
    if s.l.last.Some? {
      DoneStruct(s);
    }
    var s' := Apply(s, Finish);
    assert s'.l == d.l && s'.hw == d.hw && s'.rq == d.rq && s'.freed == d.freed;
    MovedOn(d, s');
  }

  /** Going on from a place where nothing is removed and not freed, and nothing skipped next to it. */
  lemma MovedOn(s: State, s': State)
    requires Struct(s) && s'.l == s.l && s'.hw == s.hw && s'.rq == s.rq && s'.freed == s.freed
    requires s'.c == s.c.(pc := s'.c.pc, dropped := s'.c.dropped) && (s'.c.pc == Outside <==> s.c.pc == Outside)
    requires s'.c.pc == Ended && s'.l.last.Some? ==> s'.l.todo == []
    requires s'.c.pc == After ==> s'.l.last.None?
    requires s.l.kept != [] && s.l.todo != [] && s.l.todo[0].urb == s.l.kept[|s.l.kept| - 1].urb ==>
      s'.c.pc == s.c.pc && s'.c.dropped == s.c.dropped
    ensures Struct(s')
  {
    SameWhole(s, s');
    hide Ids, Contiguous, GivenOnce, LaterNew, InOrder, Whole, Queue, HasUrb, TokenOf;
  }

  lemma QuietStruct(s: State, step: Step)
    requires Struct(s) && Enabled(s, step) && (step.LoopDone? || step.Resume?)
    ensures Struct(Apply(s, step))
  {
    MovedOn(s, Apply(s, step));
    hide Ids, Contiguous, GivenOnce, LaterNew, InOrder, Whole, Queue, HasUrb, TokenOf;
  }

  // ---- passes ----

  lemma BeginStruct(s: State, idle: bool, running: bool)
    requires Struct(s) && Enabled(s, Begin(idle, running))
    ensures Struct(Apply(s, Begin(idle, running)))
  {
    SameWhole(s, Apply(s, Begin(idle, running)));
    hide Ids, Contiguous, GivenOnce, LaterNew, InOrder, Whole, Queue, HasUrb, TokenOf;
  }

  lemma AgainStruct(s: State, step: Step)
    requires Struct(s) && Enabled(s, step) && (step.Rescan? || step.Return?)
    ensures Struct(Apply(s, step))
  {
    hide Ids, Contiguous, GivenOnce, InOrder, HasUrb, TokenOf;
    var s' := Apply(s, step);
    assert Queue(s.l) == Whole(s.l) && Whole(s'.l) == Whole(s.l) && Queue(s'.l) == Queue(s.l);
    SameWhole(s, s');
    if step.Rescan? {
      assert s.l.kept + Seq(s.l.last) + s.l.todo == s.l.kept + s.l.todo;
      assert [] + Seq(s'.l.last) + s'.l.todo == s.l.kept + s.l.todo;
    }
    hide Ids, Contiguous, GivenOnce, InOrder, Whole, Queue, HasUrb, TokenOf;
  }

  // ---- the rest of the driver, and the controller ----

  lemma DequeueStruct(s: State, u: Urb)
    requires Struct(s) && Enabled(s, Dequeue(u))
    ensures Struct(Apply(s, Dequeue(u)))
  {
    SameWhole(s, Apply(s, Dequeue(u)));
    hide Ids, Contiguous, GivenOnce, LaterNew, InOrder, Whole, Queue, HasUrb, TokenOf;
  }

  lemma RelinkStruct(s: State)
    requires Struct(s) && Enabled(s, Relink)
    ensures Struct(Apply(s, Relink))
  {
    SameWhole(s, Apply(s, Relink));
    hide Ids, Contiguous, GivenOnce, LaterNew, InOrder, Whole, Queue, HasUrb, TokenOf;
  }

  lemma RetireOrder(queue: seq<Td>, hw: Hw, i: nat, t: Token, hw': Hw)
    requires InOrder(queue, hw) && DistinctIds(queue) && i < |queue| && TokenOf(hw, queue[i].id).active && !t.active
    requires forall j :: 0 <= j < i ==> Finished(TokenOf(hw, queue[j].id))
    requires hw'.token == hw.token[queue[i].id := t]
    ensures InOrder(queue, hw')
  {
  }

  lemma ControllerStruct(s: State, step: Step)
    requires Struct(s) && Enabled(s, step) && (step.Retire? || step.Overlay?)
    ensures Struct(Apply(s, step))
  {
    var s' := Apply(s, step);
    SameWhole(s, s');
    QueueDistinct(s);
    if step.Retire? {
      RetireOrder(Queue(s.l), s.hw, step.i, step.t, s'.hw);
    } else {
      SameTokens(Queue(s.l), s.hw, s'.hw);
    }
    assert s.l.kept == [];
    hide Ids, Contiguous, GivenOnce, LaterNew, InOrder, Whole, Queue, HasUrb, TokenOf;
  }

  // ---- a new request ----

  /** The token of a new descriptor: active, with everything still to transfer. */
  function NewToken(td: Td): Token
  {
    Token(true, false, false, false, false, false, TUNE_CERR, td.length)
  }

  lemma {:induction false} AddedTokens(token: map<nat, Token>, tds: seq<Td>, id: nat)
    requires DistinctIds(tds)
    ensures var token' := AddTokens(token, tds);
      && (!HasId(tds, id) ==> (id in token' <==> id in token) && (id in token ==> token'[id] == token[id]))
      && (forall i :: 0 <= i < |tds| && tds[i].id == id ==> id in token' && token'[id] == NewToken(tds[i]))
    decreases |tds|
  {
    if tds != [] {
      assert forall i :: 0 <= i < |tds| - 1 ==> tds[1..][i] == tds[i + 1];
      AddedTokens(token[tds[0].id := NewToken(tds[0])], tds[1..], id);
      if HasId(tds[1..], id) {
        var i :| 0 <= i < |tds| - 1 && tds[1..][i].id == id;
        assert tds[i + 1].id == id;
      }
      if tds[0].id == id {
        assert !HasId(tds[1..], id);
      }
    }
  }

  lemma JoinDistinct(a: seq<Td>, b: seq<Td>)
    requires DistinctIds(a) && DistinctIds(b) && forall i :: 0 <= i < |b| ==> !HasId(a, b[i].id)
    ensures DistinctIds(a + b)
  {
    var c := a + b;
    forall i, j | 0 <= i < j < |c|
      ensures c[i].id != c[j].id
    {
      if i < |a| <= j {
        assert a[i].id == c[i].id && b[j - |a|] == c[j];
      }
    }
  }

  lemma SubmitWhole(s: State, r: Request)
    requires Shape(s)
    ensures Whole(Submit(s, r).l) == Whole(s.l) + r.tds && Queue(Submit(s, r).l) == Queue(s.l) + r.tds
  {
  }

  lemma SubmitIds(s: State, r: Request)
    requires Ids(s) && Shape(s) && Acceptable(s, r)
    ensures Ids(Submit(s, r))
  {
    var whole, s' := Whole(s.l), Submit(s, r);
    SubmitWhole(s, r);
    hide Whole;
    forall i | 0 <= i < |r.tds|
      ensures !HasId(whole, r.tds[i].id) && r.tds[i].id !in s.freed
    {
    }
    JoinDistinct(whole, r.tds);
    HasIdJoin(whole, r.tds, r.dummy);
    assert forall i :: 0 <= i < |whole + r.tds| ==>
      (whole + r.tds)[i] == if i < |whole| then whole[i] else r.tds[i - |whole|];
    hide HasId, DistinctIds, Shape;
  }

  lemma NotYetThere(s: State, u: Urb)
    requires GivenOnce(s) && u !in s.rq.total
    ensures !HasUrb(Whole(s.l), u) && !IsGiven(s.rq, u)
  {
    hide Whole;
  }

  lemma SubmitGiven(s: State, r: Request)
    requires GivenOnce(s) && Shape(s) && Acceptable(s, r)
    ensures GivenOnce(Submit(s, r)) && (Contiguous(Whole(s.l)) ==> Contiguous(Whole(Submit(s, r).l)))
  {
    hide Contiguous, IsGiven, Shape, AddTokens, AddLinks;
    var whole, s' := Whole(s.l), Submit(s, r);
    SubmitWhole(s, r);
    NotYetThere(s, r.urb);
    hide Whole;
    forall u
      ensures HasUrb(whole + r.tds, u) <==> HasUrb(whole, u) || u == r.urb
    {
      HasUrbJoin(whole, r.tds, u);
      assert r.tds[0].urb == r.urb;
    }
    if Contiguous(whole) {
      ContiguousWith(whole, r.tds, r.urb);
    }
    assert forall i :: 0 <= i < |whole + r.tds| ==>
      (whole + r.tds)[i] == if i < |whole| then whole[i] else r.tds[i - |whole|];
    forall u
      ensures IsGiven(s'.rq, u) == IsGiven(s.rq, u)
    {
      SameGiven(s.rq, s'.rq, u);
    }
    hide HasUrb, Submit, Acceptable;
  }

  lemma SameGiven(rq: Requests, rq': Requests, u: Urb)
    requires rq'.given == rq.given
    ensures IsGiven(rq', u) == IsGiven(rq, u)
  {
  }

  lemma SubmitInOrder(s: State, r: Request)
    requires Ids(s) && Shape(s) && Acceptable(s, r) && InOrder(Queue(s.l), s.hw)
    ensures InOrder(Queue(Submit(s, r).l), Submit(s, r).hw)
  {
    var queue, s' := Queue(s.l), Submit(s, r);
    SubmitWhole(s, r);
    QueueIds(s);
    forall i | 0 <= i < |queue|
      ensures TokenOf(s'.hw, queue[i].id) == TokenOf(s.hw, queue[i].id)
    {
      NotNew(s, r, queue[i].id);
      AddedTokens(s.hw.token, r.tds, queue[i].id);
    }
    forall i | 0 <= i < |r.tds|
      ensures TokenOf(s'.hw, r.tds[i].id).active
    {
      AddedTokens(s.hw.token, r.tds, r.tds[i].id);
    }
    assert forall i :: 0 <= i < |queue + r.tds| ==>
      (queue + r.tds)[i] == if i < |queue| then queue[i] else r.tds[i - |queue|];
    hide Queue, Whole, TokenOf, Ids, Shape, Acceptable, Finished;
  }

  lemma QueueIds(s: State)
    ensures forall i :: 0 <= i < |Queue(s.l)| ==> HasId(Whole(s.l), Queue(s.l)[i].id)
  {
    var rest := s.l.todo + s.l.later;
    assert Queue(s.l) == s.l.kept + rest && Whole(s.l) == s.l.kept + Seq(s.l.last) + rest;
    forall i | 0 <= i < |Queue(s.l)|
      ensures HasId(Whole(s.l), Queue(s.l)[i].id)
    {
      assert Whole(s.l)[if i < |s.l.kept| then i else i + |Seq(s.l.last)|] == Queue(s.l)[i];
    }
  }

  /** What is queued is none of a new request's descriptors. */
  lemma NotNew(s: State, r: Request, id: nat)
    requires Acceptable(s, r) && HasId(Whole(s.l), id) && !HasId(Whole(s.l), s.hw.dummy)
    ensures !HasId(r.tds, id)
  {
    hide Whole;
    forall i | 0 <= i < |r.tds|
      ensures r.tds[i].id != id
    {
      if i > 0 { assert Unused(s, r.tds[i].id); }
    }
  }

  lemma SubmitShape(s: State, r: Request)
    requires Struct(s) && Enabled(s, DoSubmit(r))
    ensures Shape(Submit(s, r)) && LaterNew(Submit(s, r).l) && Skipping(Submit(s, r))
  {
    var l, s' := s.l, Submit(s, r);
    var before := l.kept + Seq(l.last) + l.todo;
    forall i | 0 <= i < |before|
      ensures before[i].urb in s.rq.total
    {
      assert before[i] == Whole(l)[i];
    }
    if s.c.pc != Outside {
      assert s'.l.kept + Seq(s'.l.last) + s'.l.todo == before;
      if l.kept != [] {
        var k := l.kept[|l.kept| - 1];
        QueueIds(s);
        assert Queue(l)[|l.kept| - 1] == k;
        NotNew(s, r, k.id);
        AddedTokens(s.hw.token, r.tds, k.id);
      }
    }
    hide Ids, Contiguous, InOrder, Whole, Queue, HasUrb, HasId, AddTokens, AddLinks;
  }

  lemma SubmitStruct(s: State, r: Request)
    requires Struct(s) && Enabled(s, DoSubmit(r))
    ensures Struct(Submit(s, r))
  {
    SubmitIds(s, r);
    SubmitGiven(s, r);
    SubmitInOrder(s, r);
    SubmitShape(s, r);
    hide Ids, Contiguous, GivenOnce, LaterNew, InOrder, Skipping, Shape, Whole, Queue, Submit, Acceptable;
  }

  /** Every step keeps the structure. */
  lemma StepStruct(s: State, step: Step)
    requires Struct(s) && Enabled(s, step)
    ensures Struct(Apply(s, step))
  {
    hide Struct, Enabled;
    match step
    case Begin(idle, running) => BeginStruct(s, idle, running);
    case DoCleanUp => CleanUpStruct(s);
    case DoVisit => VisitStruct(s);
    case LoopDone => QuietStruct(s, step);
    case Finish => FinishStruct(s);
    case Rescan => AgainStruct(s, step);
    case Return => AgainStruct(s, step);
    case Resume => QuietStruct(s, step);
    case DoSubmit(r) => SubmitStruct(s, r);
    case Relink => RelinkStruct(s);
    case Dequeue(u) => DequeueStruct(s, u);
    case Retire(_, _) => ControllerStruct(s, step);
    case Overlay(_, _) => ControllerStruct(s, step);
  }
}
