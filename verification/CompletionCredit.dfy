/** What a request is told when it is given back: over any run, its status and the bytes it is credited
    with follow from what the controller last left in each of its descriptors. */
module CompletionCredit {
  import opened Wrappers
  import opened QtdCompletion
  import opened CompletionSafety
  import opened CompletionRuns
  import opened CompletionFaults

  // ---- the book of a run ----

  /** A descriptor when it was taken off: what its token said, whether the controller could still have
      been at it, whether its request was cancelled by then, and whether the root hub was down. */
  datatype Taken = Taken(td: Td, token: Token, active: bool, unlinked: bool, down: bool)

  /** The descriptors every request was queued with, those that were taken off, and what the controller's
      last Retire step left in a descriptor. */
  datatype Book = Book(tds: map<Urb, seq<Td>>, taken: map<Urb, seq<Taken>>, retired: map<nat, Token>)

  const NOTHING: Book := Book(map[], map[], map[])

  /** What the controller last left in the token of a descriptor; everything is still to transfer if it
      never retired it. */
  function LastToken(b: Book, td: Td): Token
  {
    if td.id in b.retired then b.retired[td.id] else Token(true, false, false, false, false, false, 3, td.length)
  }

  function TakenOf(b: Book, u: Urb): seq<Taken>
  {
    if u in b.taken then b.taken[u] else []
  }

  /** The entry a look has taken off.  Of an idle queue head that stands at an active descriptor the overlay
      has the latest token. */
  function Note(b: Book, s: State, s': State): Taken
    requires s.l.todo != []
  {
    var td := s.l.todo[0];
    var active := TokenOf(s'.hw, td.id).active;
    var token := if active && s.c.idle && s.hw.overlay == Some(td.id) then s.hw.overlayToken else LastToken(b, td);
    Taken(td, token, active, td.urb in s.rq.unlinked, active && !s.c.running)
  }

  function Keep(b: Book, s: State, step: Step): Book
    requires Enabled(s, step)
  {
    match step
    case DoSubmit(r) => b.(tds := b.tds[r.urb := r.tds], taken := b.taken[r.urb := []])
    case Retire(i, t) => b.(retired := b.retired[Queue(s.l)[i].id := t])
    case DoVisit =>
      var s', u := Visit(s), s.l.todo[0].urb;
      if s'.l.last.Some? then b.(taken := b.taken[u := TakenOf(b, u) + [Note(b, s, s')]]) else b
    case _ => b
  }

  /** The book after a run. */
  function Books(b: Book, s: State, run: seq<Step>): Book
    requires Legal(s, run)
    decreases |run|
  {
    if run == [] then b else Books(Keep(b, s, run[0]), Apply(s, run[0]), run[1..])
  }

  /** The status a request gets from the descriptors taken off for it: that of the first one that failed,
      unless the root hub was down. */
  function Outcome(taken: seq<Taken>): Status
    decreases |taken|
  {
    if taken == [] then InProgress
    else
      var before, x := Outcome(taken[..|taken| - 1]), taken[|taken| - 1];
      if x.down then Shutdown else if before != InProgress then before else CopyStatus(x.td, x.token, x.unlinked)
  }

  /** The bytes transferred by the descriptors up to the first one that failed. */
  function Counted(taken: seq<Taken>): int
    decreases |taken|
  {
    if taken == [] then 0
    else
      var x := taken[|taken| - 1];
      var counts := !x.down && x.td.pid != Setup && Outcome(taken[..|taken| - 1]) == InProgress;
      Counted(taken[..|taken| - 1]) + if counts then x.td.length - x.token.residue else 0
  }

  function TdsOf(taken: seq<Taken>): (tds: seq<Td>)
    ensures |tds| == |taken| && forall k :: 0 <= k < |taken| ==> tds[k] == taken[k].td
  {
    seq(|taken|, k requires 0 <= k < |taken| => taken[k].td)
  }

  /** The entries of a request in a list. */
  function OfUrb(tds: seq<Td>, u: Urb): seq<Td>
  {
    if tds == [] then [] else (if tds[0].urb == u then [tds[0]] else []) + OfUrb(tds[1..], u)
  }

  lemma OfUrbStep(tds: seq<Td>, u: Urb)
    requires tds != []
    ensures OfUrb(tds, u) == (if tds[0].urb == u then [tds[0]] else []) + OfUrb(tds[1..], u)
  {
  }

  lemma {:induction false} OfUrbJoin(a: seq<Td>, b: seq<Td>, u: Urb)
    ensures OfUrb(a + b, u) == OfUrb(a, u) + OfUrb(b, u)
  {
    if a == [] {
      assert a + b == b;
    } else {
      assert (a + b)[1..] == a[1..] + b && (a + b)[0] == a[0];
      OfUrbJoin(a[1..], b, u);
      OfUrbStep(a, u);
      OfUrbStep(a + b, u);
      hide OfUrb;
      assert OfUrb(a[1..] + b, u) == OfUrb(a[1..], u) + OfUrb(b, u);
    }
  }

  lemma {:induction false} OfUrbNone(tds: seq<Td>, u: Urb)
    requires !HasUrb(tds, u)
    ensures OfUrb(tds, u) == []
  {
    if tds != [] {
      assert tds[0].urb != u;
      forall i | 0 <= i < |tds[1..]|
        ensures tds[1..][i].urb != u
      {
        assert tds[1..][i] == tds[i + 1];
      }
      OfUrbNone(tds[1..], u);
    }
  }

  lemma {:induction false} OfUrbAll(tds: seq<Td>, u: Urb)
    requires forall i :: 0 <= i < |tds| ==> tds[i].urb == u
    ensures OfUrb(tds, u) == tds
  {
    if tds != [] {
      assert tds[0].urb == u;
      forall i | 0 <= i < |tds[1..]|
        ensures tds[1..][i].urb == u
      {
        assert tds[1..][i] == tds[i + 1];
      }
      OfUrbAll(tds[1..], u);
      assert tds == [tds[0]] + tds[1..];
    }
  }

  // ---- what every step keeps ----

  /** The token of a queued descriptor is the one its last Retire step left; a retry keeps the residue. */
  predicate TokenKept(b: Book, hw: Hw, td: Td)
  {
    var t := TokenOf(hw, td.id);
    && t.residue == LastToken(b, td).residue
    && (t.active ==> td.id !in b.retired || b.retired[td.id].halt)
    && (!t.active ==> td.id in b.retired && b.retired[td.id] == t)
  }

  predicate Tokens(b: Book, s: State)
  {
    forall i :: 0 <= i < |Queue(s.l)| ==> TokenKept(b, s.hw, Queue(s.l)[i])
  }

  predicate Keys(b: Book, s: State)
  {
    forall id :: id in b.retired ==> HasId(Whole(s.l), id) || id in s.freed
  }

  predicate TakenKept(b: Book, s: State, u: Urb, before: Status, x: Taken)
  {
    && x.td.urb == u && (x.td.id in s.freed || s.l.last == Some(x.td))
    && (x.active ==> x.td.id !in b.retired || b.retired[x.td.id].halt)
    && (!x.active ==> x.td.id in b.retired && x.token == b.retired[x.td.id])
    && (x.unlinked ==> u in s.rq.unlinked) && (x.down ==> x.active)
    && (x.active && !x.down && !x.unlinked ==> before != InProgress)
  }

  predicate ListKept(b: Book, s: State, u: Urb, taken: seq<Taken>)
  {
    forall k :: 0 <= k < |taken| ==> TakenKept(b, s, u, Outcome(taken[..k]), taken[k])
  }

  predicate AllTaken(b: Book, s: State)
  {
    forall u :: u in b.taken ==> ListKept(b, s, u, b.taken[u])
  }

  /** The descriptors of a request are those taken off and those still queued, in order. */
  predicate Complete(b: Book, s: State)
  {
    && b.taken.Keys == s.rq.total.Keys && b.tds.Keys == s.rq.total.Keys
    && (forall u :: u in b.taken ==> TdsOf(b.taken[u]) + OfUrb(Queue(s.l), u) == b.tds[u])
  }

  predicate Credits(b: Book, s: State)
  {
    && (forall u :: u in b.taken ==> Actual(s.rq, u) == Counted(b.taken[u]))
    && (forall i :: 0 <= i < |s.rq.given| ==> Reported(b, s.rq.given[i]))
  }

  predicate Reported(b: Book, g: Given)
  {
    g.urb in b.taken && g.actual == Counted(b.taken[g.urb]) && g.status == Outcome(b.taken[g.urb])
  }

  /** The request whose status the loop is collecting. */
  predicate Current(s: State, u: Urb)
  {
    && (s.c.pc == Loop || s.c.pc == Ended)
    && if s.l.last.Some? then s.l.last.value.urb == u
       else s.c.pc == Loop && s.l.todo != [] && s.l.todo[0].urb == u
  }

  predicate Statuses(b: Book, s: State)
  {
    forall u :: u in b.taken && !IsGiven(s.rq, u) ==>
      Outcome(b.taken[u]) == if Current(s, u) then s.c.status else InProgress
  }

  ghost predicate Balanced(b: Book, s: State)
  {
    && Tokens(b, s) && Keys(b, s) && AllTaken(b, s) && Complete(b, s) && Credits(b, s) && Statuses(b, s)
    && FaultStops(s)
  }

  // ---- steps that leave the book alone ----

  predicate Quiet(step: Step)
  {
    !step.DoVisit? && !step.DoSubmit? && !step.Retire?
  }

  /** The removed entry stays, or it is freed. */
  predicate LastFreed(s: State, s': State)
  {
    || (s'.l.last == s.l.last && s'.freed == s.freed && Whole(s'.l) == Whole(s.l) && s'.rq.given == s.rq.given)
    || (s.l.last.Some? && s'.l.last.None? && s'.freed == s.freed + [s.l.last.value.id] &&
        Whole(s'.l) == Whole(s.l.(last := None)))
  }

  lemma QuietParts(s: State, step: Step)
    requires Struct(s) && Enabled(s, step) && Quiet(step)
    ensures var s' := Apply(s, step);
      && Queue(s'.l) == Queue(s.l) && s'.hw.token == s.hw.token && LastFreed(s, s')
      && s'.rq.total == s.rq.total && s'.rq.actual == s.rq.actual && s.rq.unlinked <= s'.rq.unlinked
  {
    hide Ids, Contiguous, GivenOnce, LaterNew, InOrder, Skipping, TokenOf, HasUrb, Finished, Halted, DistinctIds;
    if step.Rescan? || step.Return? {
      assert Queue(s.l) == Whole(s.l);
    }
  }

  lemma QuietKeys(b: Book, s: State, s': State)
    requires Keys(b, s) && LastFreed(s, s')
    ensures Keys(b, s')
  {
    if s.l.last.Some? {
      var td, rest := s.l.last.value, s.l.todo + s.l.later;
      WithoutLast(s.l);
      hide Whole;
      forall id | id in b.retired
        ensures HasId(Whole(s'.l), id) || id in s'.freed
      {
        HasIdJoin(s.l.kept, [td] + rest, id);
        HasIdJoin([td], rest, id);
        HasIdJoin(s.l.kept, rest, id);
      }
    }
  }

  lemma QuietTaken(b: Book, s: State, s': State)
    requires AllTaken(b, s) && LastFreed(s, s') && s.rq.unlinked <= s'.rq.unlinked
    ensures AllTaken(b, s')
  {
    forall u | u in b.taken
      ensures ListKept(b, s', u, b.taken[u])
    {
      assert ListKept(b, s, u, b.taken[u]);
    }
    hide Whole, Outcome;
  }

  /** Such a step gives back nothing, or the request the loop is at. */
  lemma QuietGiven(s: State, step: Step)
    requires Struct(s) && Enabled(s, step) && Quiet(step)
    ensures var s' := Apply(s, step);
      || s'.rq.given == s.rq.given
      || (s.l.last.Some? && Current(s, s.l.last.value.urb) &&
          s'.rq.given == s.rq.given + [Given(s.l.last.value.urb, s.c.status, Actual(s.rq, s.l.last.value.urb))])
  {
    hide Ids, Contiguous, GivenOnce, LaterNew, InOrder, Skipping, TokenOf, Whole, Queue, HasUrb, Actual;
  }

  lemma LastTotal(s: State)
    requires Struct(s) && s.l.last.Some?
    ensures s.l.last.value.urb in s.rq.total && !IsGiven(s.rq, s.l.last.value.urb)
  {
    assert Whole(s.l)[|s.l.kept|] == s.l.last.value;
    HasTotal(s, s.l.last.value.urb);
  }

  lemma QuietCredits(b: Book, s: State, step: Step)
    requires Struct(s) && Enabled(s, step) && Quiet(step)
    requires Credits(b, s) && Statuses(b, s) && Complete(b, s)
    ensures Credits(b, Apply(s, step))
  {
    hide Struct, Apply, Enabled, Outcome, Counted, TdsOf, OfUrb, Queue, Current, IsGiven;
    var s' := Apply(s, step);
    QuietParts(s, step);
    QuietGiven(s, step);
    if s.l.last.Some? {
      LastTotal(s);
    }
    assert forall u :: Actual(s'.rq, u) == Actual(s.rq, u);
    hide Whole;
  }

  lemma QuietStatuses(b: Book, s: State, step: Step)
    requires Struct(s) && Enabled(s, step) && Quiet(step) && FaultStops(s)
    requires Statuses(b, s)
    ensures Statuses(b, Apply(s, step))
  {
    var s' := Apply(s, step);
    hide Ids, Contiguous, LaterNew, InOrder, Skipping, TokenOf, Outcome, GivenOnce, Whole, Queue, HasUrb;
    if s'.rq.given != s.rq.given {
      assert s'.rq.given[|s.rq.given|].urb == s.l.last.value.urb;
      assert IsGiven(s'.rq, s.l.last.value.urb);
    }
    forall u | u in b.taken && !IsGiven(s'.rq, u)
      ensures Outcome(b.taken[u]) == if Current(s', u) then s'.c.status else InProgress
    {
      NotYetGiven(s.rq, s'.rq, u);
    }
  }

  lemma NotYetGiven(rq: Requests, rq': Requests, u: Urb)
    requires !IsGiven(rq', u) && |rq.given| <= |rq'.given| && rq'.given[..|rq.given|] == rq.given
    ensures !IsGiven(rq, u)
  {
    assert forall i :: 0 <= i < |rq.given| ==> rq'.given[i] == rq.given[i];
  }

  lemma QuietBalanced(b: Book, s: State, step: Step)
    requires Struct(s) && Enabled(s, step) && Quiet(step) && Balanced(b, s)
    ensures Balanced(b, Apply(s, step))
  {
    var s' := Apply(s, step);
    QuietParts(s, step);
    QuietKeys(b, s, s');
    QuietTaken(b, s, s');
    QuietCredits(b, s, step);
    QuietStatuses(b, s, step);
    StepStops(s, step);
    hide Apply, Enabled, Struct, Queue, Whole, Keys, AllTaken, Credits, Statuses, FaultStops, OfUrb, TdsOf;
    hide TokenKept, LastFreed;
    SameKept(b, s.hw, s'.hw);
  }

  // ---- a new request ----

  lemma FreshIds(b: Book, s: State, r: Request)
    requires Ids(s) && Keys(b, s) && Acceptable(s, r)
    ensures forall i :: 0 <= i < |r.tds| ==> r.tds[i].id !in b.retired
  {
    hide Whole, HasId, DistinctIds, HasUrb;
    forall i | 0 <= i < |r.tds|
      ensures r.tds[i].id !in b.retired
    {
      if i > 0 { assert Unused(s, r.tds[i].id); }
    }
  }

  lemma SubmitTokens(b: Book, s: State, r: Request)
    requires Struct(s) && Enabled(s, DoSubmit(r)) && Tokens(b, s) && Keys(b, s)
    ensures Tokens(Keep(b, s, DoSubmit(r)), Submit(s, r))
  {
    hide Queue, Whole, Contiguous, GivenOnce, LaterNew, InOrder, Skipping, AddTokens, AddLinks, Acceptable;
    var queue, s', b' := Queue(s.l), Submit(s, r), Keep(b, s, DoSubmit(r));
    SubmitWhole(s, r);
    QueueIds(s);
    FreshIds(b, s, r);
    ApartIds(s, r);
    forall i | 0 <= i < |queue + r.tds|
      ensures TokenKept(b', s'.hw, (queue + r.tds)[i])
    {
      if i < |queue| {
        assert TokenKept(b, s.hw, queue[i]);
        NotNew(s, r, queue[i].id);
        AddedTokens(s.hw.token, r.tds, queue[i].id);
      } else {
        assert (queue + r.tds)[i] == r.tds[i - |queue|];
        AddedTokens(s.hw.token, r.tds, r.tds[i - |queue|].id);
      }
    }
  }

  lemma ApartIds(s: State, r: Request)
    requires Acceptable(s, r)
    ensures DistinctIds(r.tds) && r.urb !in s.rq.total && forall i :: 0 <= i < |r.tds| ==> r.tds[i].urb == r.urb
  {
  }

  lemma SubmitKeys(b: Book, s: State, r: Request)
    requires Shape(s) && Keys(b, s) && Enabled(s, DoSubmit(r))
    ensures Keys(Keep(b, s, DoSubmit(r)), Submit(s, r))
  {
    SubmitWhole(s, r);
    hide Whole, HasId, Shape;
    forall id | id in b.retired
      ensures HasId(Whole(Submit(s, r).l), id) || id in s.freed
    {
      HasIdJoin(Whole(s.l), r.tds, id);
    }
  }

  lemma SubmitTaken(b: Book, s: State, r: Request)
    requires AllTaken(b, s) && Enabled(s, DoSubmit(r))
    ensures AllTaken(Keep(b, s, DoSubmit(r)), Submit(s, r))
  {
    var b', s' := Keep(b, s, DoSubmit(r)), Submit(s, r);
    hide Outcome, AddTokens, AddLinks, Acceptable;
    forall u | u in b'.taken
      ensures ListKept(b', s', u, b'.taken[u])
    {
      assert u != r.urb ==> ListKept(b, s, u, b.taken[u]);
    }
  }

  /** The entries of a request after a new one was queued. */
  lemma SubmittedOf(s: State, r: Request, u: Urb)
    requires Struct(s) && Enabled(s, DoSubmit(r))
    ensures OfUrb(Queue(Submit(s, r).l), u) == if u == r.urb then r.tds else OfUrb(Queue(s.l), u)
  {
    SubmitWhole(s, r);
    ApartIds(s, r);
    NotYetThere(s, r.urb);
    QueueUrbs(s, r.urb);
    hide Struct, AddTokens, AddLinks, Queue, Whole, Submit, OfUrb;
    OfUrbJoin(Queue(s.l), r.tds, u);
    if u == r.urb {
      OfUrbNone(Queue(s.l), u);
      OfUrbAll(r.tds, u);
    } else {
      OnlyUrb(r, u, s);
      OfUrbNone(r.tds, u);
    }
  }

  lemma SubmitComplete(b: Book, s: State, r: Request)
    requires Struct(s) && Complete(b, s) && Enabled(s, DoSubmit(r))
    ensures Complete(Keep(b, s, DoSubmit(r)), Submit(s, r))
  {
    hide Struct, AddTokens, AddLinks, Acceptable, Queue, Whole, OfUrb;
    var b', s' := Keep(b, s, DoSubmit(r)), Submit(s, r);
    forall u | u in b'.taken
      ensures TdsOf(b'.taken[u]) + OfUrb(Queue(s'.l), u) == b'.tds[u]
    {
      SubmittedOf(s, r, u);
    }
  }

  lemma SubmitCredits(b: Book, s: State, r: Request)
    requires Struct(s) && Complete(b, s) && Credits(b, s) && Enabled(s, DoSubmit(r))
    ensures Credits(Keep(b, s, DoSubmit(r)), Submit(s, r))
  {
    ApartIds(s, r);
    hide Struct, Queue, AddTokens, AddLinks, Acceptable, TdsOf, OfUrb, Outcome;
    var b', s' := Keep(b, s, DoSubmit(r)), Submit(s, r);
    forall i | 0 <= i < |s.rq.given|
      ensures Reported(b', s.rq.given[i])
    {
      assert Reported(b, s.rq.given[i]);
    }
    assert s'.rq.given == s.rq.given;
    hide Reported;
  }

  /** The loop is not at a request that is not there. */
  lemma NotCurrent(s: State, u: Urb)
    requires !HasUrb(Whole(s.l), u)
    ensures !Current(s, u)
  {
    assert s.l.last.Some? ==> Whole(s.l)[|s.l.kept|] == s.l.last.value;
    assert s.l.last.None? && s.l.todo != [] ==> Whole(s.l)[|s.l.kept|] == s.l.todo[0];
    hide Whole;
  }

  lemma SubmitStatuses(b: Book, s: State, r: Request)
    requires Struct(s) && Complete(b, s) && Statuses(b, s) && Enabled(s, DoSubmit(r))
    ensures Statuses(Keep(b, s, DoSubmit(r)), Submit(s, r))
  {
    hide Ids, Contiguous, LaterNew, InOrder, Skipping, Queue, AddTokens, AddLinks, Acceptable, TdsOf, OfUrb, Whole;
    hide GivenOnce, HasUrb;
    var b', s' := Keep(b, s, DoSubmit(r)), Submit(s, r);
    ApartIds(s, r);
    NotYetThere(s, r.urb);
    NotCurrent(s, r.urb);
    assert forall u :: Current(s', u) == Current(s, u);
    forall u
      ensures IsGiven(s'.rq, u) == IsGiven(s.rq, u)
    {
      SameGiven(s.rq, s'.rq, u);
    }
    hide Current, Submit;
  }

  lemma SubmitBalanced(b: Book, s: State, r: Request)
    requires Struct(s) && Enabled(s, DoSubmit(r)) && Balanced(b, s)
    ensures Balanced(Keep(b, s, DoSubmit(r)), Submit(s, r))
  {
    SubmitTokens(b, s, r);
    SubmitKeys(b, s, r);
    SubmitTaken(b, s, r);
    SubmitComplete(b, s, r);
    SubmitCredits(b, s, r);
    SubmitStatuses(b, s, r);
    hide Struct, Enabled, Keep, Submit, Tokens, Keys, AllTaken, Complete, Credits, Statuses;
    StepStops(s, DoSubmit(r));
    assert Apply(s, DoSubmit(r)) == Submit(s, r);
    hide FaultStops, Apply;
  }

  // ---- the controller retires a descriptor ----

  /** What was taken off is not in the queue any more. */
  lemma TakenGone(s: State, x: Td, i: nat)
    requires Struct(s) && i < |Queue(s.l)| && (x.id in s.freed || s.l.last == Some(x))
    ensures Queue(s.l)[i].id != x.id
  {
    QueueDistinct(s);
    QueueIds(s);
    assert HasId(Whole(s.l), Queue(s.l)[i].id);
    hide Queue, Whole, Contiguous, GivenOnce, LaterNew, InOrder, Skipping, Shape;
  }

  lemma RetireTaken(b: Book, s: State, i: nat, t: Token)
    requires Struct(s) && Enabled(s, Retire(i, t)) && AllTaken(b, s)
    ensures AllTaken(Keep(b, s, Retire(i, t)), Apply(s, Retire(i, t)))
  {
    var b', s' := Keep(b, s, Retire(i, t)), Apply(s, Retire(i, t));
    forall u, k | u in b.taken && 0 <= k < |b.taken[u]|
      ensures TakenKept(b', s', u, Outcome(b.taken[u][..k]), b.taken[u][k])
    {
      assert ListKept(b, s, u, b.taken[u]);
      assert TakenKept(b, s, u, Outcome(b.taken[u][..k]), b.taken[u][k]);
      TakenGone(s, b.taken[u][k].td, i);
    }
    hide Struct, Enabled, Queue, Outcome;
  }

  lemma RetireTokens(b: Book, s: State, i: nat, t: Token)
    requires Struct(s) && Enabled(s, Retire(i, t)) && Tokens(b, s) && Keys(b, s)
    ensures var b', s' := Keep(b, s, Retire(i, t)), Apply(s, Retire(i, t)); Tokens(b', s') && Keys(b', s')
  {
    var b', s' := Keep(b, s, Retire(i, t)), Apply(s, Retire(i, t));
    QueueDistinct(s);
    QueueIds(s);
    var queue := Queue(s.l);
    hide Queue, Whole, Contiguous, GivenOnce, LaterNew, InOrder, Skipping, Shape;
    forall k | 0 <= k < |queue|
      ensures TokenKept(b', s'.hw, queue[k])
    {
      assert TokenKept(b, s.hw, queue[k]);
      assert k != i ==> queue[k].id != queue[i].id;
    }
  }

  lemma RetireBalanced(b: Book, s: State, i: nat, t: Token)
    requires Struct(s) && Enabled(s, Retire(i, t)) && Balanced(b, s)
    ensures Balanced(Keep(b, s, Retire(i, t)), Apply(s, Retire(i, t)))
  {
    RetireTokens(b, s, i, t);
    RetireTaken(b, s, i, t);
    StepStops(s, Retire(i, t));
    hide Struct, Enabled, Tokens, Keys, AllTaken, FaultStops;
    RetireRest(b, Keep(b, s, Retire(i, t)), s, Apply(s, Retire(i, t)));
    hide Complete, Credits, Statuses;
  }

  lemma RetireRest(b: Book, b': Book, s: State, s': State)
    requires b' == b.(retired := b'.retired) && s' == s.(hw := s'.hw)
    ensures Complete(b, s) ==> Complete(b', s')
    ensures Credits(b, s) ==> Credits(b', s')
    ensures Statuses(b, s) ==> Statuses(b', s')
  {
    hide Outcome, Counted, Queue, OfUrb, TdsOf, IsGiven;
  }

  // ---- a look that takes an entry off ----

  /** What a retry leaves. */
  lemma RetryToken(b: Book, s: State, td: Td)
    requires TokenKept(b, s.hw, td)
    ensures TokenKept(b, Retry(s, td).hw, td)
    ensures td.urb in s.rq.unlinked || !TokenOf(Retry(s, td).hw, td.id).active ==> Retry(s, td).hw == s.hw
    ensures Retry(s, td).c == s.c.(xacterrs := Retry(s, td).c.xacterrs) && Retry(s, td).rq == s.rq
    ensures Retry(s, td).hw.overlay == s.hw.overlay
  {
  }

  /** The entry as noted in the book is what the loop makes of it. */
  lemma Noted(b: Book, s: State)
    requires Enabled(s, DoVisit) && Takes(s) && TokenKept(b, s.hw, s.l.todo[0])
    ensures var td, x := s.l.todo[0], Note(b, s, Visit(s)); var v := Judge(Retry(s, td), td);
      && x.td == td && x.unlinked == (td.urb in s.rq.unlinked)
      && v.status == (if x.down then Shutdown else s.c.status)
      && (v.status == InProgress ==> v.token.residue == x.token.residue)
      && (v.status == InProgress ==> CopyStatus(td, v.token, x.unlinked) == CopyStatus(td, x.token, x.unlinked))
      && (x.active ==> td.id !in b.retired || b.retired[td.id].halt)
      && (!x.active ==> td.id in b.retired && x.token == b.retired[td.id])
      && (x.down ==> x.active) && (x.active && !x.down && !x.unlinked ==> s.c.status != InProgress)
  {
    var td := s.l.todo[0];
    VisitTake(s);
    RetryToken(b, s, td);
    assert TokenOf(Visit(s).hw, td.id) == TokenOf(Retry(s, td).hw, td.id);
    hide Visit, Retry;
  }

  /** One more entry of a request was taken off. */
  lemma OneMore(taken: seq<Taken>, x: Taken)
    ensures var before := Outcome(taken);
      && Outcome(taken + [x]) == (if x.down then Shutdown
          else if before != InProgress then before else CopyStatus(x.td, x.token, x.unlinked))
      && Counted(taken + [x]) == Counted(taken) +
          (if !x.down && x.td.pid != Setup && before == InProgress then x.td.length - x.token.residue else 0)
      && TdsOf(taken + [x]) == TdsOf(taken) + [x.td]
  {
    assert (taken + [x])[..|taken|] == taken;
    hide CopyStatus;
  }

  lemma CursorKept(b: Book, s: State)
    requires Tokens(b, s) && s.l.todo != []
    ensures TokenKept(b, s.hw, s.l.todo[0])
  {
    assert Queue(s.l)[|s.l.kept|] == s.l.todo[0];
    hide Queue, TokenKept;
  }

  lemma TakeTokens(b: Book, s: State)
    requires Struct(s) && Enabled(s, DoVisit) && Tokens(b, s)
    ensures Tokens(b, Visit(s))
  {
    hide Judge, Retry, Visit, TokenKept, Contiguous, GivenOnce, LaterNew, InOrder, Skipping, Shape, Whole, Patch;
    hide Collect;
    var td, r, s' := s.l.todo[0], Retry(s, s.l.todo[0]), Visit(s);
    QueueDistinct(s);
    RetryTokens(b, s);
    if Takes(s) {
      VisitTake(s);
      assert forall i :: 0 <= i < |Queue(s'.l)| ==> Queue(s'.l)[i] == Queue(s.l)[if i < |s.l.kept| then i else i + 1];
    } else if Judge(r, td).Skip? {
      VisitSkip(s);
      assert Queue(s'.l) == Queue(s.l);
    } else {
      VisitStop(s);
    }
    hide Queue, DistinctIds, Ids;
    assert s'.hw.token == r.hw.token;
    SameKept(b, r.hw, s'.hw);
  }

  lemma SameKept(b: Book, hw: Hw, hw': Hw)
    requires hw'.token == hw.token
    ensures forall td :: TokenKept(b, hw', td) == TokenKept(b, hw, td)
  {
  }

  lemma RetryTokens(b: Book, s: State)
    requires Tokens(b, s) && s.l.todo != [] && DistinctIds(Queue(s.l))
    ensures forall i :: 0 <= i < |Queue(s.l)| ==> TokenKept(b, Retry(s, s.l.todo[0]).hw, Queue(s.l)[i])
  {
    var queue, td, k := Queue(s.l), s.l.todo[0], |s.l.kept|;
    assert queue[k] == td;
    hide Queue;
    forall i | 0 <= i < |queue|
      ensures TokenKept(b, Retry(s, td).hw, queue[i])
    {
      assert TokenKept(b, s.hw, queue[i]);
      if i == k {
        RetryToken(b, s, td);
      } else {
        assert queue[i].id != queue[k].id;
      }
    }
  }

  lemma OfUrbWithout(kept: seq<Td>, td: Td, rest: seq<Td>, u: Urb)
    requires !HasUrb(kept, td.urb)
    ensures OfUrb(kept + [td] + rest, u) == (if td.urb == u then [td] else []) + OfUrb(kept + rest, u)
  {
    hide OfUrb, HasUrb;
    OfUrbJoin(kept + [td], rest, u);
    OfUrbJoin(kept, [td], u);
    OfUrbJoin(kept, rest, u);
    OfUrbOne(td, u);
    if td.urb == u {
      OfUrbNone(kept, u);
    }
  }

  /** Taking off an entry moves it from the queue to the entries taken off for its request. */
  lemma LeavesQueue(s: State, u: Urb)
    requires Struct(s) && Enabled(s, DoVisit) && Takes(s)
    ensures var td := s.l.todo[0];
      OfUrb(Queue(s.l), u) == (if td.urb == u then [td] else []) + OfUrb(Queue(Visit(s).l), u)
  {
    hide Struct, Judge, Retry, Visit, Patch, Collect, Queue, OfUrb, HasUrb;
    var td, kept, rest := s.l.todo[0], s.l.kept, s.l.todo[1..] + s.l.later;
    VisitTake(s);
    TakeStarts(s);
    QueueSplit(s, Visit(s));
    OfUrbWithout(kept, td, rest, u);
  }

  lemma OfUrbOne(td: Td, u: Urb)
    ensures OfUrb([td], u) == if td.urb == u then [td] else []
  {
    assert [td][1..] == [];
  }

  lemma CursorTotal(s: State)
    requires Struct(s) && Enabled(s, DoVisit)
    ensures s.l.todo[0].urb in s.rq.total && !IsGiven(s.rq, s.l.todo[0].urb)
  {
    assert Whole(s.l)[|s.l.kept|] == s.l.todo[0];
    HasTotal(s, s.l.todo[0].urb);
  }

  lemma TakeComplete(b: Book, s: State)
    requires Struct(s) && Enabled(s, DoVisit) && Takes(s) && Complete(b, s)
    ensures Complete(Keep(b, s, DoVisit), Visit(s))
  {
    hide Struct, Takes, Visit, Queue, OfUrb, TdsOf;
    var b', s', td := Keep(b, s, DoVisit), Visit(s), s.l.todo[0];
    VisitWhole(s);
    TakenLast(s);
    CursorTotal(s);
    var x := Note(b, s, s');
    OneMore(b.taken[td.urb], x);
    hide Note;
    forall u | u in b'.taken
      ensures TdsOf(b'.taken[u]) + OfUrb(Queue(s'.l), u) == b'.tds[u]
    {
      LeavesQueue(s, u);
    }
  }

  lemma TakenLast(s: State)
    requires Enabled(s, DoVisit) && Takes(s)
    ensures Visit(s).l.last == Some(s.l.todo[0]) && Visit(s).l.todo == s.l.todo[1..] && Visit(s).c.pc == s.c.pc
  {
    VisitTake(s);
    hide Visit;
  }

  lemma TakeKeys(b: Book, s: State)
    requires Enabled(s, DoVisit) && Keys(b, s)
    ensures Keys(b, Visit(s))
  {
    VisitWhole(s);
    hide Visit, Whole;
  }

  lemma NotedKept(b: Book, s: State)
    requires Struct(s) && Enabled(s, DoVisit) && Takes(s) && Tokens(b, s) && Statuses(b, s) && Complete(b, s)
    ensures var u := s.l.todo[0].urb;
      TakenKept(b, Visit(s), u, Outcome(TakenOf(b, u)), Note(b, s, Visit(s)))
  {
    hide Struct, Takes, Visit, Tokens, TokenKept, Queue, OfUrb, TdsOf, Outcome, Judge, Note, IsGiven, CopyStatus;
    CursorKept(b, s);
    Noted(b, s);
    CursorTotal(s);
    TakenLast(s);
    VisitWhole(s);
  }

  lemma TakeTaken(b: Book, s: State)
    requires Struct(s) && Enabled(s, DoVisit) && Takes(s)
    requires Tokens(b, s) && Statuses(b, s) && Complete(b, s) && AllTaken(b, s)
    ensures AllTaken(Keep(b, s, DoVisit), Visit(s))
  {
    hide Struct, Takes, Visit, Tokens, TokenKept, Queue, OfUrb, TdsOf, Outcome, Judge, Note, IsGiven, CopyStatus;
    hide Statuses;
    var b', s', w := Keep(b, s, DoVisit), Visit(s), s.l.todo[0].urb;
    NotedKept(b, s);
    TakenLast(s);
    VisitWhole(s);
    CursorTotal(s);
    var x := Note(b, s, s');
    forall u, k | u in b'.taken && 0 <= k < |b'.taken[u]|
      ensures TakenKept(b', s', u, Outcome(b'.taken[u][..k]), b'.taken[u][k])
    {
      if u == w && k == |b.taken[w]| {
        assert (b.taken[w] + [x])[..k] == b.taken[w];
      } else {
        assert ListKept(b, s, u, b.taken[u]);
        assert b'.taken[u][..k] == b.taken[u][..k];
        assert TakenKept(b, s, u, Outcome(b.taken[u][..k]), b.taken[u][k]);
      }
    }
  }

  /** What the look adds to the credit, and what becomes of the status. */
  lemma TakeCollects(b: Book, s: State)
    requires Struct(s) && Enabled(s, DoVisit) && Takes(s) && TokenKept(b, s.hw, s.l.todo[0])
    ensures var s', td := Visit(s), s.l.todo[0]; var x := Note(b, s, s');
      && s'.c.status == (if x.down then Shutdown else if s.c.status != InProgress then s.c.status
           else CopyStatus(td, x.token, x.unlinked))
      && Actual(s'.rq, td.urb) == Actual(s.rq, td.urb) +
           (if !x.down && td.pid != Setup && s.c.status == InProgress then td.length - x.token.residue else 0)
      && forall u :: u != td.urb ==> Actual(s'.rq, u) == Actual(s.rq, u)
  {
    hide Struct, Visit, TokenKept, Judge, Retry, Note, CopyStatus, Patch;
    Noted(b, s);
    VisitTake(s);
  }

  lemma TakeCredits(b: Book, s: State)
    requires Struct(s) && Enabled(s, DoVisit) && Takes(s)
    requires Tokens(b, s) && Statuses(b, s) && Complete(b, s) && Credits(b, s)
    ensures Credits(Keep(b, s, DoVisit), Visit(s))
  {
    hide Struct, Takes, Visit, Tokens, TokenKept, Queue, OfUrb, TdsOf, Outcome, Counted, Judge, Note, IsGiven;
    hide CopyStatus, Actual, HasUrb, Reported;
    var b', s', w := Keep(b, s, DoVisit), Visit(s), s.l.todo[0].urb;
    CursorKept(b, s);
    Noted(b, s);
    TakeCollects(b, s);
    TakenLast(s);
    VisitWhole(s);
    CursorTotal(s);
    OneMore(b.taken[w], Note(b, s, s'));
    forall i | 0 <= i < |s.rq.given|
      ensures Reported(b', s.rq.given[i])
    {
      assert s.rq.given[i].urb != w by { NotGivenAt(s.rq, w, i); }
      OtherReported(b, b', s.rq.given[i]);
    }
  }

  lemma NotGivenAt(rq: Requests, u: Urb, i: nat)
    requires i < |rq.given| && !IsGiven(rq, u)
    ensures rq.given[i].urb != u
  {
  }

  lemma OtherReported(b: Book, b': Book, g: Given)
    requires Reported(b, g) && (g.urb in b.taken ==> g.urb in b'.taken && b'.taken[g.urb] == b.taken[g.urb])
    ensures Reported(b', g)
  {
  }

  lemma TakeStatuses(b: Book, s: State)
    requires Struct(s) && Enabled(s, DoVisit) && Takes(s)
    requires Tokens(b, s) && Statuses(b, s) && Complete(b, s)
    ensures Statuses(Keep(b, s, DoVisit), Visit(s))
  {
    hide Struct, Takes, Visit, Tokens, TokenKept, Queue, OfUrb, TdsOf, Outcome, Counted, Judge, Note;
    hide CopyStatus, Actual, HasUrb;
    var b', s', w := Keep(b, s, DoVisit), Visit(s), s.l.todo[0].urb;
    CursorKept(b, s);
    Noted(b, s);
    TakeCollects(b, s);
    TakenLast(s);
    VisitWhole(s);
    CursorTotal(s);
    OneMore(b.taken[w], Note(b, s, s'));
    forall u
      ensures IsGiven(s'.rq, u) == IsGiven(s.rq, u)
    {
      SameGiven(s.rq, s'.rq, u);
    }
    hide IsGiven;
  }

  lemma TakeBalanced(b: Book, s: State)
    requires Struct(s) && Enabled(s, DoVisit) && Takes(s) && Balanced(b, s)
    ensures Balanced(Keep(b, s, DoVisit), Visit(s))
  {
    TakeTokens(b, s);
    TakeKeys(b, s);
    TakeTaken(b, s);
    TakeComplete(b, s);
    TakeCredits(b, s);
    TakeStatuses(b, s);
    VisitStops(s);
    hide Struct, Enabled, Visit, Takes, Keys, AllTaken, Complete, Credits, Statuses, FaultStops;
    assert Keep(b, s, DoVisit).retired == b.retired;
    hide Keep;
    SameRetired(b, Keep(b, s, DoVisit), Visit(s));
  }

  lemma SameRetired(b: Book, b': Book, s: State)
    requires b'.retired == b.retired && Tokens(b, s) && Keys(b, s)
    ensures Tokens(b', s) && Keys(b', s)
  {
    hide Queue, Whole, TokenOf;
  }

  // ---- a look that skips the entry or ends the pass ----

  lemma PassesBy(b: Book, s: State)
    requires Struct(s) && Enabled(s, DoVisit) && !Takes(s) && Balanced(b, s)
    ensures Keep(b, s, DoVisit) == b && Queue(Visit(s).l) == Queue(s.l) && Visit(s).rq == s.rq
    ensures Visit(s).l.last == s.l.last && Visit(s).freed == s.freed
    ensures Visit(s).c.status == s.c.status == InProgress
  {
    hide Struct, Tokens, Keys, AllTaken, Complete, Credits, Statuses, Judge, Visit, Retry, Queue;
    var td := s.l.todo[0];
    VisitWhole(s);
    Verdicts(s, td);
    if Judge(Retry(s, td), td).Skip? {
      VisitSkip(s);
      QueueSkipped(s, Visit(s));
    } else {
      VisitStop(s);
      assert s.c.status == InProgress;
    }
  }

  lemma PassStatuses(b: Book, s: State)
    requires Struct(s) && Enabled(s, DoVisit) && Statuses(b, s) && Complete(b, s)
    requires Visit(s).rq == s.rq && Visit(s).c.status == s.c.status == InProgress
    ensures Statuses(b, Visit(s))
  {
    hide Struct, Visit, IsGiven, Outcome, Queue, OfUrb, TdsOf;
  }

  lemma PassBalanced(b: Book, s: State)
    requires Struct(s) && Enabled(s, DoVisit) && !Takes(s) && Balanced(b, s)
    ensures Balanced(Keep(b, s, DoVisit), Visit(s))
  {
    PassesBy(b, s);
    PassStatuses(b, s);
    TakeTokens(b, s);
    TakeKeys(b, s);
    VisitStops(s);
    hide Struct, Enabled, Visit, Takes, Keys, Statuses, FaultStops, Keep, Tokens, Outcome, Counted, Queue, OfUrb, TdsOf;
    PassTaken(b, s, Visit(s));
  }

  lemma PassTaken(b: Book, s: State, s': State)
    requires AllTaken(b, s) && s'.rq == s.rq && s'.l.last == s.l.last && s'.freed == s.freed
    ensures AllTaken(b, s')
  {
    forall u | u in b.taken
      ensures ListKept(b, s', u, b.taken[u])
    {
      assert ListKept(b, s, u, b.taken[u]);
    }
    hide Outcome;
  }

  /** Every step keeps the book balanced. */
  lemma StepBalanced(b: Book, s: State, step: Step)
    requires Struct(s) && Enabled(s, step) && Balanced(b, s)
    ensures Balanced(Keep(b, s, step), Apply(s, step))
  {
    hide Struct, Balanced, Takes;
    match step
    case DoVisit =>
      if Takes(s) {
        TakeBalanced(b, s);
      } else {
        PassBalanced(b, s);
      }
    case DoSubmit(r) => SubmitBalanced(b, s, r);
    case Retire(i, t) => RetireBalanced(b, s, i, t);
    case _ =>
      QuietBalanced(b, s, step);
      assert Keep(b, s, step) == b;
  }

  // ---- runs ----

  lemma EmptyBalanced(dummy: nat)
    ensures Balanced(NOTHING, Empty(dummy))
  {
    assert Queue(Empty(dummy).l) == [];
  }

  lemma {:induction false} RunBalanced(b: Book, s: State, run: seq<Step>)
    requires Inv(s) && Legal(s, run) && Balanced(b, s)
    ensures Inv(Exec(s, run)) && Balanced(Books(b, s, run), Exec(s, run))
    decreases |run|
  {
    hide Struct, Chained, Residues, Budget, InPass, Apply, Enabled, Balanced, Keep;
    if run != [] {
      StepInv(s, run[0]);
      StepBalanced(b, s, run[0]);
      RunBalanced(Keep(b, s, run[0]), Apply(s, run[0]), run[1..]);
    }
  }

  /** Over any run, a request that has been given back was given the status and the bytes that the entries
      taken off for it amount to, and these are all the descriptors it was queued with. */
  lemma GivenTaken(dummy: nat, run: seq<Step>, i: nat)
    requires Legal(Empty(dummy), run) && i < |Exec(Empty(dummy), run).rq.given|
    ensures var s, b := Exec(Empty(dummy), run), Books(NOTHING, Empty(dummy), run); var g := s.rq.given[i];
      && g.urb in b.tds && g.urb in b.taken && TdsOf(b.taken[g.urb]) == b.tds[g.urb]
      && g.status == Outcome(b.taken[g.urb]) && g.actual == Counted(b.taken[g.urb])
      && ListKept(b, s, g.urb, b.taken[g.urb])
  {
    hide Struct, Chained, Residues, Budget, InPass, Legal, Exec, Books, Statuses, Tokens, Keys, Outcome, Counted;
    hide FaultStops, ListKept, OfUrb, TdsOf;
    EmptyInv(dummy);
    EmptyBalanced(dummy);
    RunBalanced(NOTHING, Empty(dummy), run);
    var s, b := Exec(Empty(dummy), run), Books(NOTHING, Empty(dummy), run);
    var u := s.rq.given[i].urb;
    assert Reported(b, s.rq.given[i]);
    GivenGone(s, i);
    OfUrbNone(Queue(s.l), u);
  }

  lemma GivenGone(s: State, i: nat)
    requires Struct(s) && i < |s.rq.given|
    ensures !HasUrb(Queue(s.l), s.rq.given[i].urb)
  {
    QueueUrbs(s, s.rq.given[i].urb);
    hide Queue, Whole;
  }

  /** The controller finished the descriptor: it was retired without a halt, and not with a short read
      that stops the queue. */
  predicate Clean(b: Book, td: Td)
  {
    td.id in b.retired && !b.retired[td.id].halt && (b.retired[td.id].residue == 0 || td.pid != In || td.altEnd)
  }

  /** The bytes the controller moved for descriptors, by the residues of their last Retire steps; those of
      SETUP do not count. */
  function Moved(b: Book, tds: seq<Td>): int
  {
    if tds == [] then 0
    else (if tds[0].pid == Setup then 0 else tds[0].length - LastToken(b, tds[0]).residue) + Moved(b, tds[1..])
  }

  lemma {:induction false} MovedOne(b: Book, tds: seq<Td>, td: Td)
    ensures Moved(b, tds + [td]) == Moved(b, tds) + if td.pid == Setup then 0 else td.length - LastToken(b, td).residue
  {
    if tds == [] {
      assert tds + [td] == [td];
    } else {
      assert (tds + [td])[1..] == tds[1..] + [td];
      MovedOne(b, tds[1..], td);
    }
  }

  lemma {:induction false} MovedWhole(b: Book, tds: seq<Td>, u: Urb)
    requires forall k :: 0 <= k < |tds| ==> tds[k].urb == u && LastToken(b, tds[k]).residue == 0
    ensures Moved(b, tds) == Bytes(tds, u)
  {
    if tds != [] {
      MovedWhole(b, tds[1..], u);
    }
  }

  lemma TdsSplit(taken: seq<Taken>)
    requires taken != []
    ensures var n := |taken| - 1; TdsOf(taken) == TdsOf(taken[..n]) + [taken[n].td]
  {
  }

  /** Entries that the controller has finished give success and count in full. */
  lemma {:induction false} CleanCounted(b: Book, s: State, u: Urb, taken: seq<Taken>)
    requires ListKept(b, s, u, taken) && forall k :: 0 <= k < |taken| ==> Clean(b, taken[k].td)
    ensures Outcome(taken) == InProgress && Counted(taken) == Moved(b, TdsOf(taken))
    decreases |taken|
  {
    if taken == [] {
      assert TdsOf(taken) == [];
    } else {
      var n := |taken| - 1;
      ShorterKept(b, s, u, taken);
      CleanCounted(b, s, u, taken[..n]);
      TdsSplit(taken);
      MovedOne(b, TdsOf(taken[..n]), taken[n].td);
      assert TakenKept(b, s, u, Outcome(taken[..n]), taken[n]);
      assert Clean(b, taken[n].td);
    }
    hide ListKept, TdsOf, Moved;
  }

  lemma ShorterKept(b: Book, s: State, u: Urb, taken: seq<Taken>)
    requires ListKept(b, s, u, taken) && taken != []
    ensures ListKept(b, s, u, taken[..|taken| - 1])
  {
    var init := taken[..|taken| - 1];
    forall k | 0 <= k < |init|
      ensures TakenKept(b, s, u, Outcome(init[..k]), init[k])
    {
      assert init[..k] == taken[..k];
      assert TakenKept(b, s, u, Outcome(taken[..k]), taken[k]);
    }
    hide Outcome, TakenKept;
  }

  /** Success for a request that was not cancelled means that the controller has finished every one of
      its descriptors. */
  lemma {:induction false} SuccessClean(b: Book, s: State, u: Urb, taken: seq<Taken>)
    requires ListKept(b, s, u, taken) && u !in s.rq.unlinked && Outcome(taken) == InProgress
    ensures forall k :: 0 <= k < |taken| ==> Clean(b, taken[k].td)
    decreases |taken|
  {
    if taken != [] {
      var n := |taken| - 1;
      ShorterKept(b, s, u, taken);
      SuccessClean(b, s, u, taken[..n]);
      assert TakenKept(b, s, u, Outcome(taken[..n]), taken[n]);
      assert Clean(b, taken[n].td);
      assert forall k :: 0 <= k < n ==> taken[..n][k] == taken[k];
    }
    hide ListKept;
  }

  /** Over any run, a request whose descriptors were all retired without a halt or a short read that stops
      the queue is given back as a success, with what the residues of their last Retire steps leave of the
      lengths; and a request that was not cancelled is given back as a success only then. */
  lemma SuccessIff(dummy: nat, run: seq<Step>, i: nat)
    requires Legal(Empty(dummy), run) && i < |Exec(Empty(dummy), run).rq.given|
    ensures var s, b := Exec(Empty(dummy), run), Books(NOTHING, Empty(dummy), run); var g := s.rq.given[i];
      && g.urb in b.tds
      && ((forall k :: 0 <= k < |b.tds[g.urb]| ==> Clean(b, b.tds[g.urb][k])) ==>
            g.status == InProgress && g.actual == Moved(b, b.tds[g.urb]))
      && (g.status == InProgress && g.urb !in s.rq.unlinked ==>
            forall k :: 0 <= k < |b.tds[g.urb]| ==> Clean(b, b.tds[g.urb][k]))
  {
    hide Legal, Exec, Books, Outcome, Counted, ListKept, Moved, Clean;
    GivenTaken(dummy, run, i);
    var s, b := Exec(Empty(dummy), run), Books(NOTHING, Empty(dummy), run);
    var g := s.rq.given[i];
    var taken := b.taken[g.urb];
    if forall k :: 0 <= k < |b.tds[g.urb]| ==> Clean(b, b.tds[g.urb][k]) {
      assert forall k :: 0 <= k < |taken| ==> b.tds[g.urb][k] == taken[k].td;
      CleanCounted(b, s, g.urb, taken);
    }
    if g.status == InProgress && g.urb !in s.rq.unlinked {
      SuccessClean(b, s, g.urb, taken);
    }
  }

  lemma TakenUrbs(b: Book, s: State, u: Urb, taken: seq<Taken>)
    requires ListKept(b, s, u, taken)
    ensures forall k :: 0 <= k < |taken| ==> taken[k].td.urb == u
  {
    forall k | 0 <= k < |taken|
      ensures taken[k].td.urb == u
    {
      assert TakenKept(b, s, u, Outcome(taken[..k]), taken[k]);
    }
  }

  /** If nothing was left of any of the descriptors, the credit is the sum of their lengths. */
  lemma WholeCredited(dummy: nat, run: seq<Step>, i: nat)
    requires Legal(Empty(dummy), run) && i < |Exec(Empty(dummy), run).rq.given|
    ensures var s, b := Exec(Empty(dummy), run), Books(NOTHING, Empty(dummy), run); var g := s.rq.given[i];
      && g.urb in b.tds
      && ((forall k :: 0 <= k < |b.tds[g.urb]| ==>
             Clean(b, b.tds[g.urb][k]) && b.retired[b.tds[g.urb][k].id].residue == 0)
          ==> g.status == InProgress && g.actual == Bytes(b.tds[g.urb], g.urb))
  {
    hide Legal, Exec, Books, Outcome, Counted, ListKept, Moved, Bytes;
    GivenTaken(dummy, run, i);
    SuccessIff(dummy, run, i);
    var s, b := Exec(Empty(dummy), run), Books(NOTHING, Empty(dummy), run);
    var u := s.rq.given[i].urb;
    TakenUrbs(b, s, u, b.taken[u]);
    var tds := b.tds[u];
    if forall k :: 0 <= k < |tds| ==> Clean(b, tds[k]) && b.retired[tds[k].id].residue == 0 {
      assert forall k :: 0 <= k < |tds| ==> tds[k] == b.taken[u][k].td;
      MovedWhole(b, tds, u);
    }
  }

  /** After the first entry that failed neither the status nor the credit changes, while the root hub runs. */
  lemma {:induction false} FailureStays(taken: seq<Taken>, k: nat)
    requires k < |taken| && Outcome(taken[..k + 1]) != InProgress && forall j :: 0 <= j < |taken| ==> !taken[j].down
    ensures Outcome(taken) == Outcome(taken[..k + 1]) && Counted(taken) == Counted(taken[..k + 1])
    decreases |taken|
  {
    if |taken| == k + 1 {
      assert taken[..k + 1] == taken;
    } else {
      var init := taken[..|taken| - 1];
      assert init[..k + 1] == taken[..k + 1];
      FailureStays(init, k);
    }
    hide CopyStatus;
  }

  /** The status each kind of failure is reported with. */
  predicate ReportedAs(td: Td, t: Token, status: Status)
  {
    && (t.halt && t.babble ==> status == Overflow)
    && (t.halt && !t.babble && t.cerr != 0 ==> status == Pipe)
    && (t.halt && !t.babble && t.cerr == 0 && t.mmf ==> status == Proto)
    && (t.halt && !t.babble && t.cerr == 0 && !t.mmf && t.dbe ==> status == if td.pid == In then NoSr else Comm)
    && (t.halt && !t.babble && t.cerr == 0 && !t.mmf && !t.dbe ==> status == Proto)
    && (!t.halt ==> status == RemoteIo)
  }

  lemma {:induction false} KeptPrefix(b: Book, s: State, u: Urb, taken: seq<Taken>, n: nat)
    requires ListKept(b, s, u, taken) && n <= |taken|
    ensures ListKept(b, s, u, taken[..n])
    decreases |taken|
  {
    if n == |taken| {
      assert taken[..n] == taken;
    } else {
      ShorterKept(b, s, u, taken);
      KeptPrefix(b, s, u, taken[..|taken| - 1], n);
      assert taken[..|taken| - 1][..n] == taken[..n];
    }
    hide ListKept;
  }

  /** The first entry that failed, of a request that was not cancelled, was retired, and its token is what
      the status is reported for. */
  lemma FirstFailure(b: Book, s: State, u: Urb, taken: seq<Taken>, k: nat)
    requires ListKept(b, s, u, taken) && k < |taken| && u !in s.rq.unlinked
    requires forall j :: 0 <= j < k ==> Clean(b, taken[j].td)
    requires !Clean(b, taken[k].td) && forall j :: 0 <= j < |taken| ==> !taken[j].down
    ensures var td := taken[k].td;
      && td.id in b.retired && ReportedAs(td, b.retired[td.id], Outcome(taken))
      && Outcome(taken) != InProgress && Counted(taken) == Moved(b, TdsOf(taken)[..k + 1])
  {
    hide Moved, ListKept;
    var x, init := taken[k], taken[..k];
    KeptPrefix(b, s, u, taken, k);
    CleanCounted(b, s, u, init);
    assert TakenKept(b, s, u, Outcome(taken[..k]), taken[k]) by { KeptAt(b, s, u, taken, k); }
    assert taken[..k + 1] == init + [x];
    OneMore(init, x);
    MovedOne(b, TdsOf(init), x.td);
    assert TdsOf(taken)[..k + 1] == TdsOf(init) + [x.td];
    hide Outcome, Counted;
    FailureStays(taken, k);
  }

  lemma KeptAt(b: Book, s: State, u: Urb, taken: seq<Taken>, k: nat)
    requires ListKept(b, s, u, taken) && k < |taken|
    ensures TakenKept(b, s, u, Outcome(taken[..k]), taken[k])
  {
  }

  /** Over any run, a request that was not cancelled and of which descriptor `k` is the first that failed,
      with the root hub running, is given back with the status of that failure and the bytes moved up to
      and including it. */
  lemma FailureReported(dummy: nat, run: seq<Step>, i: nat, k: nat)
    requires Legal(Empty(dummy), run) && i < |Exec(Empty(dummy), run).rq.given|
    requires var s, b := Exec(Empty(dummy), run), Books(NOTHING, Empty(dummy), run); var u := s.rq.given[i].urb;
      && u !in s.rq.unlinked && u in b.tds && k < |b.tds[u]| && !Clean(b, b.tds[u][k])
      && (forall j :: 0 <= j < k ==> Clean(b, b.tds[u][j]))
      && forall j :: 0 <= j < |TakenOf(b, u)| ==> !TakenOf(b, u)[j].down
    ensures var s, b := Exec(Empty(dummy), run), Books(NOTHING, Empty(dummy), run); var g := s.rq.given[i];
      var tds := b.tds[g.urb];
      && tds[k].id in b.retired && ReportedAs(tds[k], b.retired[tds[k].id], g.status) && g.status != InProgress
      && g.actual == Moved(b, tds[..k + 1])
  {
    hide Legal, Exec, Books, Outcome, Counted, ListKept, Moved, Clean, ReportedAs;
    GivenTaken(dummy, run, i);
    var s, b := Exec(Empty(dummy), run), Books(NOTHING, Empty(dummy), run);
    var u := s.rq.given[i].urb;
    var taken := b.taken[u];
    assert forall j :: 0 <= j < |taken| ==> b.tds[u][j] == taken[j].td;
    assert TakenOf(b, u) == taken && forall j :: 0 <= j < |taken| ==> !taken[j].down;
    FirstFailure(b, s, u, taken, k);
  }

  /** The bytes of the entries taken off by the tokens they were taken off with. */
  function Noticed(taken: seq<Taken>): int
    decreases |taken|
  {
    if taken == [] then 0
    else
      var x := taken[|taken| - 1];
      Noticed(taken[..|taken| - 1]) + if x.td.pid == Setup then 0 else x.td.length - x.token.residue
  }

  lemma {:induction false} CancelledCounted(b: Book, s: State, u: Urb, taken: seq<Taken>)
    requires ListKept(b, s, u, taken)
    requires forall k :: 0 <= k < |taken| ==> !taken[k].down && (taken[k].unlinked || Clean(b, taken[k].td))
    ensures Outcome(taken) == InProgress && Counted(taken) == Noticed(taken)
    decreases |taken|
  {
    if taken != [] {
      var n := |taken| - 1;
      ShorterKept(b, s, u, taken);
      CancelledCounted(b, s, u, taken[..n]);
      assert TakenKept(b, s, u, Outcome(taken[..n]), taken[n]);
      assert taken[n].unlinked || Clean(b, taken[n].td);
    }
    hide ListKept;
  }

  /** Over any run, a request that has been cancelled before any descriptor of it failed is given back, with
      the root hub running, with the bytes that the tokens of its entries showed when they were taken off:
      those of their last Retire steps or, at an active one, of the overlay. */
  lemma CancelledCredit(dummy: nat, run: seq<Step>, i: nat)
    requires Legal(Empty(dummy), run) && i < |Exec(Empty(dummy), run).rq.given|
    requires var s, b := Exec(Empty(dummy), run), Books(NOTHING, Empty(dummy), run); var u := s.rq.given[i].urb;
      forall k :: 0 <= k < |TakenOf(b, u)| ==>
        !TakenOf(b, u)[k].down && (TakenOf(b, u)[k].unlinked || Clean(b, TakenOf(b, u)[k].td))
    ensures var s, b := Exec(Empty(dummy), run), Books(NOTHING, Empty(dummy), run); var g := s.rq.given[i];
      g.status == InProgress && g.actual == Noticed(TakenOf(b, g.urb))
  {
    hide Legal, Exec, Books, Outcome, Counted, ListKept, Clean, Noticed;
    GivenTaken(dummy, run, i);
    var s, b := Exec(Empty(dummy), run), Books(NOTHING, Empty(dummy), run);
    CancelledCounted(b, s, s.rq.given[i].urb, TakenOf(b, s.rq.given[i].urb));
  }

  /** Of a cancelled request a stopped queue loses the descriptor the controller was at, with the bytes the
      overlay shows if the queue head is idle and stands there, and those its own token shows otherwise. */
  lemma OverlayCredited(s: State)
    requires Enabled(s, DoVisit) && s.c.stopped && s.c.running && s.c.status == InProgress
    requires TokenOf(s.hw, s.l.todo[0].id).active && s.l.todo[0].urb in s.rq.unlinked
    ensures var s', td := Visit(s), s.l.todo[0];
      && s'.l == Lists(s.l.kept, Some(td), s.l.todo[1..], s.l.later) && s'.c.status == InProgress
      && Actual(s'.rq, td.urb) == Actual(s.rq, td.urb) +
           (if td.pid == Setup then 0
            else if s.c.idle && s.hw.overlay == Some(td.id) then td.length - s.hw.overlayToken.residue
            else td.length - TokenOf(s.hw, td.id).residue)
  {
    hide TokenOf, Patch;
  }
}
