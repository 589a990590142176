/** The driver's side of the asynchronous unlink protocol, in place.  Lists are threaded through the queue
    heads: `qh_next` holds the ring together, `unlink_next` both waiting lists.  Each method is a section of
    code that holds the lock; it keeps these pointers equal to the lists of the transition system, and
    leaves the state that the transition system says. */
module AsyncSchedule {
  import opened Wrappers
  import opened QueueLists
  import opened AsyncUnlink

  /** The links of the ring, which begins at its permanent head. */
  predicate ThreadsRing(next: map<Node, Option<Qh>>, list: seq<Qh>)
  {
    forall i :: 0 <= i <= |list| ==> After(next, NodeAt(list, i)) == EntryAt(list, i)
  }

  /** Both waiting lists.  Where nothing waits, `last` may name any queue head: it is not read before it
      is written.  Every list ends because a queue head on none of them leads nowhere. */
  ghost predicate ThreadsLists(
    first: Option<Qh>, last: Option<Qh>, iaa: Option<Qh>, next: map<Qh, Option<Qh>>, waiting: seq<Qh>, cycle: seq<Qh>)
  {
    && Threads(first, next, waiting) && Threads(iaa, next, cycle)
    && (waiting != [] ==> last == Some(waiting[|waiting| - 1]))
    && (forall q :: q !in waiting && q !in cycle ==> After(next, q) == None)
  }

  class AsyncSchedule {
    var qhNext: map<Node, Option<Qh>>
    var hwNext: map<Node, Node>
    var qhState: map<Qh, QhState>
    var unlinkNext: map<Qh, Option<Qh>>
    var unlinkCycle: map<Qh, nat>
    var asyncUnlink: Option<Qh>
    var asyncUnlinkLast: Option<Qh>
    var asyncIaa: Option<Qh>
    var asyncUnlinking: bool
    var asyncUnlinkCycle: nat
    var asyncUnlinksPending: bool   // FOTG210_HRTIMER_ASYNC_UNLINKS
    var ending: Option<Qh>
    var asyncCount: int
    var qhScanNext: Option<Qh>
    var doorbell: Doorbell
    var warned: bool
    ghost var held: set<Node>
    ghost var async: seq<Qh>
    ghost var waiting: seq<Qh>      // the list that begins at asyncUnlink
    ghost var cycle: seq<Qh>        // the list that begins at asyncIaa

    ghost function View(): State
      reads this`async, this`hwNext, this`qhState, this`waiting, this`cycle, this`asyncUnlinking, this`ending
      reads this`asyncCount, this`qhScanNext, this`doorbell, this`held, this`warned
    {
      State(async, hwNext, qhState, waiting, cycle, asyncUnlinking, ending, asyncCount, qhScanNext, doorbell, held,
        warned)
    }

    /** The pointers are the lists. */
    ghost predicate Threaded()
      reads this`qhNext, this`async, this`unlinkNext, this`asyncUnlink, this`asyncUnlinkLast, this`asyncIaa,
        this`waiting, this`cycle
    {
      ThreadsRing(qhNext, async) && ThreadsLists(asyncUnlink, asyncUnlinkLast, asyncIaa, unlinkNext, waiting, cycle)
    }

    /** The empty ring. */
    constructor ()
      ensures Threaded() && View() == Start()
    {
      async, waiting, cycle, held := [], [], [], {};
      qhNext, hwNext, qhState := map[Head := None], map[Head := Head], map[];
      unlinkNext, unlinkCycle := map[], map[];
      asyncUnlink, asyncUnlinkLast, asyncIaa, asyncUnlinking, ending := None, None, None, false, None;
      asyncUnlinkCycle, asyncUnlinksPending, asyncCount, qhScanNext := 0, false, 0, None;
      doorbell, warned := Quiet, false;
    }

    function Link(n: Node): Node
      reads this
    {
      if n in hwNext then hwNext[n] else Head
    }

    /** Between the permanent head and the first of the ring; its own links first, because the controller
        may be at the head. */
    method SpliceBehindHead(q: Qh)
      requires Threaded() && q !in async
      modifies this`qhNext, this`hwNext, this`async
      ensures Threaded() && async == [q] + old(async)
      ensures hwNext == old(hwNext)[At(q) := old(Link(Head))][Head := At(q)]
    {
      LinkThreads(qhNext, async, q);
      hide ThreadsLists, ThreadsRing;
      qhNext := qhNext[At(q) := After(qhNext, Head)];
      hwNext := hwNext[At(q) := Link(Head)];
      qhNext := qhNext[Head := Some(q)];
      hwNext := hwNext[Head := At(q)];
      async := [q] + async;
    }

    /** Put a queue head on the ring, unless a TT buffer has to be cleared for it. */
    method QhLinkAsync(q: Qh, clearing: bool)
      requires Threaded() && q !in async
      modifies this`qhNext, this`hwNext, this`async, this`qhState, this`asyncCount, this`warned
      ensures Threaded() && View() == AsyncUnlink.Link(old(View()), q, clearing)
      ensures clearing ==> async == old(async) && qhState == old(qhState) && asyncCount == old(asyncCount)
      ensures !clearing ==>
        async == [q] + old(async) && qhState == old(qhState)[q := Linked] && asyncCount == old(asyncCount) + 1
      ensures Linkable(old(View()), q) ==>
        && Core(View()) && warned == old(warned)
        && Population(View()) == Population(old(View())) + if clearing then multiset{} else multiset{q}
    {
      LinkMeans(View(), q, clearing);
      hide Threaded, Linkable, Core, Population;
      if clearing {
        return;
      }
      warned := warned || (q in qhState && qhState[q] != Idle);
      SpliceBehindHead(q);
      qhState := qhState[q := Linked];
      asyncCount := asyncCount + 1;
    }

    /** One queue head less; when none is left, nothing should be on the ring or wait. */
    method DisableAsync()
      requires Threaded()
      modifies this`asyncCount, this`warned
      ensures Threaded() && View() == AsyncUnlink.DisableAsync(old(View()))
      ensures asyncCount == old(asyncCount) - 1
    {
      asyncCount := asyncCount - 1;
      if asyncCount != 0 {
        return;
      }
      assert After(qhNext, NodeAt(async, 0)) == EntryAt(async, 0);
      if After(qhNext, Head).Some? || asyncUnlink.Some? {
        warned := true;
      }
    }

    /** Follow the ring from its head to the node before `q`. */
    method FindPrev(q: Qh) returns (prev: Node)
      requires Threaded() && q in async && Distinct(async)
      ensures prev == NodeAt(async, IndexOf(async, q))
    {
      prev := Head;
      ghost var i := 0;
      hide IndexOf;
      while After(qhNext, prev) != Some(q)
        invariant i <= IndexOf(async, q) && prev == NodeAt(async, i)
        decreases |async| - i
      {
        prev := At(After(qhNext, prev).value);
        i := i + 1;
      }
    }

    /** The queue head goes to the end of the waiting list. */
    method Append(q: Qh)
      requires Threaded() && q !in waiting && q !in cycle && Distinct(waiting) && Disjoint(waiting, cycle)
      modifies this`asyncUnlink, this`asyncUnlinkLast, this`unlinkNext, this`waiting
      ensures Threaded() && waiting == old(waiting) + [q]
    {
      AppendThreads(asyncUnlink, asyncUnlinkLast, asyncIaa, unlinkNext, waiting, cycle, q);
      hide ThreadsRing, ThreadsLists;
      if asyncUnlink.Some? {
        unlinkNext := unlinkNext[asyncUnlinkLast.value := Some(q)];
      } else {
        asyncUnlink := Some(q);
      }
      asyncUnlinkLast := Some(q);
      waiting := waiting + [q];
    }

    /** Out of the ring, in both lists; the scan's cursor goes on if it was there. */
    method TakeOut(q: Qh)
      requires Threaded() && q in async && Distinct(async)
      modifies this`qhNext, this`hwNext, this`qhScanNext, this`async
      ensures Threaded() && After(qhNext, At(q)) == old(After(qhNext, At(q)))
      ensures var s := old(View());
        View() == SingleUnlink(s, q).(asyncUnlink := s.asyncUnlink, qhState := s.qhState)
    {
      hide ThreadsLists, ThreadsRing, IndexOf;
      var prev := FindPrev(q);
      ghost var i := IndexOf(async, q);
      UnlinkThreads(qhNext, async, i);
      hwNext := hwNext[prev := Link(At(q))];
      qhNext := qhNext[prev := After(qhNext, At(q))];
      if qhScanNext == Some(q) {
        qhScanNext := After(qhNext, At(q));
      }
      async := async[..i] + async[i + 1..];
    }

    /** A linked queue head leaves the ring and waits for the next cycle. */
    method SingleUnlinkAsync(q: Qh)
      requires Threaded() && Placed(View()) && q in async
      modifies this`qhNext, this`hwNext, this`qhScanNext, this`async, this`qhState
      modifies this`asyncUnlink, this`asyncUnlinkLast, this`unlinkNext, this`waiting
      ensures Threaded() && View() == SingleUnlink(old(View()), q)
      ensures After(qhNext, At(q)) == old(After(qhNext, At(q)))
      ensures waiting == old(waiting) + [q] && qhState == old(qhState)[q := Unlink]
      ensures old(qhScanNext) != Some(q) ==> qhScanNext == old(qhScanNext)
      ensures old(qhScanNext) == Some(q) ==> exists i :: ComesAfter(old(async), i, q, qhScanNext)
    {
      hide Placed, ThreadsLists, ThreadsRing, IndexOf;
      ListsApart(View());
      SuccessorIs(async, q);
      hide Successor, ComesAfter;
      qhState := qhState[q := Unlink];
      Append(q);
      TakeOut(q);
    }

    /** Everything that waits goes into the next cycle, unless one is running. */
    method StartIaaCycle()
      requires Threaded()
      modifies this`asyncIaa, this`asyncUnlink, this`doorbell, this`waiting, this`cycle
      ensures Threaded() && View() == StartIaa(old(View())) && Population(View()) == Population(old(View()))
      ensures old(cycle == [] && !asyncUnlinking) ==> cycle == old(waiting) && waiting == [] && doorbell == Rung
      ensures old(cycle != [] || asyncUnlinking) ==> View() == old(View())
    {
      StartIaaPopulation(View());
      hide Population;
      if asyncIaa.Some? || asyncUnlinking {
        return;
      }
      asyncIaa := asyncUnlink;
      asyncUnlink := None;
      doorbell := Rung;
      cycle, waiting := waiting, [];
    }

    /** qh_state; a queue head that was never linked is idle. */
    predicate IsLinked(q: Qh)
      reads this`qhState
    {
      q in qhState && qhState[q] == Linked
    }

    /** Begin to unlink a queue head.  If it is linked it leaves the ring, the others keep their order, and
        unless a cycle is running or ending one is started with all that wait. */
    method StartUnlinkAsync(q: Qh)
      requires Threaded() && Inv(View())
      modifies this`qhNext, this`hwNext, this`qhScanNext, this`async, this`qhState, this`doorbell
      modifies this`asyncUnlink, this`asyncUnlinkLast, this`unlinkNext, this`waiting, this`asyncIaa, this`cycle
      ensures Threaded() && Inv(View()) && (StateOf(old(View()), q) == Linked ==> q in old(async))
      ensures View() == StartUnlink(old(View()), q)
      ensures !old(IsLinked(q)) ==> View() == old(View())
      ensures old(IsLinked(q)) ==>
        && q !in async && qhState == old(qhState)[q := Unlink]
        && exists i :: 0 <= i < |old(async)| && old(async)[i] == q && async == old(async[..i] + async[i + 1..])
      ensures old(IsLinked(q) && cycle == [] && !asyncUnlinking) ==>
        cycle == old(waiting) + [q] && waiting == [] && doorbell == Rung
      ensures old(IsLinked(q) && !(cycle == [] && !asyncUnlinking)) ==>
        cycle == old(cycle) && waiting == old(waiting) + [q] && doorbell == old(doorbell)
    {
      Fields();
      UnlinksOne(View(), q);
      StartUnlinkInv(View(), q);
      assert Placed(View());
      hide Inv, Threaded, Placed, IndexOf;
      if q !in qhState || qhState[q] != Linked {
        return;
      }
      SingleUnlinkAsync(q);
      StartIaaCycle();
    }

    /** Those of `empty` that a timer cycle has found empty before. */
    function Due(empty: set<Qh>): set<Qh>
      reads this`unlinkCycle, this`asyncUnlinkCycle
    {
      set q | q in empty && !Recent(q)
    }

    /** Found empty in the present cycle. */
    predicate Recent(q: Qh)
      reads this`unlinkCycle, this`asyncUnlinkCycle
    {
      (if q in unlinkCycle then unlinkCycle[q] else 0) == asyncUnlinkCycle
    }

    /** A linked and empty queue head that is not due. */
    predicate Spared(s: State, q: Qh, empty: set<Qh>)
      reads this`unlinkCycle, this`asyncUnlinkCycle
    {
      q in empty && StateOf(s, q) == Linked && Recent(q)
    }

    /** The timer has to come back for one of them. */
    ghost predicate SomeSpared(s: State, empty: set<Qh>)
      reads this`unlinkCycle, this`asyncUnlinkCycle
    {
      exists i :: 0 <= i < |s.async| && Spared(s, s.async[i], empty)
    }

    /** One queue head of the ring: unlinked if it is empty and due. */
    method UnlinkIfDue(q: Qh, empty: set<Qh>) returns (spared: bool)
      requires Threaded() && Placed(View()) && q in async
      modifies this`qhNext, this`hwNext, this`qhScanNext, this`async, this`qhState
      modifies this`asyncUnlink, this`asyncUnlinkLast, this`unlinkNext, this`waiting
      ensures Threaded()
      ensures View() ==
        if q in Due(empty) && StateOf(old(View()), q) == Linked then SingleUnlink(old(View()), q) else old(View())
      ensures spared == Spared(old(View()), q, empty)
    {
      hide Threaded, Placed, SingleUnlink;
      spared := false;
      if q in empty && q in qhState && qhState[q] == Linked {
        if Recent(q) {
          spared := true;
        } else {
          SingleUnlinkAsync(q);
        }
      }
    }

    /** Go through the ring and unlink those of `empty` that are due; `later`: some are not due yet. */
    method UnlinkDueOnes(empty: set<Qh>) returns (later: bool)
      requires Threaded() && Core(View()) && OnList(View(), View().async) && Distinct(View().async)
      modifies this`qhNext, this`hwNext, this`qhScanNext, this`async, this`qhState
      modifies this`asyncUnlink, this`asyncUnlinkLast, this`unlinkNext, this`waiting
      ensures Threaded() && View() == UnlinkDue(old(View()), old(View()).async, Due(empty))
      ensures later == SomeSpared(old(View()), empty)
    {
      hide Core, Threaded, Distinct, OnList, View, Due, Spared, InLoop, SingleUnlink;
      ghost var s, due := View(), Due(empty);
      LoopStarts(s, due);
      RingEntry(0);
      later := false;
      var next := After(qhNext, Head);
      ghost var k := 0;
      while next.Some?
        invariant k <= |s.async| && next == EntryAt(s.async, k)
        invariant Threaded() && InLoop(s, View(), k, due)
        invariant later == exists i :: 0 <= i < k && Spared(s, s.async[i], empty)
        decreases |s.async| - k
      {
        var q := next.value;
        LoopEntry(s, View(), k, due);
        LoopTurn(s, View(), k, due);
        SparedThen(s, View(), q, empty);
        RingEntry(|View().async| - (|s.async| - k) + 1);
        next := After(qhNext, At(q));
        var spared := UnlinkIfDue(q, empty);
        later := later || spared;
        k := k + 1;
      }
      LoopEnds(s, View(), due);
    }

    lemma SparedThen(s: State, s': State, q: Qh, empty: set<Qh>)
      requires StateOf(s', q) == StateOf(s, q)
      ensures Spared(s', q, empty) == Spared(s, q, empty) && (q in Due(empty) ==> !Spared(s, q, empty))
    {
    }

    predicate NothingWaits()
      requires Threaded()
      reads this
      ensures NothingWaits() <==> View().asyncUnlink == []
    {
      asyncUnlink.None?
    }

    lemma RingEntry(i: nat)
      requires Threaded() && i <= |View().async|
      ensures View().async == async && After(qhNext, NodeAt(View().async, i)) == EntryAt(View().async, i)
    {
    }

    /** The ring is gone through, and a cycle started for what waits then. */
    method UnlinkAndStart(empty: set<Qh>) returns (later: bool)
      requires Threaded() && Inv(View())
      modifies this`qhNext, this`hwNext, this`qhScanNext, this`async, this`qhState, this`doorbell
      modifies this`asyncUnlink, this`asyncUnlinkLast, this`unlinkNext, this`waiting, this`asyncIaa, this`cycle
      ensures Threaded() && Inv(View()) && Distinct(old(View()).async)
      ensures View() == UnlinkEmpty(old(View()), Due(empty))
      ensures later == SomeSpared(old(View()), empty)
    {
      hide Core, Counted, NotStranded, Threaded, Distinct, UnlinkDue, OnList, Due, SomeSpared, View, StartIaa;
      ghost var s := View();
      CoreLists(s);
      UnlinkEmptyInv(s, Due(empty));
      hide Inv;
      later := UnlinkDueOnes(empty);
      if !NothingWaits() {
        StartIaaCycle();
      }
    }

    /** The linked ones of `empty` that were not found empty in the present cycle. */
    function Leaving(empty: set<Qh>): set<Qh>
      reads this`unlinkCycle, this`asyncUnlinkCycle, this`qhState
    {
      set q | q in empty && IsLinked(q) && (if q in unlinkCycle then unlinkCycle[q] else 0) != asyncUnlinkCycle
    }

    lemma LeavingDue(empty: set<Qh>)
      ensures Leaving(empty) == set q | q in Due(empty) && StateOf(View(), q) == Linked
    {
    }

    /** What the state of the system says in fields. */
    lemma Fields()
      ensures View().async == async && View().asyncUnlink == waiting && View().asyncIaa == cycle
      ensures View().asyncUnlinking == asyncUnlinking && View().doorbell == doorbell
      ensures forall q :: IsLinked(q) <==> StateOf(View(), q) == Linked
    {
    }

    /** The ring is gone through, and the timer told to come back if some were spared. */
    method UnlinkAndCheck(empty: set<Qh>)
      requires Threaded() && Inv(View())
      modifies this`qhNext, this`hwNext, this`qhScanNext, this`async, this`qhState, this`doorbell
      modifies this`asyncUnlink, this`asyncUnlinkLast, this`unlinkNext, this`waiting, this`asyncIaa, this`cycle
      modifies this`asyncUnlinkCycle, this`asyncUnlinksPending
      ensures Threaded() && Inv(View()) && Distinct(old(View()).async)
      ensures View() == UnlinkEmpty(old(View()), old(Due(empty)))
      ensures var later := old(SomeSpared(View(), empty));
        && asyncUnlinksPending == (old(asyncUnlinksPending) || later)
        && asyncUnlinkCycle == if later then (old(asyncUnlinkCycle) + 1) % 0x1_0000_0000 else old(asyncUnlinkCycle)
    {
      hide Inv, Threaded, Distinct, UnlinkEmpty, Due, SomeSpared, View;
      var later := UnlinkAndStart(empty);
      if later {
        CheckLater();
      }
    }

    /** Unlink the queue heads with nothing queued, `empty`, that are due, and leave the other ones of them
        to another timer cycle.  Exactly those leave the ring, the others keep their order, and unless a
        cycle is running or ending one is started with all that wait. */
    method UnlinkEmptyAsync(empty: set<Qh>)
      requires Threaded() && Inv(View())
      modifies this`qhNext, this`hwNext, this`qhScanNext, this`async, this`qhState, this`doorbell
      modifies this`asyncUnlink, this`asyncUnlinkLast, this`unlinkNext, this`waiting, this`asyncIaa, this`cycle
      modifies this`asyncUnlinkCycle, this`asyncUnlinksPending
      ensures Threaded() && Inv(View()) && Distinct(old(View()).async)
      ensures View() == UnlinkEmpty(old(View()), old(Due(empty)))
      ensures async == Without(old(async), old(Leaving(empty)))
      ensures forall q :: IsLinked(q) <==> old(IsLinked(q)) && q !in old(Leaving(empty))
      ensures var gone := Among(old(async), old(Leaving(empty)));
        if old(waiting) + gone != [] && old(cycle == [] && !asyncUnlinking) then
          cycle == old(waiting) + gone && waiting == [] && doorbell == Rung
        else
          cycle == old(cycle) && waiting == old(waiting) + gone && doorbell == old(doorbell)
      ensures var later := old(SomeSpared(View(), empty));
        && asyncUnlinksPending == (old(asyncUnlinksPending) || later)
        && asyncUnlinkCycle == if later then (old(asyncUnlinkCycle) + 1) % 0x1_0000_0000 else old(asyncUnlinkCycle)
    {
      hide Inv, Threaded, Distinct, UnlinkEmpty, Due, SomeSpared, View, StateOf, Without, Among, Leaving, IsLinked;
      ghost var s := View();
      Fields();
      LeavingDue(empty);
      UnlinksAre(s, Due(empty));
      UnlinkAndCheck(empty);
      Fields();
    }

    /** Another timer cycle begins. */
    method CheckLater()
      modifies this`asyncUnlinkCycle, this`asyncUnlinksPending
      ensures asyncUnlinksPending && asyncUnlinkCycle == (old(asyncUnlinkCycle) + 1) % 0x1_0000_0000
    {
      asyncUnlinksPending := true;
      asyncUnlinkCycle := (asyncUnlinkCycle + 1) % 0x1_0000_0000;
    }

    /** Only idle queue heads are put on the ring. */
    method SubmitAsync(q: Qh, clearing: bool)
      requires Threaded() && Inv(View())
      modifies this`qhNext, this`hwNext, this`async, this`qhState, this`asyncCount, this`warned
      ensures Threaded() && Inv(View())
      ensures View() == Submit(old(View()), q, clearing)
      ensures old(q !in qhState || qhState[q] == Idle) && !clearing ==>
        async == [q] + old(async) && qhState == old(qhState)[q := Linked] && asyncCount == old(asyncCount) + 1
      ensures old(q in qhState && qhState[q] != Idle) || clearing ==> View() == old(View())
    {
      SubmitInv(View(), q, clearing);
      if StateOf(View(), q) == Idle { IdleNotListed(View(), q); }
      hide Inv, Threaded;
      if q !in qhState || qhState[q] == Idle {
        QhLinkAsync(q, clearing);
      }
    }

    /** STS_IAA. */
    method Irq()
      requires Threaded() && Inv(View()) && doorbell == Answered
      modifies this`doorbell, this`asyncUnlinking
      ensures Threaded() && Inv(View())
      ensures View() == Apply(old(View()), IaaInterrupt)
      ensures doorbell == Quiet && asyncUnlinking == (old(asyncUnlinking) || cycle != [])
    {
      StepInv(View(), IaaInterrupt);
      assert Threads(asyncIaa, unlinkNext, cycle);
      hide Inv, Threaded;
      doorbell := Quiet;
      if asyncIaa.Some? {
        asyncUnlinking := true;
      }
    }

    /** The first of the cycle's list leaves it; its links are cleared. */
    method TakeFirst() returns (q: Qh)
      requires Threaded() && Placed(View()) && cycle != []
      modifies this`asyncIaa, this`unlinkNext, this`qhNext, this`cycle
      ensures Threaded() && q == old(cycle)[0] && cycle == old(cycle)[1..]
      ensures After(unlinkNext, q) == None && After(qhNext, At(q)) == None
    {
      ListsApart(View());
      hide Placed, ThreadsRing, ThreadsLists;
      TakeThreads(asyncUnlink, asyncUnlinkLast, asyncIaa, unlinkNext, waiting, cycle);
      ClearThreads(qhNext, async, cycle[0]);
      q := asyncIaa.value;
      asyncIaa := After(unlinkNext, q);
      unlinkNext := unlinkNext[q := None];
      qhNext := qhNext[At(q) := None];
      cycle := cycle[1..];
    }

    /** end_unlink_async up to the completions of its next queue head, or to its end. */
    method EndUnlinkTake()
      requires Threaded() && Inv(View()) && asyncUnlinking && ending == None
      modifies this`asyncIaa, this`unlinkNext, this`qhNext, this`cycle, this`asyncUnlinking, this`ending, this`qhState
      modifies this`asyncUnlink, this`doorbell, this`waiting
      ensures Threaded() && Inv(View())
      ensures View() == TakeNext(old(View()))
      ensures old(cycle) != [] ==>
        && ending == Some(old(cycle)[0]) && cycle == old(cycle)[1..] && waiting == old(waiting)
        && qhState == old(qhState)[old(cycle)[0] := Completing(Idle)] && asyncUnlinking && doorbell == old(doorbell)
      ensures old(cycle) == [] ==>
        && ending == None && qhState == old(qhState) && !asyncUnlinking && cycle == old(waiting) && waiting == []
        && doorbell == if old(waiting) == [] then old(doorbell) else Rung
    {
      TakeNextInv(View());
      assert Placed(View());
      hide Inv, Threaded, Placed;
      if NoCycle() {
        EndCycle();
      } else {
        TakeOne();
      }
    }

    method TakeOne()
      requires Threaded() && Placed(View()) && cycle != []
      modifies this`asyncIaa, this`unlinkNext, this`qhNext, this`cycle, this`ending, this`qhState
      ensures Threaded() && View() == TakeNext(old(View()))
      ensures ending == Some(old(cycle)[0]) && cycle == old(cycle)[1..]
      ensures qhState == old(qhState)[old(cycle)[0] := Completing(Idle)]
    {
      hide Threaded, Placed;
      var q := TakeFirst();
      ending := Some(q);
      qhState := qhState[q := Completing(Idle)];
    }

    method EndCycle()
      requires Threaded() && cycle == []
      modifies this`asyncUnlinking, this`asyncIaa, this`asyncUnlink, this`doorbell, this`waiting, this`cycle
      ensures Threaded() && View() == TakeNext(old(View()))
      ensures !asyncUnlinking && cycle == old(waiting) && waiting == []
      ensures doorbell == if old(waiting) == [] then old(doorbell) else Rung
    {
      hide Threaded, StartIaa;
      asyncUnlinking := false;
      if !NothingWaits() {
        StartIaaCycle();
      }
    }

    predicate NoCycle()
      requires Threaded()
      reads this
      ensures NoCycle() <==> cycle == []
    {
      asyncIaa.None?
    }

    /** end_unlink_async after the completions; `more` when transfers were queued meanwhile. */
    method EndUnlinkFinish(more: bool, clearing: bool)
      requires Threaded() && Inv(View()) && ending.Some?
      modifies this`qhNext, this`hwNext, this`async, this`qhState, this`asyncCount, this`warned, this`ending
      ensures Threaded() && Inv(View())
      ensures View() == Finish(old(View()), more, clearing)
      ensures ending == None
      ensures more && !clearing ==>
        && async == [old(ending).value] + old(async) && asyncCount == old(asyncCount)
        && qhState == old(qhState)[old(ending).value := Linked]
      ensures !more || clearing ==>
        async == old(async) && asyncCount == old(asyncCount) - 1 && qhState == old(qhState)[old(ending).value := Idle]
    {
      hide Inv, Threaded, AsyncUnlink.Link, AsyncUnlink.DisableAsync, Linkable, Core, Population;
      FinishInv(View(), more, clearing);
      EndingNotListed(View());
      var q := ending.value;
      ending := None;
      qhState := qhState[q := Idle];
      if more {
        QhLinkAsync(q, clearing);
      }
      DisableAsync();
    }

    /** The scan of the ring: its cursor names the next queue head, because what it names now may be
        unlinked while completions have dropped the lock. */
    method ScanBegin()
      requires Threaded() && Inv(View())
      modifies this`qhScanNext
      ensures Threaded() && Inv(View()) && View() == Apply(old(View()), ScanStart)
      ensures qhScanNext == if async == [] then None else Some(async[0])
    {
      StepInv(View(), ScanStart);
      RingEntry(0);
      hide Inv, Threaded;
      qhScanNext := After(qhNext, Head);
    }

    method ScanOn() returns (q: Qh)
      requires Threaded() && Inv(View()) && qhScanNext.Some?
      modifies this`qhScanNext
      ensures Threaded() && Inv(View()) && View() == Apply(old(View()), ScanAdvance)
      ensures q == old(qhScanNext).value && q in async
      ensures exists i :: ComesAfter(async, i, q, qhScanNext)
    {
      q := qhScanNext.value;
      StepInv(View(), ScanAdvance);
      assert q in async;
      SuccessorIs(async, q);
      RingEntry(IndexOf(async, q) + 1);
      hide Inv, Threaded;
      qhScanNext := After(qhNext, At(q));
    }

    /** The scan has found a queue head empty. */
    method ScanEmptied(q: Qh)
      modifies this`unlinkCycle
      ensures Recent(q) && forall p :: p != q ==> Recent(p) == old(Recent(p))
    {
      unlinkCycle := unlinkCycle[q := asyncUnlinkCycle];
    }

    /** The end of a scan that has: the timer will come back for it, and if it was not on its way, what is
        empty now is due then. */
    method ScanEnd()
      modifies this`asyncUnlinkCycle, this`asyncUnlinksPending
      ensures asyncUnlinksPending
      ensures !old(asyncUnlinksPending) ==> forall q :: old(Recent(q)) ==> !Recent(q)
      ensures old(asyncUnlinksPending) ==> asyncUnlinkCycle == old(asyncUnlinkCycle)
    {
      if !asyncUnlinksPending {
        CheckLater();
      }
    }
  }

  /** An idle queue head, between two statements of the driver. */
  ghost predicate Linkable(s: State, q: Qh)
  {
    Core(s) && StateOf(s, q) == Idle
  }

  /** Linked, it is in its one place, and no warning fires. */
  lemma LinkMeans(s: State, q: Qh, clearing: bool)
    ensures Linkable(s, q) ==>
      var s' := AsyncUnlink.Link(s, q, clearing);
      && Core(s') && s'.warned == s.warned
      && Population(s') == Population(s) + if clearing then multiset{} else multiset{q}
  {
    hide Core, Population;
    if Linkable(s, q) && !clearing {
      LinkCore(s, q);
    }
  }

  lemma UnlinksAre(s: State, due: set<Qh>)
    requires Inv(s)
    ensures Distinct(s.async)
    ensures var s' := UnlinkEmpty(s, due); var gone := set q | q in due && StateOf(s, q) == Linked;
      && s'.async == Without(s.async, gone) && Awaits(s, s', Among(s.async, gone))
      && forall q :: StateOf(s', q) == if q in gone then Unlink else StateOf(s, q)
  {
    CoreLists(s);
    UnlinksEmpty(s, due);
    hide Inv;
  }

  /** `q` is entry `i`, and `next` the one after it, if there is one. */
  predicate ComesAfter(list: seq<Qh>, i: int, q: Qh, next: Option<Qh>)
  {
    0 <= i < |list| && list[i] == q && next == if i + 1 < |list| then Some(list[i + 1]) else None
  }

  lemma SuccessorIs(list: seq<Qh>, q: Qh)
    requires q in list
    ensures exists i :: ComesAfter(list, i, q, Successor(list, q))
  {
    assert ComesAfter(list, IndexOf(list, q), q, Successor(list, q));
  }

  lemma IdleNotListed(s: State, q: Qh)
    requires Inv(s) && StateOf(s, q) == Idle
    ensures q !in s.async
  {
    assert StateFits(s, q);
  }

  lemma EndingNotListed(s: State)
    requires Inv(s) && s.ending.Some?
    ensures s.ending.value !in s.async
  {
    assert Population(s)[s.ending.value] <= 1;
  }

  lemma TakeThreads(
    first: Option<Qh>, last: Option<Qh>, iaa: Option<Qh>, next: map<Qh, Option<Qh>>, waiting: seq<Qh>, cycle: seq<Qh>)
    requires ThreadsLists(first, last, iaa, next, waiting, cycle)
    requires cycle != [] && Distinct(cycle) && Disjoint(waiting, cycle)
    ensures iaa == Some(cycle[0])
    ensures ThreadsLists(first, last, After(next, cycle[0]), next[cycle[0] := None], waiting, cycle[1..])
  {
    var next', rest := next[cycle[0] := None], cycle[1..];
    forall i | 0 <= i < |waiting|
      ensures After(next', waiting[i]) == EntryAt(waiting, i + 1)
    {
      assert waiting[i] in waiting;
    }
    assert forall i :: 0 <= i < |rest| ==> rest[i] == cycle[i + 1];
    forall i | 0 <= i < |rest|
      ensures After(next', rest[i]) == EntryAt(rest, i + 1)
    {
      assert After(next, cycle[i + 1]) == EntryAt(cycle, i + 2);
    }
    forall q | q !in waiting && q !in rest
      ensures After(next', q) == None
    {
      assert q in cycle ==> q == cycle[0];
    }
    assert After(next, cycle[0]) == EntryAt(rest, 0) by { assert After(next, cycle[0]) == EntryAt(cycle, 1); }
  }

  lemma ClearThreads(next: map<Node, Option<Qh>>, list: seq<Qh>, q: Qh)
    requires ThreadsRing(next, list) && q !in list
    ensures ThreadsRing(next[At(q) := None], list)
  {
    forall i | 0 <= i <= |list|
      ensures After(next[At(q) := None], NodeAt(list, i)) == EntryAt(list, i)
    {
      assert After(next, NodeAt(list, i)) == EntryAt(list, i);
    }
  }

  // ---- the loop of unlink_empty_async ----

  /** After `k` turns over the ring of `s`: what is still to come is the end of the present ring, in the
      state it was in. */
  ghost predicate InLoop(s: State, s': State, k: nat, due: set<Qh>)
    requires k <= |s.async|
  {
    var todo := s.async[k..];
    && Core(s') && Distinct(s.async) && OnList(s, s.async) && OnList(s', todo)
    && UnlinkDue(s', todo, due) == UnlinkDue(s, s.async, due)
    && |todo| <= |s'.async| && s'.async[|s'.async| - |todo|..] == todo
    && forall q :: q in todo ==> StateOf(s', q) == StateOf(s, q)
  }

  lemma LoopStarts(s: State, due: set<Qh>)
    requires Core(s) && Distinct(s.async) && OnList(s, s.async)
    ensures InLoop(s, s, 0, due)
  {
    assert s.async[0..] == s.async;
    hide Core, UnlinkDue, OnList, Distinct;
  }

  lemma LoopEnds(s: State, s': State, due: set<Qh>)
    requires InLoop(s, s', |s.async|, due)
    ensures OnList(s, s.async) && Distinct(s.async) && s' == UnlinkDue(s, s.async, due)
  {
    hide Core;
  }

  lemma CoreLists(s: State)
    requires Inv(s)
    ensures Core(s) && OnList(s, s.async) && Distinct(s.async)
  {
    ListDistinct(s);
    hide Ring, Contained;
  }

  /** One turn: the next entry is unlinked if it is due. */
  lemma LoopTurn(s: State, s': State, k: nat, due: set<Qh>)
    requires k < |s.async| && InLoop(s, s', k, due)
    ensures var q := s.async[k];
      if q in due && StateOf(s', q) == Linked then q in s'.async && InLoop(s, SingleUnlink(s', q), k + 1, due)
      else InLoop(s, s', k + 1, due)
  {
    hide Core, SingleUnlink, StateOf;
    var q, todo := s.async[k], s.async[k..];
    LoopEntry(s, s', k, due);
    assert todo[0] == q && todo[1..] == s.async[k + 1..] && Distinct(todo);
    if q in due && StateOf(s', q) == Linked {
      UnlinkCore(s', q);
      OnListNext(s', todo);
      TakenFromEnd(s', q, |todo|);
    } else {
      assert s'.async[|s'.async| - |todo|..][1..] == s'.async[|s'.async| - |todo| + 1..];
    }
  }

  lemma TakenFromEnd(s: State, q: Qh, n: nat)
    requires Distinct(s.async) && 0 < n <= |s.async| && s.async[|s.async| - n] == q
    ensures var s' := SingleUnlink(s, q);
      |s'.async| == |s.async| - 1 && s'.async[|s'.async| - (n - 1)..] == s.async[|s.async| - n..][1..]
    ensures forall p :: p != q ==> StateOf(SingleUnlink(s, q), p) == StateOf(s, p)
  {
    assert IndexOf(s.async, q) == |s.async| - n;
  }

  /** The next entry is on the ring. */
  lemma LoopEntry(s: State, s': State, k: nat, due: set<Qh>)
    requires k < |s.async| && InLoop(s, s', k, due)
    ensures var j := |s'.async| - (|s.async| - k); 0 <= j < |s'.async| && s'.async[j] == s.async[k]
    ensures s.async[k] in s'.async && StateOf(s', s.async[k]) == StateOf(s, s.async[k])
    ensures var j := |s'.async| - (|s.async| - k); EntryAt(s'.async, j + 1) == EntryAt(s.async, k + 1)
    ensures Placed(s') && Distinct(s'.async)
  {
    ListDistinct(s');
    var todo, j := s.async[k..], |s'.async| - (|s.async| - k);
    assert s'.async[j..][0] == todo[0];
    if k + 1 < |s.async| {
      assert s'.async[j..][1] == todo[1];
    }
    hide Placed, Ring, UnlinkDue, OnList, Distinct, Contained;
  }

  /** No entry of one list is on the other. */
  predicate Disjoint(a: seq<Qh>, b: seq<Qh>)
  {
    forall q :: q in a ==> q !in b
  }

  lemma ListsApart(s: State)
    requires Placed(s)
    ensures Distinct(s.async) && Distinct(s.asyncUnlink) && Distinct(s.asyncIaa)
    ensures Disjoint(s.async, s.asyncUnlink) && Disjoint(s.async, s.asyncIaa) && Disjoint(s.asyncUnlink, s.asyncIaa)
  {
    ListDistinct(s);
    forall i, j | 0 <= i < j < |s.asyncUnlink|
      ensures s.asyncUnlink[i] != s.asyncUnlink[j]
    {
      assert Population(s)[s.asyncUnlink[i]] <= 1;
      Apart(s.asyncUnlink, i, j);
    }
    forall i, j | 0 <= i < j < |s.asyncIaa|
      ensures s.asyncIaa[i] != s.asyncIaa[j]
    {
      assert Population(s)[s.asyncIaa[i]] <= 1;
      Apart(s.asyncIaa, i, j);
    }
    forall q | q in s.async || q in s.asyncUnlink
      ensures Population(s)[q] <= 1
    {
    }
  }

  lemma AppendThreads(
    first: Option<Qh>, last: Option<Qh>, iaa: Option<Qh>, next: map<Qh, Option<Qh>>, waiting: seq<Qh>, cycle: seq<Qh>,
      q: Qh)
    requires ThreadsLists(first, last, iaa, next, waiting, cycle)
    requires q !in waiting && q !in cycle && Distinct(waiting) && Disjoint(waiting, cycle)
    ensures first.Some? <==> waiting != []
    ensures first.Some? ==> last.Some?
    ensures var next' := if first.Some? then next[last.value := Some(q)] else next;
      ThreadsLists(if first.Some? then first else Some(q), Some(q), iaa, next', waiting + [q], cycle)
  {
    var next' := if first.Some? then next[last.value := Some(q)] else next;
    var n := |waiting|;
    assert waiting != [] ==> last.value in waiting;
    forall i | 0 <= i <= n
      ensures After(next', (waiting + [q])[i]) == EntryAt(waiting + [q], i + 1)
    {
      assert i < n ==> After(next, waiting[i]) == EntryAt(waiting, i + 1);
    }
    forall i | 0 <= i < |cycle|
      ensures After(next', cycle[i]) == EntryAt(cycle, i + 1)
    {
      assert After(next, cycle[i]) == EntryAt(cycle, i + 1);
      assert cycle[i] in cycle;
    }
  }

  lemma LinkThreads(next: map<Node, Option<Qh>>, list: seq<Qh>, q: Qh)
    requires ThreadsRing(next, list) && q !in list
    ensures ThreadsRing(next[At(q) := After(next, Head)][Head := Some(q)], [q] + list)
  {
    var next' := next[At(q) := After(next, Head)][Head := Some(q)];
    forall i | 0 <= i <= |[q] + list|
      ensures After(next', NodeAt([q] + list, i)) == EntryAt([q] + list, i)
    {
      if i > 0 {
        assert After(next, NodeAt(list, i - 1)) == EntryAt(list, i - 1);
      }
    }
  }

  lemma UnlinkThreads(next: map<Node, Option<Qh>>, list: seq<Qh>, i: nat)
    requires ThreadsRing(next, list) && i < |list| && Distinct(list)
    ensures ThreadsRing(next[NodeAt(list, i) := After(next, At(list[i]))], list[..i] + list[i + 1..])
    ensures After(next, At(list[i])) == EntryAt(list, i + 1) && NodeAt(list, i) != At(list[i])
  {
    var list', next' := list[..i] + list[i + 1..], next[NodeAt(list, i) := After(next, At(list[i]))];
    assert After(next, NodeAt(list, i + 1)) == EntryAt(list, i + 1);
    forall k | 0 <= k <= |list'|
      ensures After(next', NodeAt(list', k)) == EntryAt(list', k)
    {
      var j := if k <= i then k else k + 1;
      assert After(next, NodeAt(list, j)) == EntryAt(list, j);
      assert NodeAt(list', k) == NodeAt(list, j);
    }
  }
}
