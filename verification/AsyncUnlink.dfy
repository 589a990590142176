/** The asynchronous schedule and its unlink protocol, as a transition system: the driver's locked
    sections, the controller that walks the ring of queue heads behind its back, and completions,
    during which the lock is dropped and any other step may happen.  The controller is running. */
module AsyncUnlink {
  import opened Wrappers

  type Qh = nat

  /** What a hardware link of the ring names: the permanent head, or a queue head. */
  datatype Node = Head | At(qh: Qh)

  /** State of a queue head; `Completing` remembers the state qh_completions will put back. */
  datatype QhState = Idle | Linked | Unlink | Completing(was: QhState)

  /** The doorbell: rung by IAAD, answered by the controller with STS_IAA. */
  datatype Doorbell = Quiet | Rung | Answered

  datatype State = State(
    async: seq<Qh>,            // the software list behind the head
    hwNext: map<Node, Node>,   // hw->hw_next of the head and of every queue head ever linked
    qhState: map<Qh, QhState>,
    asyncUnlink: seq<Qh>,      // waiting for the next IAA cycle
    asyncIaa: seq<Qh>,         // waiting for the current one
    asyncUnlinking: bool,      // end_unlink_async is running
    ending: Option<Qh>,        // its queue head, while its completions run
    asyncCount: int,
    scanNext: Option<Qh>,      // qh_scan_next
    doorbell: Doorbell,
    held: set<Node>,           // what the controller may have cached
    warned: bool)              // some WARN_ON has fired

  function StateOf(s: State, q: Qh): QhState
  {
    if q in s.qhState then s.qhState[q] else Idle
  }

  /** Where a node's hardware link leads; a link never written leads to the head. */
  function Next(s: State, n: Node): Node
  {
    if n in s.hwNext then s.hwNext[n] else Head
  }

  /** Node `i` of the ring: the head, the list, and the head again. */
  function NodeAt(list: seq<Qh>, i: nat): Node
    requires i <= |list| + 1
  {
    if 0 < i <= |list| then At(list[i - 1]) else Head
  }

  function IndexOf(list: seq<Qh>, q: Qh): (i: nat)
    requires q in list
    ensures i < |list| && list[i] == q
  {
    if list[0] == q then 0 else 1 + IndexOf(list[1..], q)
  }

  /** Every place a queue head that is not idle can be in, with repetitions counted. */
  function Population(s: State): multiset<Qh>
  {
    multiset(s.async) + multiset(s.asyncUnlink) + multiset(s.asyncIaa)
    + (if s.ending.Some? then multiset{s.ending.value} else multiset{})
  }

  ghost predicate Once(m: multiset<Qh>)
  {
    forall q :: m[q] <= 1
  }

  /** The state a queue head is in is the one its place calls for. */
  predicate StateFits(s: State, q: Qh)
  {
    var st := StateOf(s, q);
    if q in s.async then st == Linked || st == Completing(Linked)
    else if q in s.asyncUnlink || q in s.asyncIaa then st == Unlink
    else if s.ending == Some(q) then st == Completing(Idle)
    else st == Idle || st == Completing(Idle)
  }

  /** Each queue head that is not idle is in exactly one place. */
  ghost predicate Placed(s: State)
  {
    Once(Population(s)) && forall q :: StateFits(s, q)
  }

  /** The hardware ring mirrors the software list. */
  ghost predicate Ring(s: State)
  {
    forall i: nat :: i <= |s.async| ==> Follows(s, i)
  }

  predicate Follows(s: State, i: nat)
    requires i <= |s.async|
  {
    Next(s, NodeAt(s.async, i)) == NodeAt(s.async, i + 1)
  }

  /** The node is the head, on the ring, or unlinked after the doorbell was last rung. */
  predicate Reachable(s: State, n: Node)
  {
    n == Head || n.qh in s.async || n.qh in s.asyncUnlink
  }

  /** Before the doorbell is answered the controller may also go to what is being unlinked. */
  predicate Touchable(s: State, n: Node)
  {
    Reachable(s, n) || (s.doorbell == Rung && n.qh in s.asyncIaa)
  }

  /** Where links of unlinked queue heads lead. */
  ghost predicate Contained(s: State)
  {
    && (forall q :: q in s.asyncUnlink ==> Reachable(s, Next(s, At(q))))
    && (s.doorbell == Rung ==> forall q :: q in s.asyncIaa ==> Touchable(s, Next(s, At(q))))
    && (forall n :: n in s.held ==> Touchable(s, n))
  }

  /** The doorbell is out exactly while the cycle's list waits for it. */
  predicate Protocol(s: State)
  {
    && (s.doorbell != Quiet <==> s.asyncIaa != [] && !s.asyncUnlinking)
    && (s.ending.Some? ==> s.asyncUnlinking)
  }

  /** No unlink is stranded: a cycle is running, or will be started when the running one ends. */
  predicate NotStranded(s: State)
  {
    s.asyncUnlink != [] ==> s.asyncIaa != [] || s.asyncUnlinking
  }

  /** The scan's cursor never names a queue head that has left the list. */
  predicate ScanOk(s: State)
  {
    s.scanNext.Some? ==> s.scanNext.value in s.async
  }

  /** What holds between any two statements that hold the lock. */
  ghost predicate Core(s: State)
  {
    Ring(s) && Placed(s) && Contained(s) && Protocol(s) && ScanOk(s)
  }

  /** async_count is the number of queue heads that are not idle. */
  predicate Counted(s: State)
  {
    s.asyncCount == |Population(s)|
  }

  ghost predicate Inv(s: State)
  {
    Core(s) && Counted(s) && NotStranded(s) && !s.warned
  }

  predicate Distinct(list: seq<Qh>)
  {
    forall i, j :: 0 <= i < j < |list| ==> list[i] != list[j]
  }

  lemma ListDistinct(s: State)
    requires Placed(s)
    ensures Distinct(s.async)
  {
    forall i, j | 0 <= i < j < |s.async|
      ensures s.async[i] != s.async[j]
    {
      assert Population(s)[s.async[i]] <= 1;
      Apart(s.async, i, j);
    }
  }

  lemma Apart(list: seq<Qh>, i: nat, j: nat)
    requires i < j < |list| && multiset(list)[list[i]] <= 1
    ensures list[i] != list[j]
  {
    assert list == list[..i + 1] + list[i + 1..];
    assert list[i] in list[..i + 1];
    assert list[j] in list[i + 1..];
  }

  /** The entry after `q` in the software list. */
  function Successor(list: seq<Qh>, q: Qh): Option<Qh>
    requires q in list
  {
    var i := IndexOf(list, q);
    if i + 1 < |list| then Some(list[i + 1]) else None
  }

  /** single_unlink_async: to the end of the waiting list, and out of both lists of the ring.  The
      queue head keeps its own hardware link. */
  function SingleUnlink(s: State, q: Qh): State
    requires q in s.async
  {
    var i := IndexOf(s.async, q);
    s.(qhState := s.qhState[q := Unlink],
       asyncUnlink := s.asyncUnlink + [q],
       async := s.async[..i] + s.async[i + 1..],
       hwNext := s.hwNext[NodeAt(s.async, i) := Next(s, At(q))],
       scanNext := if s.scanNext == Some(q) then Successor(s.async, q) else s.scanNext)
  }

  /** start_iaa_cycle. */
  function StartIaa(s: State): State
  {
    if s.asyncIaa != [] || s.asyncUnlinking then s
    else s.(asyncIaa := s.asyncUnlink, asyncUnlink := [], doorbell := Rung)
  }

  /** start_unlink_async; for a queue head in completion only needs_rescan is set. */
  function StartUnlink(s: State, q: Qh): State
    requires StateOf(s, q) == Linked ==> q in s.async
  {
    if StateOf(s, q) != Linked then s else StartIaa(SingleUnlink(s, q))
  }

  /** Linked queue heads of `todo` are on the list. */
  ghost predicate OnList(s: State, todo: seq<Qh>)
  {
    forall q :: q in todo && StateOf(s, q) == Linked ==> q in s.async
  }

  lemma OnListNext(s: State, todo: seq<Qh>)
    requires todo != [] && Distinct(todo) && OnList(s, todo) && todo[0] in s.async
    ensures OnList(SingleUnlink(s, todo[0]), todo[1..])
  {
    var s' := SingleUnlink(s, todo[0]);
    var k := IndexOf(s.async, todo[0]);
    forall q | q in todo[1..] && StateOf(s', q) == Linked
      ensures q in s'.async
    {
      assert q != todo[0];
      var i := IndexOf(s.async, q);
      assert s'.async[if i < k then i else i - 1] == q;
    }
  }

  /** The loop of unlink_empty_async over the list `todo`: unlink those that are due. */
  ghost function UnlinkDue(s: State, todo: seq<Qh>, due: set<Qh>): State
    requires Distinct(todo) && OnList(s, todo)
    decreases |todo|
  {
    if todo == [] then s
    else if todo[0] in due && StateOf(s, todo[0]) == Linked then
      var s' := SingleUnlink(s, todo[0]);
      OnListNext(s, todo);
      UnlinkDue(s', todo[1..], due)
    else UnlinkDue(s, todo[1..], due)
  }

  /** unlink_empty_async, when those in `due` have nothing queued and had nothing at the last turn of the
      timer. */
  ghost function UnlinkEmpty(s: State, due: set<Qh>): State
    requires Distinct(s.async)
  {
    var s' := UnlinkDue(s, s.async, due);
    if s'.asyncUnlink != [] then StartIaa(s') else s'
  }

  /** qh_link_async: right after the head.  Nothing happens while a TT buffer is being cleared. */
  function Link(s: State, q: Qh, clearing: bool): State
  {
    if clearing then s
    else
      s.(async := [q] + s.async,
         hwNext := s.hwNext[At(q) := Next(s, Head)][Head := At(q)],
         qhState := s.qhState[q := Linked],
         asyncCount := s.asyncCount + 1,
         warned := s.warned || StateOf(s, q) != Idle)
  }

  /** submit_async and the end of a TT buffer clear link idle queue heads only. */
  function Submit(s: State, q: Qh, clearing: bool): State
  {
    if StateOf(s, q) == Idle then Link(s, q, clearing) else s
  }

  /** The head of the loop of end_unlink_async: take the next queue head, or finish. */
  function TakeNext(s: State): State
  {
    if s.asyncIaa != [] then
      var q := s.asyncIaa[0];
      s.(asyncIaa := s.asyncIaa[1..], ending := Some(q), qhState := s.qhState[q := Completing(Idle)])
    else
      var s' := s.(asyncUnlinking := false);
      if s'.asyncUnlink != [] then StartIaa(s') else s'
  }

  /** The rest of the loop's body, when completions have returned: link again if transfers were
      queued meanwhile, and disable_async. */
  function Finish(s: State, more: bool, clearing: bool): State
    requires s.ending.Some?
  {
    var q := s.ending.value;
    var s' := s.(ending := None, qhState := s.qhState[q := Idle]);
    var s'' := if more then Link(s', q, clearing) else s';
    DisableAsync(s'')
  }

  /** disable_async: when the count drops to zero nothing may be left on the ring or waiting. */
  function DisableAsync(s: State): State
  {
    s.(asyncCount := s.asyncCount - 1,
       warned := s.warned || (s.asyncCount == 1 && (s.async != [] || s.asyncUnlink != [])))
  }

  datatype Step =
    | DoSubmit(q: Qh, clearing: bool)
    | DoStartUnlink(q: Qh)
    | DoUnlinkEmpty(due: set<Qh>)
    | BeginCompletions(q: Qh)
    | EndCompletions(q: Qh)
    | ScanStart
    | ScanAdvance
    | IaaInterrupt
    | DoTakeNext
    | DoFinish(more: bool, clearing: bool)
    // the controller
    | Fetch(n: Node)
    | Drop(n: Node)
    | Answer

  /** When a step can be taken.  The controller goes on from the head or from a node it holds, and
      answers the doorbell once it holds none of the queue heads that were unlinked before it rang. */
  predicate Enabled(s: State, step: Step)
  {
    match step
    case BeginCompletions(q) => StateOf(s, q) == Linked || StateOf(s, q) == Idle
    case EndCompletions(q) => StateOf(s, q).Completing? && s.ending != Some(q)
    case ScanAdvance => s.scanNext.Some?
    case IaaInterrupt => s.doorbell == Answered
    case DoTakeNext => s.asyncUnlinking && s.ending == None
    case DoFinish(_, _) => s.ending.Some?
    case Fetch(n) => n == Head || n in s.held
    case Answer => s.doorbell == Rung && forall q :: q in s.asyncIaa ==> At(q) !in s.held
    case _ => true
  }

  ghost function Apply(s: State, step: Step): State
    requires Inv(s) && Enabled(s, step)
  {
    ListDistinct(s);
    assert step.DoStartUnlink? ==> StateFits(s, step.q);
    match step
    case DoSubmit(q, clearing) => Submit(s, q, clearing)
    case DoStartUnlink(q) => StartUnlink(s, q)
    case DoUnlinkEmpty(due) => UnlinkEmpty(s, due)
    case BeginCompletions(q) => s.(qhState := s.qhState[q := Completing(StateOf(s, q))])
    case EndCompletions(q) => s.(qhState := s.qhState[q := StateOf(s, q).was])
    case ScanStart => s.(scanNext := if s.async != [] then Some(s.async[0]) else None)
    case ScanAdvance => s.(scanNext := Successor(s.async, s.scanNext.value))
    case IaaInterrupt =>
      if s.asyncIaa != [] then s.(doorbell := Quiet, asyncUnlinking := true) else s.(doorbell := Quiet)
    case DoTakeNext => TakeNext(s)
    case DoFinish(more, clearing) => Finish(s, more, clearing)
    case Fetch(n) => s.(held := s.held + {Next(s, n)})
    case Drop(n) => s.(held := s.held - {n})
    case Answer => s.(doorbell := Answered)
  }

  lemma TakenOut(list: seq<Qh>, i: nat)
    requires i < |list|
    ensures multiset(list[..i] + list[i + 1..]) + multiset{list[i]} == multiset(list)
  {
    assert list == list[..i] + [list[i]] + list[i + 1..];
  }

  lemma TakenOutMembers(list: seq<Qh>, i: nat, q: Qh)
    requires i < |list| && Distinct(list)
    ensures q in list[..i] + list[i + 1..] <==> q in list && q != list[i]
  {
    var rest := list[..i] + list[i + 1..];
    if q in list && q != list[i] {
      var k := IndexOf(list, q);
      assert rest[if k < i then k else k - 1] == q;
    }
    if q in rest {
      var k := IndexOf(rest, q);
      assert list[if k < i then k else k + 1] == q;
    }
  }

  lemma UnlinkPopulation(s: State, q: Qh)
    requires q in s.async
    ensures Population(SingleUnlink(s, q)) == Population(s)
  {
    TakenOut(s.async, IndexOf(s.async, q));
    var s' := SingleUnlink(s, q);
    Moved(multiset(s'.async), multiset(s.async), multiset(s'.asyncUnlink), multiset(s.asyncUnlink), q);
    assert s'.asyncIaa == s.asyncIaa && s'.ending == s.ending;
    hide SingleUnlink;
  }

  lemma Moved(a': multiset<Qh>, a: multiset<Qh>, b': multiset<Qh>, b: multiset<Qh>, q: Qh)
    requires a' + multiset{q} == a && b' == b + multiset{q}
    ensures a' + b' == a + b
  {
  }

  /** Membership in the lists after q moved from the ring to the waiting list. */
  lemma UnlinkMembers(s: State, q: Qh, p: Qh)
    requires q in s.async && Distinct(s.async)
    ensures var s' := SingleUnlink(s, q);
      (p in s'.async <==> p in s.async && p != q) && (p in s'.asyncUnlink <==> p in s.asyncUnlink || p == q)
  {
    TakenOutMembers(s.async, IndexOf(s.async, q), p);
  }

  /** single_unlink_async keeps every place accounted for. */
  lemma UnlinkPlaced(s: State, q: Qh)
    requires Placed(s) && q in s.async && StateOf(s, q) == Linked && Distinct(s.async)
    ensures Placed(SingleUnlink(s, q))
  {
    var s' := SingleUnlink(s, q);
    UnlinkPopulation(s, q);
    hide Once;
    forall p
      ensures StateFits(s', p)
    {
      assert StateFits(s, p);
      UnlinkMembers(s, q, p);
      assert StateOf(s', p) == if p == q then Unlink else StateOf(s, p);
      hide SingleUnlink, StateOf, Population;
    }
  }

  lemma UnlinkRing(s: State, q: Qh)
    requires Ring(s) && q in s.async && Distinct(s.async)
    ensures Ring(SingleUnlink(s, q))
  {
    var s' := SingleUnlink(s, q);
    var k := IndexOf(s.async, q);
    assert Follows(s, k + 1);
    forall i: nat | i <= |s'.async|
      ensures Follows(s', i)
    {
      assert Follows(s, if i <= k then i else i + 1);
    }
  }

  lemma UnlinkContained(s: State, q: Qh)
    requires Ring(s) && Contained(s) && q in s.async && Distinct(s.async)
    ensures Contained(SingleUnlink(s, q))
  {
    var s' := SingleUnlink(s, q);
    var k := IndexOf(s.async, q);
    assert Follows(s, k) && Follows(s, k + 1);
    forall n | Reachable(s, n)
      ensures Reachable(s', n)
    {
      if n != Head { TakenOutMembers(s.async, k, n.qh); }
    }
  }

  /** The cursor moves on when the queue head under it is unlinked. */
  lemma UnlinkScan(s: State, q: Qh)
    requires ScanOk(s) && q in s.async && Distinct(s.async)
    ensures ScanOk(SingleUnlink(s, q))
  {
    var s' := SingleUnlink(s, q);
    if s'.scanNext.Some? {
      TakenOutMembers(s.async, IndexOf(s.async, q), s'.scanNext.value);
    }
  }

  lemma UnlinkCore(s: State, q: Qh)
    requires Core(s) && StateOf(s, q) == Linked
    ensures q in s.async && Core(SingleUnlink(s, q)) && SingleUnlink(s, q).asyncUnlink != []
    ensures Counted(SingleUnlink(s, q)) == Counted(s)
  {
    assert StateFits(s, q);
    ListDistinct(s);
    UnlinkPopulation(s, q);
    UnlinkPlaced(s, q);
    UnlinkRing(s, q);
    UnlinkContained(s, q);
    UnlinkScan(s, q);
    hide Ring, Placed, Contained, ScanOk, Population;
  }

  /** Starting a cycle loses no queue head: the list it would overwrite is empty. */
  lemma StartIaaPopulation(s: State)
    ensures Population(StartIaa(s)) == Population(s)
  {
  }

  lemma StartIaaInv(s: State)
    requires Core(s) && s.asyncUnlink != []
    ensures Core(StartIaa(s)) && NotStranded(StartIaa(s)) && Counted(StartIaa(s)) == Counted(s)
  {
    StartIaaPopulation(s);
    var s' := StartIaa(s);
    forall q
      ensures StateFits(s', q)
    {
      assert StateFits(s, q);
    }
    assert forall i: nat :: i <= |s.async| ==> Follows(s, i) ==> Follows(s', i);
  }

  lemma SubmitInv(s: State, q: Qh, clearing: bool)
    requires Inv(s)
    ensures Inv(Submit(s, q, clearing))
  {
    hide Core, Population;
    if StateOf(s, q) == Idle && !clearing {
      LinkCore(s, q);
    }
  }

  lemma LinkPlaced(s: State, q: Qh)
    requires Placed(s) && StateOf(s, q) == Idle
    ensures Placed(Link(s, q, false)) && Population(Link(s, q, false)) == Population(s) + multiset{q}
  {
    var s' := Link(s, q, false);
    assert StateFits(s, q);
    assert Population(s') == Population(s) + multiset{q};
    forall p
      ensures Population(s')[p] <= 1
    {
      assert Population(s)[p] <= 1;
    }
    hide Population, Once;
    forall p
      ensures StateFits(s', p)
    {
      assert StateFits(s, p);
      assert p in s'.async <==> p == q || p in s.async;
      assert StateOf(s', p) == if p == q then Linked else StateOf(s, p);
      hide StateOf;
    }
  }

  /** An idle queue head that is linked is in its one place, right after the head. */
  lemma LinkCore(s: State, q: Qh)
    requires Core(s) && StateOf(s, q) == Idle
    ensures Core(Link(s, q, false)) && Population(Link(s, q, false)) == Population(s) + multiset{q}
  {
    var s' := Link(s, q, false);
    LinkPlaced(s, q);
    assert StateFits(s, q);
    hide Population, Once;
    forall i: nat | i <= |s'.async|
      ensures Follows(s', i)
    {
      assert Follows(s, if i == 0 then 0 else i - 1);
    }
    forall n | Reachable(s, n)
      ensures Reachable(s', n)
    {
    }
  }

  lemma {:induction false} UnlinkDueCore(s: State, todo: seq<Qh>, due: set<Qh>)
    requires Core(s) && Distinct(todo) && OnList(s, todo)
    ensures var s' := UnlinkDue(s, todo, due); Core(s') && Counted(s') == Counted(s) && s'.warned == s.warned
    decreases |todo|
  {
    if todo != [] {
      if todo[0] in due && StateOf(s, todo[0]) == Linked {
        UnlinkCore(s, todo[0]);
        OnListNext(s, todo);
        UnlinkDueCore(SingleUnlink(s, todo[0]), todo[1..], due);
      } else {
        UnlinkDueCore(s, todo[1..], due);
      }
    }
    hide Core, SingleUnlink, Counted;
  }

  lemma TakeNextInv(s: State)
    requires Inv(s) && s.asyncUnlinking && s.ending == None
    ensures Inv(TakeNext(s))
  {
    if s.asyncIaa == [] {
      var s' := s.(asyncUnlinking := false);
      assert Population(s') == Population(s);
      SameLists(s, s');
      if s'.asyncUnlink != [] {
        StartIaaInv(s');
      }
    } else {
      TakeOne(s);
    }
  }

  /** Placement, the ring and the links only depend on the lists, links, states and the doorbell. */
  lemma SameLists(s: State, s': State)
    requires s'.async == s.async && s'.asyncUnlink == s.asyncUnlink && s'.asyncIaa == s.asyncIaa
      && s'.ending == s.ending
    requires s'.hwNext == s.hwNext && s'.qhState == s.qhState
    ensures Population(s') == Population(s)
    ensures Placed(s) ==> Placed(s')
    ensures Ring(s) ==> Ring(s')
  {
    forall q
      ensures StateFits(s, q) == StateFits(s', q)
    {
    }
    forall i: nat | i <= |s.async|
      ensures Follows(s, i) == Follows(s', i)
    {
    }
  }

  lemma TakeOne(s: State)
    requires Inv(s) && s.asyncUnlinking && s.ending == None && s.asyncIaa != []
    ensures Inv(TakeNext(s))
  {
    var s' := TakeNext(s);
    var q := s.asyncIaa[0];
    assert s.asyncIaa == [q] + s'.asyncIaa;
    assert Population(s') == Population(s);
    assert Population(s)[q] <= 1;
    assert q !in s.async && q !in s.asyncUnlink && q !in s'.asyncIaa;
    forall p
      ensures StateFits(s', p)
    {
      assert StateFits(s, p);
      assert p in s.asyncIaa <==> p == q || p in s'.asyncIaa;
    }
    forall i: nat | i <= |s.async|
      ensures Follows(s', i)
    {
      assert Follows(s, i);
    }
  }

  /** The state of one loop pass of end_unlink_async after completions: `q` is idle and nowhere. */
  lemma EndOne(s: State)
    requires Inv(s) && s.ending.Some?
    ensures var s' := s.(ending := None, qhState := s.qhState[s.ending.value := Idle]);
      Core(s') && NotStranded(s') && StateOf(s', s.ending.value) == Idle && |Population(s')| == |Population(s)| - 1
  {
    var q := s.ending.value;
    var s' := s.(ending := None, qhState := s.qhState[q := Idle]);
    assert Population(s) == Population(s') + multiset{q};
    assert Population(s)[q] <= 1;
    assert q !in s.async && q !in s.asyncUnlink && q !in s.asyncIaa;
    forall p
      ensures StateFits(s', p) && Population(s')[p] <= 1
    {
      assert StateFits(s, p) && Population(s)[p] <= 1;
    }
    forall i: nat | i <= |s.async|
      ensures Follows(s', i)
    {
      assert Follows(s, i);
    }
  }

  lemma FinishInv(s: State, more: bool, clearing: bool)
    requires Inv(s) && s.ending.Some?
    ensures Inv(Finish(s, more, clearing))
  {
    EndOne(s);
    hide Core, NotStranded, Population, StateOf;
    var q := s.ending.value;
    var s' := s.(ending := None, qhState := s.qhState[q := Idle]);
    if more && !clearing {
      LinkCore(s', q);
      CountDown(Link(s', q, false));
    } else {
      CountDown(s');
    }
    LinkKeeps(s', q);
    DisableKeeps(s');
    DisableKeeps(Link(s', q, false));
  }

  lemma LinkKeeps(s: State, q: Qh)
    requires StateOf(s, q) == Idle
    ensures var s' := Link(s, q, false);
      && s'.warned == s.warned && s'.asyncCount == s.asyncCount + 1
      && NotStranded(s') == NotStranded(s)
  {
  }

  lemma DisableKeeps(s: State)
    ensures NotStranded(DisableAsync(s)) == NotStranded(s) && DisableAsync(s).asyncCount == s.asyncCount - 1
  {
  }

  lemma CountDown(s: State)
    requires Core(s)
    ensures Core(DisableAsync(s)) && Population(DisableAsync(s)) == Population(s)
    ensures s.asyncCount == |Population(s)| + 1 ==> DisableAsync(s).warned == s.warned
  {
    SameLists(s, DisableAsync(s));
    if s.async != [] { assert s.async[0] in Population(s); }
    if s.asyncUnlink != [] { assert s.asyncUnlink[0] in Population(s); }
    hide Placed, Ring;
  }

  lemma UnlinkEmptyInv(s: State, due: set<Qh>)
    requires Inv(s) && Distinct(s.async)
    ensures Inv(UnlinkEmpty(s, due))
  {
    assert OnList(s, s.async);
    var s' := UnlinkDue(s, s.async, due);
    UnlinkDueCore(s, s.async, due);
    if s'.asyncUnlink != [] {
      StartIaaInv(s');
    }
    hide Core, Counted, UnlinkDue;
  }

  /** Entering and leaving qh_completions keeps the place of a queue head. */
  lemma CompletionsInv(s: State, step: Step)
    requires Inv(s) && Enabled(s, step) && (step.BeginCompletions? || step.EndCompletions?)
    ensures Inv(Apply(s, step))
  {
    var s' := Apply(s, step);
    forall p
      ensures StateFits(s', p)
    {
      assert StateFits(s, p);
    }
    assert Population(s') == Population(s);
    forall i: nat | i <= |s.async|
      ensures Follows(s', i)
    {
      assert Follows(s, i);
    }
  }

  lemma ScanInv(s: State, step: Step)
    requires Inv(s) && Enabled(s, step) && (step.ScanStart? || step.ScanAdvance?)
    ensures Inv(Apply(s, step))
  {
    hide Ring, Placed, Population, Contained;
    SameLists(s, Apply(s, step));
    SameTouch(s, Apply(s, step));
  }

  lemma SameTouch(s: State, s': State)
    requires s'.async == s.async && s'.asyncUnlink == s.asyncUnlink && s'.asyncIaa == s.asyncIaa
      && s'.hwNext == s.hwNext
    requires s'.held == s.held && s'.doorbell == s.doorbell
    ensures Contained(s) ==> Contained(s')
  {
    assert forall n :: Touchable(s, n) ==> Touchable(s', n);
  }

  /** The links are as they were, and the controller holds what it may touch. */
  lemma HeldContained(s: State, s': State)
    requires Contained(s) && s'.async == s.async && s'.asyncUnlink == s.asyncUnlink && s'.asyncIaa == s.asyncIaa
      && s'.hwNext == s.hwNext && (s'.doorbell == Rung ==> s.doorbell == Rung)
    requires forall n :: n in s'.held ==> Touchable(s', n)
    ensures Contained(s')
  {
  }

  /** The controller cannot leave what it may touch. */
  lemma ControllerInv(s: State, step: Step)
    requires Inv(s) && Enabled(s, step) && (step.Fetch? || step.Drop? || step.Answer? || step.IaaInterrupt?)
    ensures Inv(Apply(s, step))
  {
    hide Ring, Placed, Population, Next;
    var s' := Apply(s, step);
    SameLists(s, s');
    if step.Fetch? {
      assert Touchable(s, step.n);
      FetchTouchable(s, step.n);
    }
    HeldContained(s, s');
    hide Contained;
  }

  /** From a node it may touch the controller gets to a node it may touch. */
  lemma FetchTouchable(s: State, n: Node)
    requires Ring(s) && Contained(s) && Touchable(s, n)
    ensures Touchable(s, Next(s, n))
  {
    if n == Head {
      assert Follows(s, 0);
    } else if n.qh in s.async {
      assert Follows(s, IndexOf(s.async, n.qh) + 1);
    }
  }

  /** Every step keeps the invariant. */
  lemma StepInv(s: State, step: Step)
    requires Inv(s) && Enabled(s, step)
    ensures Inv(Apply(s, step))
  {
    ListDistinct(s);
    match step
    case DoSubmit(q, clearing) => SubmitInv(s, q, clearing);
    case DoStartUnlink(q) => StartUnlinkInv(s, q);
    case DoUnlinkEmpty(due) => UnlinkEmptyInv(s, due);
    case BeginCompletions(q) => CompletionsInv(s, step);
    case EndCompletions(q) => CompletionsInv(s, step);
    case ScanStart => ScanInv(s, step);
    case ScanAdvance => ScanInv(s, step);
    case DoTakeNext => TakeNextInv(s);
    case DoFinish(more, clearing) => FinishInv(s, more, clearing);
    case _ => ControllerInv(s, step);
  }

  lemma StartUnlinkInv(s: State, q: Qh)
    requires Inv(s)
    ensures StateOf(s, q) == Linked ==> q in s.async
    ensures Inv(StartUnlink(s, q))
  {
    if StateOf(s, q) == Linked {
      UnlinkCore(s, q);
      StartIaaInv(SingleUnlink(s, q));
    }
    hide Core, Counted;
  }

  // ---- what an unlink does ----

  /** A list without some of its entries, and these entries, in their order. */
  function Without(list: seq<Qh>, gone: set<Qh>): seq<Qh>
  {
    if list == [] then [] else (if list[0] in gone then [] else [list[0]]) + Without(list[1..], gone)
  }

  function Among(list: seq<Qh>, gone: set<Qh>): seq<Qh>
  {
    if list == [] then [] else (if list[0] in gone then [list[0]] else []) + Among(list[1..], gone)
  }

  lemma {:induction false} WithoutMembers(list: seq<Qh>, gone: set<Qh>, q: Qh)
    ensures q in Without(list, gone) <==> q in list && q !in gone
    ensures q in Among(list, gone) <==> q in list && q in gone
  {
    if list != [] {
      WithoutMembers(list[1..], gone, q);
      assert list == [list[0]] + list[1..];
    }
  }

  /** Queue heads have come to the end of the waiting list.  They go into a cycle with what was waiting, and
      the doorbell is rung, unless a cycle is running or ending. */
  predicate Awaits(s: State, s': State, gone: seq<Qh>)
  {
    if s.asyncUnlink + gone != [] && s.asyncIaa == [] && !s.asyncUnlinking then
      s'.asyncIaa == s.asyncUnlink + gone && s'.asyncUnlink == [] && s'.doorbell == Rung
    else
      s'.asyncIaa == s.asyncIaa && s'.asyncUnlink == s.asyncUnlink + gone && s'.doorbell == s.doorbell
  }

  /** What an unlink leaves alone. */
  predicate Spares(s: State, s': State)
  {
    && s'.asyncUnlinking == s.asyncUnlinking && s'.ending == s.ending && s'.asyncCount == s.asyncCount
    && s'.held == s.held && s'.warned == s.warned
  }

  /** A linked queue head leaves the ring, the others keep their order, and it waits. */
  lemma UnlinksOne(s: State, q: Qh)
    requires Inv(s)
    ensures StateOf(s, q) == Linked ==> q in s.async
    ensures StateOf(s, q) != Linked ==> StartUnlink(s, q) == s
    ensures StateOf(s, q) == Linked ==>
      var s' := StartUnlink(s, q);
      && q !in s'.async && s'.qhState == s.qhState[q := Unlink]
      && (exists i :: 0 <= i < |s.async| && s.async[i] == q && s'.async == s.async[..i] + s.async[i + 1..])
      && Awaits(s, s', [q]) && Spares(s, s')
  {
    hide Inv;
    if StateOf(s, q) == Linked {
      StartUnlinkInv(s, q);
      InvDistinct(s);
      TakenOutMembers(s.async, IndexOf(s.async, q), q);
    }
  }

  lemma InvDistinct(s: State)
    requires Inv(s)
    ensures Distinct(s.async)
  {
    ListDistinct(s);
  }

  /** Of the end `todo` of the ring those of `gone` have left it, and wait. */
  ghost predicate Left(s: State, s': State, kept: seq<Qh>, todo: seq<Qh>, gone: set<Qh>)
  {
    && s'.async == kept + Without(todo, gone) && s'.asyncUnlink == s.asyncUnlink + Among(todo, gone)
    && s'.asyncIaa == s.asyncIaa && s'.doorbell == s.doorbell && Spares(s, s')
    && forall q :: StateOf(s', q) == if q in todo && q in gone then Unlink else StateOf(s, q)
  }

  lemma LeftFirst(s: State, s1: State, s': State, kept: seq<Qh>, todo: seq<Qh>, gone: set<Qh>)
    requires todo != [] && todo[0] in gone && Left(s1, s', kept, todo[1..], gone)
    requires s1.asyncUnlink == s.asyncUnlink + [todo[0]] && s1.asyncIaa == s.asyncIaa && s1.doorbell == s.doorbell
    requires Spares(s, s1) && forall q :: StateOf(s1, q) == if q == todo[0] then Unlink else StateOf(s, q)
    ensures Left(s, s', kept, todo, gone)
  {
    hide StateOf;
    assert todo == [todo[0]] + todo[1..];
  }

  lemma LeftNext(s: State, s': State, kept: seq<Qh>, todo: seq<Qh>, gone: set<Qh>)
    requires todo != [] && todo[0] !in gone && Left(s, s', kept + [todo[0]], todo[1..], gone)
    ensures Left(s, s', kept, todo, gone)
  {
    hide StateOf;
    assert todo == [todo[0]] + todo[1..];
    assert kept + [todo[0]] + Without(todo[1..], gone) == kept + ([todo[0]] + Without(todo[1..], gone));
  }

  /** Going through the end `todo` of the ring unlinks exactly those of it that are to go. */
  lemma {:induction false} UnlinkDueMeans(s: State, kept: seq<Qh>, todo: seq<Qh>, due: set<Qh>, gone: set<Qh>)
    requires s.async == kept + todo && Distinct(s.async) && Distinct(todo) && OnList(s, todo)
    requires forall q :: q in todo ==> (q in gone <==> q in due && StateOf(s, q) == Linked)
    ensures Left(s, UnlinkDue(s, todo, due), kept, todo, gone)
    decreases |todo|
  {
    hide Left, SingleUnlink, StateOf;
    if todo == [] {
      LeftNothing(s, kept, gone);
    } else {
      assert todo == [todo[0]] + todo[1..];
      if todo[0] in due && StateOf(s, todo[0]) == Linked {
        OnListNext(s, todo);
        FirstTaken(s, kept, todo);
        var s1 := SingleUnlink(s, todo[0]);
        UnlinkDueMeans(s1, kept, todo[1..], due, gone);
        LeftFirst(s, s1, UnlinkDue(s1, todo[1..], due), kept, todo, gone);
      } else {
        assert kept + todo == (kept + [todo[0]]) + todo[1..];
        UnlinkDueMeans(s, kept + [todo[0]], todo[1..], due, gone);
        LeftNext(s, UnlinkDue(s, todo[1..], due), kept, todo, gone);
      }
    }
  }

  lemma LeftNothing(s: State, kept: seq<Qh>, gone: set<Qh>)
    requires s.async == kept + []
    ensures Left(s, s, kept, [], gone)
  {
  }

  lemma FirstTaken(s: State, kept: seq<Qh>, todo: seq<Qh>)
    requires s.async == kept + todo && todo != [] && Distinct(s.async)
    ensures todo[0] in s.async
    ensures var s' := SingleUnlink(s, todo[0]);
      && s'.async == kept + todo[1..] && Distinct(s'.async) && s'.asyncUnlink == s.asyncUnlink + [todo[0]]
      && s'.asyncIaa == s.asyncIaa && s'.doorbell == s.doorbell && Spares(s, s')
      && forall q :: StateOf(s', q) == if q == todo[0] then Unlink else StateOf(s, q)
  {
    RingWithout(s.async, kept, todo);
    hide IndexOf, Distinct;
  }

  lemma RingWithout(list: seq<Qh>, kept: seq<Qh>, todo: seq<Qh>)
    requires list == kept + todo && todo != [] && Distinct(list)
    ensures todo[0] in list && IndexOf(list, todo[0]) == |kept|
    ensures list[..|kept|] + list[|kept| + 1..] == kept + todo[1..] && Distinct(kept + todo[1..])
  {
    assert list[|kept|] == todo[0];
    assert IndexOf(list, todo[0]) == |kept|;
    var a := kept + todo[1..];
    assert forall i :: 0 <= i < |a| ==> a[i] == list[if i < |kept| then i else i + 1];
  }

  /** What has left the ring goes into the next cycle, or waits for it. */
  lemma LeftAwaits(s: State, s1: State, gone: set<Qh>)
    requires Left(s, s1, [], s.async, gone) && forall q :: q in gone ==> q in s.async
    ensures var s' := if s1.asyncUnlink != [] then StartIaa(s1) else s1;
      && s'.async == Without(s.async, gone) && Awaits(s, s', Among(s.async, gone)) && Spares(s, s')
      && forall q :: StateOf(s', q) == if q in gone then Unlink else StateOf(s, q)
  {
    assert [] + Without(s.async, gone) == Without(s.async, gone);
    hide Without, Among;
  }

  lemma LinkedOnRing(s: State, q: Qh)
    requires Inv(s) && StateOf(s, q) == Linked
    ensures q in s.async
  {
    assert StateFits(s, q);
  }

  /** Of the queue heads that are due exactly the linked ones leave the ring, the others keep their order,
      and they wait. */
  lemma UnlinksEmpty(s: State, due: set<Qh>)
    requires Inv(s) && Distinct(s.async)
    ensures var s' := UnlinkEmpty(s, due); var gone := set q | q in due && StateOf(s, q) == Linked;
      && s'.async == Without(s.async, gone) && Awaits(s, s', Among(s.async, gone)) && Spares(s, s')
      && forall q :: StateOf(s', q) == if q in gone then Unlink else StateOf(s, q)
  {
    hide Core, UnlinkDue, Without, Among, Awaits, Spares, Inv, Left, StateOf, StartIaa;
    var gone := set q | q in due && StateOf(s, q) == Linked;
    CoreOf(s);
    forall q | q in gone
      ensures q in s.async
    {
      LinkedOnRing(s, q);
    }
    assert [] + s.async == s.async;
    UnlinkDueMeans(s, [], s.async, due, gone);
    LeftAwaits(s, UnlinkDue(s, s.async, due), gone);
  }

  lemma CoreOf(s: State)
    requires Inv(s)
    ensures Core(s) && OnList(s, s.async)
  {
  }

  /** Before the driver starts: nothing on the ring but the head. */
  function Start(): State
  {
    State([], map[Head := Head], map[], [], [], false, None, 0, None, Quiet, {}, false)
  }

  lemma StartInv()
    ensures Inv(Start())
  {
    forall q
      ensures StateFits(Start(), q)
    {
    }
    assert Follows(Start(), 0);
  }

  /** The steps of a run can be taken one after the other. */
  ghost predicate Legal(s: State, run: seq<Step>)
    requires Inv(s)
    decreases |run|
  {
    run == [] || (Enabled(s, run[0]) && (StepInv(s, run[0]); Legal(Apply(s, run[0]), run[1..])))
  }

  ghost function Exec(s: State, run: seq<Step>): State
    requires Inv(s) && Legal(s, run)
    decreases |run|
  {
    if run == [] then s
    else
      StepInv(s, run[0]);
      Exec(Apply(s, run[0]), run[1..])
  }

  lemma {:induction false} RunInv(s: State, run: seq<Step>)
    requires Inv(s) && Legal(s, run)
    ensures Inv(Exec(s, run))
    decreases |run|
  {
    if run != [] {
      StepInv(s, run[0]);
      RunInv(Apply(s, run[0]), run[1..]);
    }
    hide Inv, Apply, Enabled;
  }

  /** The grace period: whatever happens, a queue head that is idle, or about to be, is not held by
      the controller, and no WARN_ON fires. */
  lemma RunSafe(run: seq<Step>)
    requires (StartInv(); Legal(Start(), run))
    ensures var s := (StartInv(); Exec(Start(), run));
      && (forall q: Qh :: StateOf(s, q) == Idle || s.ending == Some(q) ==> At(q) !in s.held)
      && !s.warned
      && s.asyncCount == |Population(s)| && Once(Population(s))
      && (s.asyncUnlink != [] ==> s.asyncIaa != [] || s.asyncUnlinking)
  {
    StartInv();
    RunInv(Start(), run);
    IdleNotHeld(Exec(Start(), run));
  }

  lemma IdleNotHeld(s: State)
    requires Inv(s)
    ensures forall q: Qh :: StateOf(s, q) == Idle || s.ending == Some(q) ==> At(q) !in s.held
  {
    forall q | At(q) in s.held
      ensures StateOf(s, q) != Idle && s.ending != Some(q)
    {
      assert StateFits(s, q) && Touchable(s, At(q));
      assert Population(s)[q] <= 1;
    }
  }

  /** Queue heads whose unlink is under way. */
  function Waiting(s: State): nat
  {
    |s.asyncUnlink| + |s.asyncIaa| + (if s.ending.Some? then 1 else 0)
  }

  /** How far the protocol is from finishing its present queue head. */
  function Phase(s: State): nat
  {
    if s.ending.Some? then 0
    else if s.asyncUnlinking then if s.asyncIaa != [] then 1 else 4
    else if s.doorbell == Answered then 2
    else 3
  }

  ghost predicate HoldsOne(s: State, q: Qh)
  {
    q in s.asyncIaa && At(q) in s.held
  }

  /** The step that brings the unlinks forward: the controller lets go and answers, the driver reacts. */
  ghost function Helpful(s: State): (step: Step)
    requires Inv(s) && (Waiting(s) > 0 || s.asyncUnlinking)
    ensures Enabled(s, step)
  {
    if s.ending.Some? then DoFinish(false, false)
    else if s.asyncUnlinking then DoTakeNext
    else if s.doorbell == Answered then IaaInterrupt
    else if exists q :: HoldsOne(s, q) then
      var q :| HoldsOne(s, q);
      Drop(At(q))
    else
      assert forall q :: q in s.asyncIaa ==> !HoldsOne(s, q);
      Answer
  }

  lemma HelpfulHelps(s: State)
    requires Inv(s) && (Waiting(s) > 0 || s.asyncUnlinking)
    ensures var s' := Apply(s, Helpful(s));
      || Waiting(s') < Waiting(s)
      || (Waiting(s') == Waiting(s) && Phase(s') < Phase(s))
      || (Waiting(s') == Waiting(s) && Phase(s') == Phase(s) && |s'.held| < |s.held|)
  {
    hide Core, Counted;
    assert Protocol(s) by { ProtocolOf(s); }
  }

  lemma ProtocolOf(s: State)
    requires Core(s)
    ensures Protocol(s)
  {
  }

  /** Liveness: from every state of every run there is a way to go on after which every unlink has
      been completed. */
  lemma {:induction false} Drains(s: State) returns (run: seq<Step>)
    requires Inv(s)
    ensures Legal(s, run) && Waiting(Exec(s, run)) == 0 && !Exec(s, run).asyncUnlinking
    decreases Waiting(s), Phase(s), |s.held|
  {
    if Waiting(s) == 0 && !s.asyncUnlinking {
      run := [];
    } else {
      var step := Helpful(s);
      HelpfulHelps(s);
      StepInv(s, step);
      hide Inv, Apply, Enabled, Helpful;
      var rest := Drains(Apply(s, step));
      run := [step] + rest;
      assert run[1..] == rest;
    }
  }

  /** The population a step is to leave: only linking an idle queue head adds one, and only the end of
      an unlink lets one go. */
  function PopulationAfter(s: State, step: Step): multiset<Qh>
    requires step.DoFinish? ==> s.ending.Some?
  {
    match step
    case DoSubmit(q, clearing) =>
      if StateOf(s, q) == Idle && !clearing then Population(s) + multiset{q} else Population(s)
    case DoFinish(more, clearing) =>
      if more && !clearing then Population(s) else Population(s) - multiset{s.ending.value}
    case _ => Population(s)
  }

  /** No step loses or duplicates a queue head. */
  lemma Conserved(s: State, step: Step)
    requires Inv(s) && Enabled(s, step)
    ensures Population(Apply(s, step)) == PopulationAfter(s, step)
  {
    hide Population, Submit, Finish, StartUnlink, TakeNext, StartIaa, UnlinkDue, Next, Successor;
    ListDistinct(s);
    if step.DoSubmit? {
      SubmitPopulation(s, step.q, step.clearing);
    } else if step.DoFinish? {
      FinishPopulation(s, step.more, step.clearing);
    } else if step.DoStartUnlink? {
      assert StateFits(s, step.q);
      StartUnlinkPopulation(s, step.q);
    } else if step.DoUnlinkEmpty? {
      UnlinkDuePopulation(s, s.async, step.due);
      StartIaaPopulation(UnlinkDue(s, s.async, step.due));
    } else if step.DoTakeNext? {
      TakeNextPopulation(s);
    } else {
      SamePopulation(s, Apply(s, step));
    }
    hide Population, Inv, Submit, Finish, StartUnlink, TakeNext, StartIaa, UnlinkDue, Next, Successor;
  }

  lemma SamePopulation(s: State, s': State)
    requires s'.async == s.async && s'.asyncUnlink == s.asyncUnlink && s'.asyncIaa == s.asyncIaa
      && s'.ending == s.ending
    ensures Population(s') == Population(s)
  {
  }

  lemma SubmitPopulation(s: State, q: Qh, clearing: bool)
    ensures Population(Submit(s, q, clearing)) == PopulationAfter(s, DoSubmit(q, clearing))
  {
  }

  lemma FinishPopulation(s: State, more: bool, clearing: bool)
    requires s.ending.Some?
    ensures Population(Finish(s, more, clearing)) == PopulationAfter(s, DoFinish(more, clearing))
  {
  }

  lemma StartUnlinkPopulation(s: State, q: Qh)
    requires StateFits(s, q) && (StateOf(s, q) == Linked ==> q in s.async)
    ensures Population(StartUnlink(s, q)) == Population(s)
  {
    if StateOf(s, q) == Linked {
      UnlinkPopulation(s, q);
      StartIaaPopulation(SingleUnlink(s, q));
    }
    hide Population, SingleUnlink, StartIaa;
  }

  lemma TakeNextPopulation(s: State)
    requires s.ending == None
    ensures Population(TakeNext(s)) == Population(s)
  {
    if s.asyncIaa != [] {
      assert s.asyncIaa == [s.asyncIaa[0]] + s.asyncIaa[1..];
    }
  }

  lemma {:induction false} UnlinkDuePopulation(s: State, todo: seq<Qh>, due: set<Qh>)
    requires Distinct(todo) && OnList(s, todo)
    ensures Population(UnlinkDue(s, todo, due)) == Population(s)
    decreases |todo|
  {
    if todo != [] {
      if todo[0] in due && StateOf(s, todo[0]) == Linked {
        UnlinkPopulation(s, todo[0]);
        OnListNext(s, todo);
        UnlinkDuePopulation(SingleUnlink(s, todo[0]), todo[1..], due);
      } else {
        UnlinkDuePopulation(s, todo[1..], due);
      }
    }
    hide Population, SingleUnlink;
  }
}
