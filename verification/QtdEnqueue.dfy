/** Appending descriptors to a queue the controller may be walking: the first new descriptor changes
    places with the inactive dummy at the end of the queue, and one store makes all of them visible. */
module QtdEnqueue {
  import B = QtdBuild

  type Link = B.Link

  const STS_ACTIVE: bv32 := B.STS_ACTIVE
  const STS_HALT: bv32 := 0x40

  /** A descriptor as memory holds it; `rest` stands for its buffer pointers, length and request. */
  datatype Desc = Desc(hwNext: Link, hwAltNext: Link, token: bv32, rest: nat)

  type Memory = map<nat, Desc>

  predicate Active(m: Memory, a: nat)
  {
    a in m && m[a].token & STS_ACTIVE != 0
  }

  /** The descriptors the controller executes when it goes on from `a`: it follows the links until it
      meets an inactive descriptor or the end. */
  function Walk(m: Memory, a: nat, fuel: nat): seq<nat>
    decreases fuel
  {
    if fuel == 0 || !Active(m, a) then []
    else [a] + match m[a].hwNext case ListEnd => [] case ToQtd(b) => Walk(m, b, fuel - 1)
  }

  /** The active descriptors a queue starts with. */
  function Seen(m: Memory, list: seq<nat>): seq<nat>
  {
    if list == [] || !Active(m, list[0]) then [] else [list[0]] + Seen(m, list[1..])
  }

  function Node(list: seq<nat>, dummy: nat, i: nat): nat
    requires i <= |list|
  {
    if i < |list| then list[i] else dummy
  }

  predicate Distinct(s: seq<nat>)
  {
    forall i, j :: 0 <= i < j < |s| ==> s[i] != s[j]
  }

  predicate Linked(m: Memory, list: seq<nat>, last: nat)
  {
    forall i :: 0 <= i < |list| ==> list[i] in m && m[list[i]].hwNext == B.ToQtd(Node(list, last, i + 1))
  }

  /** The hardware chain of a queue is its list, ended by the inactive dummy. */
  predicate Chain(m: Memory, list: seq<nat>, dummy: nat)
  {
    Linked(m, list, dummy) && dummy in m && !Active(m, dummy) && Distinct(list + [dummy])
  }

  /** From any place in the queue the controller executes the active descriptors that follow there, and
      nothing that is not queued. */
  lemma {:induction false} WalkSees(m: Memory, list: seq<nat>, dummy: nat, i: nat, fuel: nat)
    requires Chain(m, list, dummy) && i <= |list| < i + fuel
    ensures Walk(m, Node(list, dummy, i), fuel) == Seen(m, list[i..])
    decreases fuel
  {
    if i < |list| && Active(m, list[i]) {
      assert list[i..][1..] == list[i + 1..];
      WalkSees(m, list, dummy, i + 1, fuel - 1);
    }
  }

  /** The new descriptors as qh_urb_transaction leaves them: linked, not part of the queue, active. */
  predicate Prepared(m: Memory, list: seq<nat>, dummy: nat, added: seq<nat>)
  {
    && added != [] && Linked(m, added[..|added| - 1], added[|added| - 1]) && added[|added| - 1] in m
    && (forall i :: 0 <= i < |added| ==> Active(m, added[i]))
    && Distinct(list + [dummy] + added)
  }

  /** What the controller does meanwhile: it finishes active descriptors of the queue. */
  predicate Progress(m: Memory, m': Memory, list: seq<nat>)
  {
    && m'.Keys == m.Keys
    && forall a :: a in m ==>
         || m'[a] == m[a]
         || (a in list && Active(m, a) && !Active(m', a) && m'[a] == m[a].(token := m'[a].token))
  }

  /** Of the queue at most tokens have changed, outside it nothing. */
  predicate Kept(m: Memory, m': Memory, list: seq<nat>)
  {
    && m'.Keys == m.Keys
    && (forall a :: a in m && a !in list ==> m'[a] == m[a])
    && (forall a :: a in m && a in list ==> m'[a] == m[a].(token := m'[a].token))
  }

  /** Queued descriptors are as they were, but for their tokens. */
  predicate QueueKept(m: Memory, m': Memory, list: seq<nat>)
  {
    forall a :: a in list && a in m ==> a in m' && m'[a] == m[a].(token := m'[a].token)
  }

  lemma DummyInactive(m: Memory, list: seq<nat>, dummy: nat)
    requires Chain(m, list, dummy)
    ensures dummy in m && m[dummy].token & STS_ACTIVE == 0
  {
  }

  /** The queue after the append. */
  function Appended(list: seq<nat>, dummy: nat, added: seq<nat>): seq<nat>
    requires added != []
  {
    list + [dummy] + added[1..]
  }

  lemma ProgressKeeps(m: Memory, m': Memory, list: seq<nat>, dummy: nat)
    requires Progress(m, m', list) && Chain(m, list, dummy)
    ensures Chain(m', list, dummy)
  {
  }

  /** A store to a descriptor that is not queued, or to the dummy without activating it, is not seen. */
  lemma StoreUnseen(m: Memory, list: seq<nat>, dummy: nat, a: nat, d: Desc)
    requires Chain(m, list, dummy) && a !in list && (a == dummy ==> d.token & STS_ACTIVE == 0)
    ensures Chain(m[a := d], list, dummy)
  {
  }

  /** When everything queued is active, the controller goes on into what follows; otherwise it stops
      where it would have stopped. */
  lemma {:induction false} SeenAppend(m: Memory, list: seq<nat>, more: seq<nat>)
    requires forall a :: a in more ==> Active(m, a)
    ensures Seen(m, list + more) == if forall a :: a in list ==> Active(m, a) then list + more else Seen(m, list)
  {
    if list == [] {
      assert list + more == more;
      SeenAll(m, more);
    } else {
      assert (list + more)[1..] == list[1..] + more;
      if Active(m, list[0]) {
        SeenAppend(m, list[1..], more);
        if forall a :: a in list[1..] ==> Active(m, a) {
          assert forall a :: a in list ==> a == list[0] || a in list[1..];
        }
      }
    }
  }

  lemma {:induction false} SeenAll(m: Memory, list: seq<nat>)
    requires forall a :: a in list ==> Active(m, a)
    ensures Seen(m, list) == list
  {
    if list != [] {
      SeenAll(m, list[1..]);
    }
  }

  /** What the controller can execute from the front of the queue, before and after an append: the same
      until the last store, then the new descriptors too if nothing queued before has stopped it. */
  lemma AppendSeen(m: Memory, list: seq<nat>, dummy: nat, added: seq<nat>, fuel: nat)
    requires added != [] && Chain(m, Appended(list, dummy, added), added[0]) && |list| + |added| < fuel
    requires forall a :: a in [dummy] + added[1..] ==> Active(m, a)
    ensures Walk(m, Node(Appended(list, dummy, added), added[0], 0), fuel)
         == if forall a :: a in list ==> Active(m, a) then list + [dummy] + added[1..] else Seen(m, list)
  {
    var whole := Appended(list, dummy, added);
    WalkSees(m, whole, added[0], 0, fuel);
    assert whole[0..] == whole && whole == list + ([dummy] + added[1..]);
    SeenAppend(m, list, [dummy] + added[1..]);
  }

  /** fotg210_qtd_init. */
  const INITIAL: Desc := Desc(B.ListEnd, B.ListEnd, STS_HALT, 0)

  /** The new descriptors, moved one place up: the dummy holds the first one, and the first one's own
      place is the new dummy. */
  predicate Moved(m0: Memory, m: Memory, dummy: nat, added: seq<nat>)
  {
    && added != [] && (forall i :: 0 <= i < |added| ==> added[i] in m0 && added[i] in m) && dummy in m
    && m[added[0]] == INITIAL
    && m[dummy] == m0[added[0]].(hwNext := m[dummy].hwNext)
    && (forall i :: 1 <= i < |added| ==> m[added[i]] == m0[added[i]].(hwNext := m[added[i]].hwNext))
  }

  /** The new descriptors are none of the queue's. */
  lemma Apart(m: Memory, list: seq<nat>, dummy: nat, added: seq<nat>)
    requires Prepared(m, list, dummy, added)
    ensures forall i :: 0 <= i < |added| ==> added[i] in m && added[i] !in list && added[i] != dummy
    ensures dummy !in list && Distinct(added)
  {
    var all := list + [dummy] + added;
    assert all[|list|] == dummy && forall k :: 0 <= k < |list| ==> all[k] == list[k];
    forall i | 0 <= i < |added|
      ensures added[i] in m && added[i] !in list && added[i] != dummy
    {
      assert all[|list| + 1 + i] == added[i];
      assert i < |added| - 1 ==> added[..|added| - 1][i] == added[i];
    }
    forall i, j | 0 <= i < j < |added|
      ensures added[i] != added[j]
    {
      assert all[|list| + 1 + i] == added[i] && all[|list| + 1 + j] == added[j];
    }
  }

  /** Memory before the last store: the moved descriptors, but for the dummy's token. */
  predicate Staged(m0: Memory, m: Memory, dummy: nat, added: seq<nat>)
  {
    && added != [] && (forall i :: 0 <= i < |added| ==> added[i] in m0 && added[i] in m) && dummy in m
    && m[added[0]] == INITIAL
    && m[dummy] ==
         m0[added[0]].(token := STS_HALT, hwNext := if |added| == 1 then B.ToQtd(added[0]) else m0[added[0]].hwNext)
    && (forall i :: 1 <= i < |added| ==>
          m[added[i]] == m0[added[i]].(hwNext := if i == |added| - 1 then B.ToQtd(added[0]) else m0[added[i]].hwNext))
  }

  /** The first new descriptor has changed places with the dummy. */
  function Swapped(m: Memory, dummy: nat, qtd: nat): Memory
    requires qtd in m
  {
    m[dummy := m[qtd].(token := STS_HALT)][qtd := INITIAL]
  }

  lemma StillThere(m0: Memory, m1: Memory, list: seq<nat>, dummy: nat, added: seq<nat>)
    requires added != [] && added[0] in m0 && Kept(Swapped(m0, dummy, added[0]), m1, list)
    requires forall i :: 0 <= i < |added| ==> added[i] in m0 && added[i] != dummy && added[i] !in list
    requires dummy !in list && Distinct(added)
    ensures dummy in m1 && m1[dummy].token == STS_HALT && forall i :: 0 <= i < |added| ==> added[i] in m1
  {
  }

  /** The link to the new dummy is the last part. */
  lemma AllStaged(m0: Memory, m1: Memory, m2: Memory, list: seq<nat>, dummy: nat, added: seq<nat>)
    requires added != [] && added[0] in m0 && Kept(Swapped(m0, dummy, added[0]), m1, list)
    requires forall i :: 0 <= i < |added| ==> added[i] in m0 && added[i] != dummy && added[i] !in list
    requires dummy !in list && Distinct(added)
    requires var last := if |added| == 1 then dummy else added[|added| - 1];
      last in m1 && Kept(m1[last := m1[last].(hwNext := B.ToQtd(added[0]))], m2, list)
    ensures Staged(m0, m2, dummy, added) && QueueKept(m0, m2, list)
  {
    assert forall i :: 1 <= i < |added| ==> added[i] != added[0];
    assert forall i :: 0 <= i < |added| - 1 ==> added[i] != added[|added| - 1];
  }

  /** The last store turns the dummy and the new descriptors into the end of the queue. */
  lemma Published(m0: Memory, m: Memory, list: seq<nat>, dummy: nat, added: seq<nat>)
    requires Prepared(m0, list, dummy, added) && Chain(m, list, dummy) && Staged(m0, m, dummy, added)
    ensures var m' := m[dummy := m[dummy].(token := m0[added[0]].token)];
      && Chain(m', Appended(list, dummy, added), added[0]) && Moved(m0, m', dummy, added)
      && (forall a :: a in [dummy] + added[1..] ==> Active(m', a))
  {
    Apart(m0, list, dummy, added);
    var m' := m[dummy := m[dummy].(token := m0[added[0]].token)];
    assert Moved(m0, m', dummy, added);
    var whole := Appended(list, dummy, added);
    forall i | 0 <= i < |whole|
      ensures whole[i] in m' && m'[whole[i]].hwNext == B.ToQtd(Node(whole, added[0], i + 1))
    {
      PublishedLink(m0, m, list, dummy, added, i);
    }
    DistinctMoved(list, dummy, added);
    assert !Active(m', added[0]);
    assert forall a :: a in added[1..] ==> exists i :: 1 <= i < |added| && added[i] == a;
  }

  lemma PublishedLink(m0: Memory, m: Memory, list: seq<nat>, dummy: nat, added: seq<nat>, i: nat)
    requires Prepared(m0, list, dummy, added) && Chain(m, list, dummy) && Staged(m0, m, dummy, added)
    requires i < |Appended(list, dummy, added)|
    ensures var m' := m[dummy := m[dummy].(token := m0[added[0]].token)]; var whole := Appended(list, dummy, added);
      whole[i] in m' && m'[whole[i]].hwNext == B.ToQtd(Node(whole, added[0], i + 1))
  {
    Apart(m0, list, dummy, added);
    var whole := Appended(list, dummy, added);
    if i < |list| {
      assert whole[i] == list[i] && list[i] in list;
    } else {
      var k := i - |list|;
      assert whole[i] == if k == 0 then dummy else added[k];
      if k < |added| - 1 {
        assert added[..|added| - 1][k] == added[k];
        assert m0[added[k]].hwNext == B.ToQtd(added[k + 1]);
      }
    }
  }

  lemma DistinctMoved(list: seq<nat>, dummy: nat, added: seq<nat>)
    requires added != [] && Distinct(list + [dummy] + added)
    ensures Distinct(list + [dummy] + added[1..] + [added[0]])
  {
    var all, moved := list + [dummy] + added, list + [dummy] + added[1..] + [added[0]];
    var n := |list| + 1;
    assert forall i :: 0 <= i < |moved| ==> moved[i] == all[if i < n then i else if i == |moved| - 1 then n else i + 1];
  }

  class QueueHead {
    var mem: Memory
    var list: seq<nat>
    var dummy: nat

    /** The controller finishes descriptors of the queue whenever it likes. */
    method Controller(done: map<nat, bv32>)
      modifies this`mem
      ensures Progress(old(mem), mem, list)
    {
      mem := map a | a in mem ::
        if a in done && a in list && Active(mem, a) && done[a] & STS_ACTIVE == 0 then mem[a].(token := done[a])
        else mem[a];
    }

    /** One store, and what the controller does before the next one. */
    method Store(a: nat, d: Desc, done: map<nat, bv32>)
      requires Chain(mem, list, dummy) && a !in list && (a == dummy ==> d.token & STS_ACTIVE == 0)
      modifies this`mem
      ensures Chain(mem, list, dummy) && Progress(old(mem)[a := d], mem, list) && Kept(old(mem)[a := d], mem, list)
    {
      StoreUnseen(mem, list, dummy, a, d);
      mem := mem[a := d];
      ghost var m := mem;
      Controller(done);
      ProgressKeeps(m, mem, list, dummy);
    }

    /** Copy the descriptor at `qtd` into the dummy, word by word. */
    method CopyToDummy(qtd: nat, done: seq<map<nat, bv32>>) returns (ghost trace: seq<Memory>)
      requires Chain(mem, list, dummy) && qtd in mem && qtd !in list && qtd != dummy && dummy !in list
      requires mem[qtd].token == STS_HALT && |done| == 4
      modifies this`mem
      ensures Chain(mem, list, dummy) && |trace| == 4 && forall m :: m in trace ==> Chain(m, list, dummy)
      ensures Kept(old(mem)[dummy := old(mem)[qtd]], mem, list)
    {
      DummyInactive(mem, list, dummy);
      hide Chain, Progress;
      Store(dummy, mem[dummy].(hwNext := mem[qtd].hwNext), done[0]);
      trace := [mem];
      Store(dummy, mem[dummy].(hwAltNext := mem[qtd].hwAltNext), done[1]);
      trace := trace + [mem];
      Store(dummy, mem[dummy].(token := mem[qtd].token), done[2]);
      trace := trace + [mem];
      Store(dummy, mem[dummy].(rest := mem[qtd].rest), done[3]);
      trace := trace + [mem];
    }

    /** The first new descriptor changes places with the dummy. */
    method Swap(added: seq<nat>, done: seq<map<nat, bv32>>) returns (ghost trace: seq<Memory>)
      requires Chain(mem, list, dummy) && Prepared(mem, list, dummy, added) && |done| == 6
      modifies this`mem
      ensures Chain(mem, list, dummy) && |trace| == 6 && forall m :: m in trace ==> Chain(m, list, dummy)
      ensures added[0] in old(mem)
      ensures Kept(Swapped(old(mem), dummy, added[0]), mem, list)
    {
      Apart(mem, list, dummy, added);
      DummyInactive(mem, list, dummy);
      hide Chain, Active, Prepared, Progress, Distinct;
      var qtd := added[0];
      // deactivated first, so that its token can be copied as well
      Store(qtd, mem[qtd].(token := STS_HALT), done[0]);
      trace := [mem];
      ghost var more := CopyToDummy(qtd, done[1..5]);
      trace := trace + more;
      Store(qtd, INITIAL, done[5]);
      trace := trace + [mem];
    }

    /** The stores up to the write barrier: none of them is seen.  `done` is what the controller does
        after each of them; `trace` is the memory at those times. */
    method Stage(added: seq<nat>, done: seq<map<nat, bv32>>) returns (ghost trace: seq<Memory>)
      requires Chain(mem, list, dummy) && Prepared(mem, list, dummy, added) && |done| == 7
      modifies this`mem
      ensures Chain(mem, list, dummy) && Staged(old(mem), mem, dummy, added)
      ensures forall m :: m in trace ==> Chain(m, list, dummy)
      ensures |trace| == 7 && QueueKept(old(mem), mem, list)
    {
      Apart(mem, list, dummy, added);
      DummyInactive(mem, list, dummy);
      hide Chain, Active, Prepared, Progress, Distinct, Kept, Staged, QueueKept, Swapped;
      ghost var m0 := mem;
      trace := Swap(added, done[..6]);
      ghost var m1 := mem;
      StillThere(m0, m1, list, dummy, added);
      // the queue will end at its new dummy
      var last := if |added| == 1 then dummy else added[|added| - 1];
      Store(last, mem[last].(hwNext := B.ToQtd(added[0])), done[6]);
      trace := trace + [mem];
      AllStaged(m0, m1, mem, list, dummy, added);
    }

    /** qh_append_tds: while it is at work the controller can only execute what was queued before, and
        afterwards it can execute exactly that and the new descriptors. */
    method QhAppendTds(added: seq<nat>, done: seq<map<nat, bv32>>) returns (ghost trace: seq<Memory>)
      requires Chain(mem, list, dummy) && Prepared(mem, list, dummy, added) && |done| == 7
      modifies this
      ensures list == Appended(old(list), old(dummy), added) && dummy == added[0]
      ensures |trace| == 7 && forall m :: m in trace ==> Chain(m, old(list), old(dummy))
      ensures Chain(mem, list, dummy) && Moved(old(mem), mem, old(dummy), added) && QueueKept(old(mem), mem, old(list))
      ensures forall a :: a in [old(dummy)] + added[1..] ==> Active(mem, a)
    {
      ghost var m0 := mem;
      var token := mem[added[0]].token;
      trace := Stage(added, done);
      Published(m0, mem, list, dummy, added);
      hide Chain, Active, Moved, Distinct;
      mem := mem[dummy := mem[dummy].(token := token)];
      list := Appended(list, dummy, added);
      dummy := added[0];
    }
  }
}
