/** The periodic schedule: a table of frame list heads, in software (pshadow) and for the hardware
    (periodic), whose lists hold ITDs first and then share one sparse tree of queue heads. */
module PeriodicTree {
  import opened Arith
  import opened PeriodicNodes

  /** A place that holds a shadow pointer and, beside it, the hardware link it mirrors. */
  datatype Place = Slot(frame: nat) | InItd(itd: Itd) | InQh(qh: Qh)

  /** periodic_next_shadow and shadow_next_periodic: the tag read from the hardware link decides
      which member of the untagged pointer is used. */
  function NextPlace(here: Shadow, tag: Tag): Place
    requires tag == TypeQh ==> here.QhRef?
    requires tag == TypeItd ==> here.ItdRef?
    requires tag == TypeQh || tag == TypeItd
  {
    if tag == TypeQh then InQh(here.qh) else InItd(here.itd)
  }

  /** Entry `k` was put behind everything at least as slow and before everything faster. */
  ghost predicate AtItsPlace(order: seq<Entry>, k: nat)
  {
    && k < |order|
    && (forall a :: 0 <= a < k ==> order[a].qh.period >= order[k].qh.period)
    && (forall a :: k < a < |order| ==> order[a].qh.period < order[k].qh.period)
  }

  /** Stepping by the stride goes from one visit to the next. */
  lemma NoVisitBetween(e: Entry, i: nat)
    requires Fires(e, i)
    ensures Fires(e, i + Stride(e.qh))
    ensures forall f: nat :: i < f < i + Stride(e.qh) ==> !Fires(e, f)
  {
    FiresMeaning(e, i);
    FiresMeaning(e, i + Stride(e.qh));
    StepResidue(i, Stride(e.qh), e.start);
    forall f: nat | i < f < i + Stride(e.qh)
      ensures !Fires(e, f)
    {
      FiresMeaning(e, f);
    }
  }

  lemma StartBelow(e: Entry, size: nat)
    requires EntryOk(e, size) && IsPow2(size)
    ensures e.start < size
  {
  }

  /** Nothing between `pos` and `k` fires in frame `i`, and the entry before `pos` does. */
  ghost predicate AtSpot(order: seq<Entry>, k: nat, i: nat, pos: nat)
  {
    && k < |order| && pos <= k && Fires(order[k], i)
    && (pos > 0 ==> Fires(order[pos - 1], i))
    && (forall x :: pos <= x < k ==> !Fires(order[x], i))
  }

  /** From the spot, entry `k` comes next when it is present, and its successor when it is not. */
  lemma SpotNext(order: seq<Entry>, k: nat, i: nat, pos: nat, size: nat)
    requires OrderOk(order, size) && AtSpot(order, k, i, pos)
    ensures NextIdx(order, pos, i, |order|) == k
    ensures NextIdx(order, pos, i, k) == NextIdx(order, k + 1, order[k].start, k)
    ensures pos > 0 ==> NextIdx(order, pos, order[pos - 1].start, |order|) == k
  {
    NextAgrees(order, k, i, k, size);
    if pos > 0 {
      NextAgrees(order, pos - 1, i, |order|, size);
    }
  }

  /** Up to the next visit of entry `k`, frame `f` sees the same list with and without it, unless
      the slot itself is the spot. */
  lemma SettleSlot(order: seq<Entry>, k: nat, i: nat, pos: nat, f: nat, size: nat)
    requires OrderOk(order, size) && AtSpot(order, k, i, pos)
    requires i <= f < i + Stride(order[k].qh) && (f != i || pos > 0)
    ensures NextIdx(order, 0, f, k) == NextIdx(order, 0, f, |order|)
  {
    NoVisitBetween(order[k], i);
    HideIrrelevant(order, 0, f, k);
  }

  /** The same for the pointer of an entry whose first frame lies in that stretch, unless that
      entry is the spot. */
  lemma SettleEntry(order: seq<Entry>, k: nat, i: nat, pos: nat, a: nat, size: nat)
    requires OrderOk(order, size) && AtSpot(order, k, i, pos)
    requires a < |order| && a != k && a + 1 != pos && i <= order[a].start < i + Stride(order[k].qh)
    ensures NextIdx(order, a + 1, order[a].start, k) == NextIdx(order, a + 1, order[a].start, |order|)
  {
    NoVisitBetween(order[k], i);
    StartIsFirst(order[a], i, size);
    HideIrrelevant(order, a + 1, order[a].start, k);
  }

  /** Before its start frame an entry fires nowhere, so the walk may begin there. */
  lemma BeforeStart(order: seq<Entry>, k: nat, size: nat)
    requires OrderOk(order, size) && k < |order|
    ensures forall f :: 0 <= f < order[k].start ==> NextIdx(order, 0, f, k) == NextIdx(order, 0, f, |order|)
    ensures forall a :: 0 <= a < |order| && a != k && order[a].start < order[k].start ==>
      NextIdx(order, a + 1, order[a].start, k) == NextIdx(order, a + 1, order[a].start, |order|)
  {
    forall f | 0 <= f < order[k].start
      ensures NextIdx(order, 0, f, k) == NextIdx(order, 0, f, |order|)
    {
      StartIsFirst(order[k], f, size);
      HideIrrelevant(order, 0, f, k);
    }
    forall a | 0 <= a < |order| && a != k && order[a].start < order[k].start
      ensures NextIdx(order, a + 1, order[a].start, k) == NextIdx(order, a + 1, order[a].start, |order|)
    {
      StartIsFirst(order[k], order[a].start, size);
      HideIrrelevant(order, a + 1, order[a].start, k);
    }
  }

  /** The pointers of the tree: the one each frame keeps after its ITDs, and the one in each entry
      of the order. */
  datatype Links = Links(heads: seq<Shadow>, nexts: seq<Shadow>)

  /** The pointers while entry `k` is being linked or unlinked frame by frame: frames, and entries
      whose first frame, lies before `i` already see the new list, the others the old one. */
  ghost predicate Mixed(order: seq<Entry>, l: Links, size: nat, k: nat, i: nat, before: nat, after: nat)
  {
    && OrderOk(order, size) && |l.heads| == size && |l.nexts| == |order|
    && (forall f {:trigger l.heads[f]} :: 0 <= f < size ==>
          l.heads[f] == PtrAt(order, NextIdx(order, 0, f, if f < i then after else before)))
    && (forall a {:trigger l.nexts[a]} :: 0 <= a < |order| && a != k ==>
          l.nexts[a] ==
            PtrAt(order, NextIdx(order, a + 1, order[a].start, if order[a].start < i then after else before)))
  }

  /** The tree at rest. */
  ghost predicate Threaded(order: seq<Entry>, l: Links, size: nat)
  {
    Mixed(order, l, size, |order|, 0, |order|, |order|)
  }

  /** The pointer a walk through frame `i` reads after the entries before `pos`. */
  ghost function SpotPtr(l: Links, i: nat, pos: nat): Shadow
    requires i < |l.heads| && pos <= |l.nexts|
  {
    if pos == 0 then l.heads[i] else l.nexts[pos - 1]
  }

  /** Which entry the pointer at the spot still skips. */
  ghost function Sees(order: seq<Entry>, i: nat, pos: nat, before: nat, after: nat): nat
    requires pos <= |order|
  {
    if pos > 0 && order[pos - 1].start < i then after else before
  }

  /** What a walk through frame `i` finds at a spot. */
  lemma AtSpotFind(order: seq<Entry>, l: Links, size: nat, k: nat, i: nat, before: nat, after: nat, pos: nat)
    requires Mixed(order, l, size, k, i, before, after) && i < size
    requires pos <= |order| && pos != k + 1 && (pos > 0 ==> Fires(order[pos - 1], i))
    ensures SpotPtr(l, i, pos) == PtrAt(order, NextIdx(order, pos, i, Sees(order, i, pos, before, after)))
  {
    if pos > 0 {
      NextAgrees(order, pos - 1, i, Sees(order, i, pos, before, after), size);
    }
  }

  /** Once frame `i` is settled at the spot, every other pointer is already as it must be until the
      next visit of entry `k`. */
  lemma Elsewhere(order: seq<Entry>, l: Links, size: nat, k: nat, i: nat, before: nat, after: nat, pos: nat)
    requires Mixed(order, l, size, k, i, before, after) && AtSpot(order, k, i, pos)
    requires (before == k && after == |order|) || (before == |order| && after == k)
    ensures forall f {:trigger l.heads[f]} :: 0 <= f < size && (f != i || pos > 0) ==>
      l.heads[f] == PtrAt(order, NextIdx(order, 0, f, if f < i + Stride(order[k].qh) then after else before))
    ensures forall a {:trigger l.nexts[a]} :: 0 <= a < |order| && a != k && a + 1 != pos ==>
      l.nexts[a] == PtrAt(order, NextIdx(order, a + 1, order[a].start,
        if order[a].start < i + Stride(order[k].qh) then after else before))
  {
    forall f | 0 <= f < size && (f != i || pos > 0)
      ensures l.heads[f] == PtrAt(order, NextIdx(order, 0, f, if f < i + Stride(order[k].qh) then after else before))
    {
      if i <= f < i + Stride(order[k].qh) {
        SettleSlot(order, k, i, pos, f, size);
      }
    }
    forall a | 0 <= a < |order| && a != k && a + 1 != pos
      ensures l.nexts[a] == PtrAt(order,
        NextIdx(order, a + 1, order[a].start, if order[a].start < i + Stride(order[k].qh) then after else before))
    {
      if i <= order[a].start < i + Stride(order[k].qh) {
        SettleEntry(order, k, i, pos, a, size);
      }
    }
  }

  /** The walk of qh_link_periodic through frame `i` stands behind entry `pos - 1`, before the place
      of entry `k`. */
  ghost predicate Seeking(order: seq<Entry>, k: nat, i: nat, pos: nat)
  {
    k < |order| && pos <= k && (pos > 0 ==> Fires(order[pos - 1], i))
  }

  /** A node at least as slow as entry `k` lies before it; the walk goes on behind that node. */
  lemma Advance(order: seq<Entry>, l: Links, size: nat, k: nat, i: nat, pos: nat) returns (m: nat)
    requires Mixed(order, l, size, k, i, k, |order|) && i < size && AtItsPlace(order, k)
    requires Seeking(order, k, i, pos) && SpotPtr(l, i, pos).QhRef?
    requires SpotPtr(l, i, pos).qh != order[k].qh && order[k].qh.period <= SpotPtr(l, i, pos).qh.period
    ensures pos <= m < k && Seeking(order, k, i, m + 1) && SpotPtr(l, i, pos).qh == order[m].qh
  {
    AtSpotFind(order, l, size, k, i, k, |order|, pos);
    m := NextIdx(order, pos, i, Sees(order, i, pos, k, |order|));
  }

  /** A predecessor visited before frame `i` was visited together with entry `k`. */
  lemma EarlierPass(order: seq<Entry>, size: nat, k: nat, i: nat, pos: nat)
    requires OrderOk(order, size) && AtSpot(order, k, i, pos) && pos > 0 && order[pos - 1].start < i
    ensures order[k].start < i
  {
    FasterAgree(order[pos - 1], order[k], i, size);
    StartIsFirst(order[k], order[pos - 1].start, size);
  }

  /** The walk ends at the place of entry `k`; it meets the entry itself exactly when an earlier
      pass linked it to the same predecessor. */
  lemma Arrived(order: seq<Entry>, l: Links, size: nat, k: nat, i: nat, pos: nat)
    requires Mixed(order, l, size, k, i, k, |order|) && i < size && AtItsPlace(order, k) && Fires(order[k], i)
    requires Seeking(order, k, i, pos)
    requires var here := SpotPtr(l, i, pos);
      here.QhRef? ==> here.qh == order[k].qh || order[k].qh.period > here.qh.period
    ensures AtSpot(order, k, i, pos)
    ensures SpotPtr(l, i, pos) == QhRef(order[k].qh) <==> pos > 0 && order[pos - 1].start < i
    ensures if SpotPtr(l, i, pos) == QhRef(order[k].qh) then order[k].start < i
      else SpotPtr(l, i, pos) == PtrAt(order, NextIdx(order, k + 1, order[k].start, k))
  {
    AtSpotFind(order, l, size, k, i, k, |order|, pos);
    SpotNext(order, k, i, pos, size);
    if pos > 0 && order[pos - 1].start < i {
      EarlierPass(order, size, k, i, pos);
    }
  }

  /** Store at the spot of frame `i`. */
  ghost function SetSpot(l: Links, i: nat, pos: nat, p: Shadow): Links
    requires i < |l.heads| && pos <= |l.nexts|
  {
    if pos == 0 then l.(heads := l.heads[i := p]) else l.(nexts := l.nexts[pos - 1 := p])
  }

  /** Linking at the spot, or finding entry `k` already there, completes frame `i` and with it every
      frame up to the next visit. */
  lemma LinkedFrame(order: seq<Entry>, l: Links, size: nat, k: nat, i: nat, pos: nat, l': Links)
    requires Mixed(order, l, size, k, i, k, |order|) && i < size && AtSpot(order, k, i, pos)
    requires SpotPtr(l, i, pos) == QhRef(order[k].qh) <==> pos > 0 && order[pos - 1].start < i
    requires if SpotPtr(l, i, pos) == QhRef(order[k].qh) then l' == l
      else l' == SetSpot(l.(nexts := l.nexts[k := SpotPtr(l, i, pos)]), i, pos, QhRef(order[k].qh))
    ensures Mixed(order, l', size, k, i + Stride(order[k].qh), k, |order|)
  {
    Elsewhere(order, l, size, k, i, k, |order|, pos);
    SpotNext(order, k, i, pos, size);
    if pos > 0 {
      StartIsFirst(order[pos - 1], i, size);
    }
  }

  /** The order without the new entry is the old order. */
  lemma InsertedRemoved(order: seq<Entry>, e: Entry)
    ensures var k := InsertPos(order, e.qh.period);
      Inserted(order, e)[k] == e && Removed(Inserted(order, e), k) == order
  {
    var k := InsertPos(order, e.qh.period);
    var b := Inserted(order, e);
    assert b[..k] == order[..k];
    assert b[k + 1..] == order[k..];
  }

  lemma InsertedPlace(order: seq<Entry>, e: Entry)
    requires SlowestFirst(order)
    ensures AtItsPlace(Inserted(order, e), InsertPos(order, e.qh.period))
  {
    var k := InsertPos(order, e.qh.period);
    var b := Inserted(order, e);
    forall x | k < x < |b|
      ensures b[x].qh.period < b[k].qh.period
    {
      assert b[x] == order[x - 1];
      assert order[k].qh.period < e.qh.period;
    }
  }

  /** The pointers seen with a place for the new entry's own pointer. */
  ghost function WithOwn(l: Links, k: nat, own: Shadow): Links
    requires k <= |l.nexts|
  {
    Links(l.heads, l.nexts[..k] + [own] + l.nexts[k..])
  }

  lemma LinkBeginsAt(b: seq<Entry>, k: nat, l: Links, size: nat, own: Shadow, a: nat)
    requires OrderOk(b, size) && k < |b| && Threaded(Removed(b, k), l, size) && a < |b| && a != k
    ensures WithOwn(l, k, own).nexts[a] == PtrAt(b, NextIdx(b, a + 1, b[a].start, k))
  {
    HideIsRemove(b, k, a + 1, b[a].start);
    var x := if a < k then a else a - 1;
    assert Removed(b, k)[x] == b[a] && WithOwn(l, k, own).nexts[a] == l.nexts[x];
  }

  /** Before its first frame is visited, a new entry is hidden everywhere: nothing has changed. */
  lemma LinkBegins(b: seq<Entry>, k: nat, l: Links, size: nat, own: Shadow)
    requires OrderOk(b, size) && k < |b| && Threaded(Removed(b, k), l, size)
    ensures Mixed(b, WithOwn(l, k, own), size, k, b[k].start, k, |b|)
  {
    BeforeStart(b, k, size);
    forall f | 0 <= f < size
      ensures l.heads[f] == PtrAt(b, NextIdx(b, 0, f, k))
    {
      HideIsRemove(b, k, 0, f);
    }
    forall a | 0 <= a < |b| && a != k
      ensures WithOwn(l, k, own).nexts[a] == PtrAt(b, NextIdx(b, a + 1, b[a].start, k))
    {
      LinkBeginsAt(b, k, l, size, own, a);
    }
  }

  /** When all frames are done, the new entry is threaded like the others. */
  lemma LinkEnds(order: seq<Entry>, l: Links, size: nat, k: nat, i: nat)
    requires Mixed(order, l, size, k, i, k, |order|) && i >= size && k < |order|
    requires l.nexts[k] == PtrAt(order, NextIdx(order, k + 1, order[k].start, k))
    ensures Threaded(order, l, size)
  {
    HideIrrelevant(order, k + 1, order[k].start, k);
  }

  /** A tree at rest, seen as one from which entry `k` is about to go. */
  lemma UnlinkBegins(order: seq<Entry>, l: Links, size: nat, k: nat)
    requires Threaded(order, l, size) && k < |order|
    ensures Mixed(order, l, size, k, order[k].start, |order|, k)
    ensures l.nexts[k] == PtrAt(order, NextIdx(order, k + 1, order[k].start, k))
  {
    BeforeStart(order, k, size);
    HideIrrelevant(order, k + 1, order[k].start, k);
  }

  /** Once hidden in every frame, entry `k` can be dropped from the order. */
  lemma UnlinkEnds(order: seq<Entry>, l: Links, size: nat, k: nat, i: nat)
    requires Mixed(order, l, size, k, i, |order|, k) && i >= size && k < |order|
    ensures Threaded(Removed(order, k), Links(l.heads, l.nexts[..k] + l.nexts[k + 1..]), size)
  {
    hide SlowestFirst, IsNext, NoDuplicates, Fires;
    var s := Removed(order, k);
    var l' := Links(l.heads, l.nexts[..k] + l.nexts[k + 1..]);
    RemovedOk(order, k, size);
    forall f | 0 <= f < size
      ensures l'.heads[f] == PtrAt(s, NextIdx(s, 0, f, |s|))
    {
      HideIsRemove(order, k, 0, f);
    }
    forall a | 0 <= a < |s|
      ensures l'.nexts[a] == PtrAt(s, NextIdx(s, a + 1, s[a].start, |s|))
    {
      var b := if a < k then a else a + 1;
      assert s[a] == order[b] && l'.nexts[a] == l.nexts[b];
      HideIsRemove(order, k, b + 1, order[b].start);
    }
  }

  /** The walk of periodic_unlink through frame `i` stands behind entry `pos - 1`; `base` is the
      last spot it passed before the place of entry `k`, which was gone from there if the walk
      came by. */
  ghost predicate Hunting(order: seq<Entry>, k: nat, i: nat, pos: nat, base: nat)
  {
    && k < |order| && pos <= |order| && pos != k + 1 && (pos > 0 ==> Fires(order[pos - 1], i))
    && (if pos <= k then base == pos else AtSpot(order, k, i, base) && base > 0 && order[base - 1].start < i)
  }

  lemma HuntOn(order: seq<Entry>, l: Links, size: nat, k: nat, i: nat, pos: nat, base: nat) returns (m: nat, base': nat)
    requires Mixed(order, l, size, k, i, |order|, k) && i < size && Hunting(order, k, i, pos, base)
      && Fires(order[k], i)
    requires SpotPtr(l, i, pos).QhRef? && SpotPtr(l, i, pos).qh != order[k].qh
    ensures pos <= m < |order| && SpotPtr(l, i, pos).qh == order[m].qh && Hunting(order, k, i, m + 1, base')
  {
    AtSpotFind(order, l, size, k, i, |order|, k, pos);
    m := NextIdx(order, pos, i, Sees(order, i, pos, |order|, k));
    base' := if m < k then m + 1 else base;
  }

  /** The walk finds entry `k` behind a spot that still sees it, or runs to the end because the
      spot before its place no longer does. */
  lemma HuntDone(order: seq<Entry>, l: Links, size: nat, k: nat, i: nat, pos: nat, base: nat)
    requires Mixed(order, l, size, k, i, |order|, k) && i < size && Hunting(order, k, i, pos, base)
      && Fires(order[k], i)
    requires SpotPtr(l, i, pos) == Null || SpotPtr(l, i, pos) == QhRef(order[k].qh)
    ensures AtSpot(order, k, i, base)
    ensures if SpotPtr(l, i, pos) == Null then base > 0 && order[base - 1].start < i
      else base == pos && !(pos > 0 && order[pos - 1].start < i)
  {
    AtSpotFind(order, l, size, k, i, |order|, k, pos);
  }

  /** Bypassing entry `k` at the spot, or finding it bypassed, completes frame `i` and with it every
      frame up to the next visit. */
  lemma UnlinkedFrame(order: seq<Entry>, l: Links, size: nat, k: nat, i: nat, base: nat, l': Links)
    requires Mixed(order, l, size, k, i, |order|, k) && i < size && AtSpot(order, k, i, base)
    requires l.nexts[k] == PtrAt(order, NextIdx(order, k + 1, order[k].start, k))
    requires if base > 0 && order[base - 1].start < i then l' == l else l' == SetSpot(l, i, base, l.nexts[k])
    ensures Mixed(order, l', size, k, i + Stride(order[k].qh), |order|, k)
  {
    Elsewhere(order, l, size, k, i, |order|, k, base);
    SpotNext(order, k, i, base, size);
    if base > 0 {
      StartIsFirst(order[base - 1], i, size);
      NextAgrees(order, base - 1, i, k, size);
    }
  }

  class Schedule {
    const size: nat
    const pshadow: array<Shadow>
    const periodic: array<Link>
    var uframeMax: nat
    var randomFrame: nat
    ghost var order: seq<Entry>
    ghost var itds: seq<seq<Itd>>
    ghost var links: Links
    // every object the schedule may write: the two tables and all linked nodes
    ghost var nodes: set<object>

    constructor (size: nat)
      requires IsPow2(size) && size < NO_FRAME
      ensures Valid() && order == [] && this.size == size && uframeMax == 100 && randomFrame == 0
      ensures itds == seq(size, _ => [])
      ensures fresh(nodes)
    {
      this.size := size;
      pshadow := new Shadow[size](_ => Null);
      periodic := new Link[size](_ => ListEnd);
      uframeMax, randomFrame := 100, 0;
      order, itds := [], seq(size, _ => []);
      links, nodes := Links(seq(size, _ => Null), []), {pshadow, periodic};
    }

    ghost function Cell(p: Place): set<object>
    {
      match p
      case Slot(_) => {pshadow, periodic}
      case InItd(itd) => {itd}
      case InQh(qh) => {qh}
    }

    function ShadowAt(p: Place): Shadow
      requires p.Slot? ==> p.frame < pshadow.Length
      reads Cell(p)
    {
      match p
      case Slot(f) => pshadow[f]
      case InItd(itd) => itd.itdNext
      case InQh(qh) => qh.qhNext
    }

    function LinkAt(p: Place): Link
      requires p.Slot? ==> p.frame < periodic.Length
      reads Cell(p)
    {
      match p
      case Slot(f) => periodic[f]
      case InItd(itd) => itd.hwNext
      case InQh(qh) => qh.hwNext
    }

    ghost predicate Shape()
      reads this, nodes
    {
      && this !in nodes && pshadow in nodes && periodic in nodes
      && (forall a :: 0 <= a < |order| ==> order[a].qh in nodes)
      && (forall f, t :: 0 <= f < |itds| && 0 <= t < |itds[f]| ==> itds[f][t] in nodes)
      && pshadow.Length == periodic.Length == |itds| == size < NO_FRAME
      && OrderOk(order, size)
      && (forall a :: 0 <= a < |order| ==>
            order[a].qh.start == order[a].start && order[a].qh.smask == order[a].smask
              && order[a].qh.cmask == order[a].cmask)
      && (forall f, t :: 0 <= f < size && 0 <= t < |itds[f]| ==> itds[f][t].frame == f)
      && (forall f, t, u :: 0 <= f < size && 0 <= t < u < |itds[f]| ==> itds[f][t] != itds[f][u])
    }

    /** The ITDs of a frame hang off its slot, in order; the last of them, or the slot itself,
        holds the pointer into the tree. */
    ghost predicate ItdsChained()
      requires Shape()
      reads this, nodes
    {
      && (forall f :: 0 <= f < size && itds[f] != [] ==> pshadow[f] == ItdRef(itds[f][0]))
      && (forall f, t {:trigger itds[f][t].itdNext} :: 0 <= f < size && 0 <= t < |itds[f]| - 1 ==>
        itds[f][t].itdNext == ItdRef(itds[f][t + 1]))
    }

    ghost function Head(f: nat): Place
      requires f < |itds|
      reads this
    {
      if itds[f] == [] then Slot(f) else InItd(itds[f][|itds[f]| - 1])
    }

    /** Every hardware link but that of entry `k` names the node its shadow pointer names. */
    ghost predicate Mirrored(k: nat)
      requires Shape()
      reads this, nodes
    {
      && (forall f :: 0 <= f < size ==> periodic[f] == Mirror(pshadow[f]))
      && (forall f, t {:trigger itds[f][t].hwNext} :: 0 <= f < size && 0 <= t < |itds[f]| ==>
        itds[f][t].hwNext == Mirror(itds[f][t].itdNext))
      && (forall a {:trigger order[a].qh.hwNext} :: 0 <= a < |order| && a != k ==>
        order[a].qh.hwNext == Mirror(order[a].qh.qhNext))
    }

    /** `links` are the pointers of the tree. */
    ghost predicate Holds()
      requires Shape()
      reads this, nodes
    {
      && |links.heads| == size && |links.nexts| == |order|
      && (forall f :: 0 <= f < size ==> ShadowAt(Head(f)) == links.heads[f])
      && (forall a {:trigger order[a].qh.qhNext} :: 0 <= a < |order| ==> order[a].qh.qhNext == links.nexts[a])
    }

    ghost predicate Consistent(k: nat)
      reads this, nodes
    {
      Shape() && ItdsChained() && Mirrored(k) && Holds()
    }

    ghost predicate Valid()
      reads this, nodes
    {
      Consistent(|order|) && Threaded(order, links, size)
    }

    /** Skip the ITDs at the head of a frame. */
    method SkipItds(i: nat, ghost k: nat) returns (prev: Place, here: Shadow)
      requires i < size && Consistent(k) && !links.heads[i].ItdRef?
      ensures prev == Head(i) && here == links.heads[i]
    {
      prev := Slot(i);
      here := pshadow[i];
      ghost var t := 0;
      while here != Null
        invariant 0 <= t <= |itds[i]|
        invariant prev == if t == 0 then Slot(i) else InItd(itds[i][t - 1])
        invariant here == ShadowAt(prev) && (t < |itds[i]| ==> here == ItdRef(itds[i][t]))
        decreases |itds[i]| - t
      {
        var tag := NextType(LinkAt(prev));
        if tag == TypeQh {
          break;
        }
        prev := NextPlace(here, tag);
        here := ShadowAt(prev);
        t := t + 1;
      }
    }

    /** Where the pointer into the part of the order from `pos` on lives. */
    ghost function Spot(i: nat, pos: nat): Place
      requires i < |itds| && pos <= |order|
      reads this
    {
      if pos == 0 then Head(i) else InQh(order[pos - 1].qh)
    }

    /** Sorting each branch by period (slow to fast) lets the frames share the inner nodes: from the
        head of the branch go on to the place for `qh`, or the place that already leads to it. */
    method SkipSlower(qh: Qh, i: nat, prev0: Place, here0: Shadow, ghost k: nat)
      returns (prev: Place, here: Shadow, ghost pos: nat)
      requires i < size && Consistent(k) && prev0 == Head(i) && here0 == links.heads[i]
      requires AtItsPlace(order, k) && order[k].qh == qh && Fires(order[k], i)
      requires Mixed(order, links, size, k, i, k, |order|)
      ensures AtSpot(order, k, i, pos) && prev == Spot(i, pos) && here == SpotPtr(links, i, pos)
      ensures here == QhRef(qh) <==> pos > 0 && order[pos - 1].start < i
      ensures if here == QhRef(qh) then order[k].start < i
        else here == PtrAt(order, NextIdx(order, k + 1, order[k].start, k))
    {
      hide SlowestFirst, EntryOk;
      prev, here, pos := prev0, here0, 0;
      while here != Null && here.qh != qh && qh.period <= here.qh.period
        invariant Seeking(order, k, i, pos) && prev == Spot(i, pos) && here == SpotPtr(links, i, pos)
        invariant here == Null || here.QhRef?
        decreases k - pos
      {
        ghost var m := Advance(order, links, size, k, i, pos);
        prev := InQh(here.qh);
        here := here.qh.qhNext;
        pos := m + 1;
      }
      Arrived(order, links, size, k, i, pos);
    }

    /** Store a pointer into the tree, and its mirror, in the slot of a frame without ITDs. */
    method StoreInSlot(i: nat, p: Shadow, link: Link, ghost k: nat)
      requires i < size && Consistent(k) && itds[i] == [] && link == Mirror(p)
      modifies this`links, pshadow, periodic
      ensures Consistent(k) && links == SetSpot(old(links), i, 0, p)
    {
      hide OrderOk;
      pshadow[i] := p;
      periodic[i] := link;
      links := SetSpot(links, i, 0, p);
    }

    /** The same in the last ITD of a frame. */
    method StoreInItd(itd: Itd, p: Shadow, link: Link, ghost i: nat, ghost k: nat)
      requires i < size && Consistent(k) && Head(i) == InItd(itd) && link == Mirror(p)
      modifies this`links, itd
      ensures Consistent(k) && links == SetSpot(old(links), i, 0, p)
    {
      hide OrderOk;
      itd.itdNext := p;
      itd.hwNext := link;
      links := SetSpot(links, i, 0, p);
    }

    /** The same in a queue head. */
    method StoreInQh(qh: Qh, p: Shadow, link: Link, ghost i: nat, ghost pos: nat, ghost k: nat)
      requires i < size && Consistent(k) && pos < |order| && order[pos].qh == qh && link == Mirror(p)
      modifies this`links, qh`qhNext, qh`hwNext
      ensures Consistent(k) && links == SetSpot(old(links), i, pos + 1, p) && qh.hwNext == link
    {
      hide SlowestFirst, EntryOk;
      qh.qhNext := p;
      qh.hwNext := link;
      links := SetSpot(links, i, pos + 1, p);
    }

    method StoreAtSpot(prev: Place, i: nat, p: Shadow, link: Link, ghost k: nat, ghost pos: nat)
      requires i < size && Consistent(k) && k < |order| && pos <= k && prev == Spot(i, pos) && link == Mirror(p)
      modifies this`links, Cell(prev)
      ensures Consistent(k) && links == SetSpot(old(links), i, pos, p)
      ensures order[k].qh.hwNext == old(order[k].qh.hwNext)
    {
      match prev {
        case Slot(f) => StoreInSlot(i, p, link, k);
        case InItd(itd) => StoreInItd(itd, p, link, i, k);
        case InQh(qh) => StoreInQh(qh, p, link, i, pos - 1, k);
      }
    }

    /** The hardware link at a spot names the node its pointer names. */
    lemma SpotMirror(prev: Place, i: nat, k: nat, pos: nat)
      requires i < size && Consistent(k) && pos != k + 1 && pos <= |order| && prev == Spot(i, pos)
      ensures LinkAt(prev) == Mirror(SpotPtr(links, i, pos))
    {
    }

    /** Point `qh` at its successor in frame `i`.  Its hardware link is left alone at the end of a
        branch, where it still is the end marker. */
    method PointAt(qh: Qh, here: Shadow, link: Link, ghost k: nat)
      requires Consistent(k) && k < |order| && order[k].qh == qh
      requires here != Null ==> link == Mirror(here)
      requires here == Null ==> qh.hwNext == ListEnd
      modifies this`links, qh`qhNext, qh`hwNext
      ensures Consistent(k) && links == old(links).(nexts := old(links).nexts[k := here])
      ensures qh.hwNext == Mirror(here)
    {
      hide SlowestFirst, EntryOk;
      qh.qhNext := here;
      if here != Null {
        qh.hwNext := link;
      }
      links := links.(nexts := links.nexts[k := here]);
    }

    /** The pointers of entry `k` itself lead to its successor. */
    ghost predicate OwnLink(k: nat)
      reads this, nodes
    {
      && k < |order| == |links.nexts| && order[k].qh in nodes
      && links.nexts[k] == PtrAt(order, NextIdx(order, k + 1, order[k].start, k))
      && order[k].qh.hwNext == Mirror(links.nexts[k])
    }

    /** Splice `qh` in between the spot and its successor. */
    method SpliceIn(qh: Qh, i: nat, prev: Place, here: Shadow, ghost k: nat, ghost pos: nat)
      requires i < size && Consistent(k) && k < |order| && order[k].qh == qh && pos <= k
      requires prev == Spot(i, pos) && here == SpotPtr(links, i, pos)
      requires here == PtrAt(order, NextIdx(order, k + 1, order[k].start, k))
      requires here == Null ==> qh.hwNext == ListEnd
      modifies this`links, qh`qhNext, qh`hwNext, Cell(prev)
      ensures Consistent(k) && OwnLink(k)
      ensures links == SetSpot(old(links).(nexts := old(links).nexts[k := here]), i, pos, QhRef(qh))
    {
      SpotMirror(prev, i, k, pos);
      PointAt(qh, here, LinkAt(prev), k);
      StoreAtSpot(prev, i, QhRef(qh), To(qh.dma, TypeQh), k, pos);
    }

    /** Walk frame `i` to the place of `qh`. */
    method Seek(qh: Qh, i: nat, ghost k: nat) returns (prev: Place, here: Shadow, ghost pos: nat)
      requires AtItsPlace(order, k) && order[k].qh == qh && i < size && Fires(order[k], i)
      requires Consistent(k) && Mixed(order, links, size, k, i, k, |order|)
      ensures AtSpot(order, k, i, pos) && prev == Spot(i, pos) && here == SpotPtr(links, i, pos)
      ensures here == QhRef(qh) <==> pos > 0 && order[pos - 1].start < i
      ensures if here == QhRef(qh) then order[k].start < i
        else here == PtrAt(order, NextIdx(order, k + 1, order[k].start, k))
      ensures Consistent(k) && Cell(prev) <= nodes && qh in nodes
    {
      AtSpotFind(order, links, size, k, i, k, |order|, 0);
      prev, here := SkipItds(i, k);
      hide Mixed, Consistent;
      prev, here, pos := SkipSlower(qh, i, prev, here, k);
    }

    /** One pass of the loop in qh_link_periodic: link `qh` into frame `i`. */
    method LinkInFrame(qh: Qh, i: nat, ghost k: nat)
      requires AtItsPlace(order, k) && order[k].qh == qh && i < size && Fires(order[k], i)
      requires Consistent(k) && Mixed(order, links, size, k, i, k, |order|)
      requires if i > order[k].start then OwnLink(k) else qh.hwNext == ListEnd
      modifies this`links, nodes
      ensures Consistent(k) && OwnLink(k) && Mixed(order, links, size, k, i + Stride(qh), k, |order|)
    {
      hide Mixed, Consistent;
      ghost var l := links;
      var prev, here;
      ghost var pos;
      prev, here, pos := Seek(qh, i, k);
      if here == Null || here.qh != qh {
        SpliceIn(qh, i, prev, here, k, pos);
      }
      LinkedFrame(order, l, size, k, i, pos, links);
    }

    ghost function EntryOf(qh: Qh): Entry
      reads qh
    {
      Entry(qh, qh.start, qh.smask, qh.cmask)
    }

    ghost predicate NotLinked(qh: Qh)
      reads this
    {
      forall a :: 0 <= a < |order| ==> order[a].qh != qh
    }

    /** Read the pointers through an order with one more entry. */
    ghost method Reindex(b: seq<Entry>, k: nat)
      requires Consistent(|order|) && OrderOk(b, size) && k < |b| && Removed(b, k) == order
      requires b[k] == EntryOf(b[k].qh)
      modifies this`order, this`links, this`nodes
      ensures order == b && links == WithOwn(old(links), k, b[k].qh.qhNext) && Consistent(k)
      ensures nodes == old(nodes) + {b[k].qh}
    {
      hide OrderOk;
      ghost var s := order;
      assert forall x {:trigger b[x]} :: 0 <= x < |b| && x != k ==> b[x] == s[if x < k then x else x - 1];
      ghost var n := WithOwn(links, k, b[k].qh.qhNext).nexts;
      assert forall x {:trigger n[x]} :: 0 <= x < |b| && x != k ==> n[x] == links.nexts[if x < k then x else x - 1];
      order, links, nodes := b, WithOwn(links, k, b[k].qh.qhNext), nodes + {b[k].qh};
    }

    /** Enter `qh` in the order; no pointer changes yet. */
    ghost method Enter(qh: Qh) returns (k: nat)
      requires Valid() && NotLinked(qh) && EntryOk(EntryOf(qh), size)
      modifies this`order, this`links, this`nodes
      ensures order == Inserted(old(order), EntryOf(qh))
      ensures AtItsPlace(order, k) && order[k] == EntryOf(qh)
      ensures Consistent(k) && Mixed(order, links, size, k, order[k].start, k, |order|)
      ensures nodes == old(nodes) + {qh}
    {
      var e := EntryOf(qh);
      k := InsertPos(order, qh.period);
      InsertedOk(order, e, size);
      InsertedRemoved(order, e);
      InsertedPlace(order, e);
      LinkBegins(Inserted(order, e), k, links, size, qh.qhNext);
      hide Mixed, Consistent, AtItsPlace;
      Reindex(Inserted(order, e), k);
    }

    /** When all its frames are done the new entry is like the others. */
    lemma Linked(k: nat, i: nat)
      requires Consistent(k) && OwnLink(k) && Mixed(order, links, size, k, i, k, |order|) && i >= size
      ensures Valid() && EntryOf(order[k].qh) == order[k]
    {
      LinkEnds(order, links, size, k, i);
    }

    /** The loop of qh_link_periodic. */
    method LinkFrames(qh: Qh, ghost k: nat)
      requires AtItsPlace(order, k) && order[k] == EntryOf(qh) && order[k].start < size
      requires Consistent(k) && Mixed(order, links, size, k, order[k].start, k, |order|)
        && Fires(order[k], order[k].start)
      requires qh.hwNext == ListEnd
      modifies this`links, nodes
      ensures Valid() && EntryOf(qh) == order[k]
    {
      // a period of 0 means every frame
      var period := if qh.period == 0 then 1 else qh.period;
      var i := qh.start;
      ghost var o := order;
      assert period == Stride(qh) && i == o[k].start && o[k].qh == qh && k < |o|;
      hide *;
      while i < size
        invariant Consistent(k) && Mixed(o, links, size, k, i, k, |o|)
        invariant Fires(o[k], i) && i >= o[k].start
        invariant if i > o[k].start then OwnLink(k) else qh.hwNext == ListEnd
      {
        LinkInFrame(qh, i, k);
        NoVisitBetween(o[k], i);
        i := i + period;
      }
      Linked(k, i);
    }

    /** Link a queue head into every frame of its slot.  The caller has cleared its hardware link. */
    method QhLinkPeriodic(qh: Qh)
      requires Valid() && NotLinked(qh) && EntryOk(EntryOf(qh), size) && qh.hwNext == ListEnd
      modifies this`order, this`links, this`nodes, nodes, qh
      ensures Valid() && order == Inserted(old(order), old(EntryOf(qh)))
      ensures EntryOf(qh) == old(EntryOf(qh)) && nodes == old(nodes) + {qh}
    {
      ghost var k := Enter(qh);
      StartIsFirst(order[k], qh.start, size);
      StartBelow(order[k], size);
      hide Valid, Mixed;
      LinkFrames(qh, k);
    }

    /** The walk of periodic_unlink: still among the ITDs of the frame, or in the tree. */
    ghost predicate HuntingAt(k: nat, i: nat, t: nat, pos: nat, base: nat, prev: Place, here: Shadow)
      requires i < size && Consistent(k)
      reads this, nodes
    {
      if t < |itds[i]| then
        && pos == base == 0 && here == ItdRef(itds[i][t])
        && prev == if t == 0 then Slot(i) else InItd(itds[i][t - 1])
      else
        && t == |itds[i]| && Hunting(order, k, i, pos, base)
        && prev == Spot(i, pos) && here == SpotPtr(links, i, pos)
    }

    lemma HuntItd(k: nat, i: nat, t: nat, prev: Place, here: Shadow)
      requires i < size && Consistent(k) && Mixed(order, links, size, k, i, |order|, k) && k < |order|
      requires t < |itds[i]| && HuntingAt(k, i, t, 0, 0, prev, here)
      ensures LinkAt(prev) == Mirror(here)
      ensures HuntingAt(k, i, t + 1, 0, 0, InItd(here.itd), here.itd.itdNext)
    {
    }

    lemma HuntTree(k: nat, i: nat, pos: nat, base: nat, prev: Place, here: Shadow) returns (m: nat, base': nat)
      requires i < size && Consistent(k) && Mixed(order, links, size, k, i, |order|, k) && k < |order|
        && Fires(order[k], i)
      requires HuntingAt(k, i, |itds[i]|, pos, base, prev, here) && here != Null && here != QhRef(order[k].qh)
      ensures LinkAt(prev) == Mirror(here) && here.QhRef?
      ensures m >= pos && HuntingAt(k, i, |itds[i]|, m + 1, base', InQh(here.qh), here.qh.qhNext)
    {
      AtSpotFind(order, links, size, k, i, |order|, k, pos);
      SpotMirror(prev, i, k, pos);
      m, base' := HuntOn(order, links, size, k, i, pos, base);
    }

    /** One step of the walk, guided by the tag in the hardware link. */
    lemma HuntStep(k: nat, i: nat, t: nat, pos: nat, base: nat, prev: Place, here: Shadow)
      returns (t': nat, pos': nat, base': nat)
      requires i < size && Consistent(k) && Mixed(order, links, size, k, i, |order|, k) && k < |order|
        && Fires(order[k], i)
      requires HuntingAt(k, i, t, pos, base, prev, here) && here != Null && here != QhRef(order[k].qh)
      ensures LinkAt(prev) == Mirror(here)
      ensures var next := NextPlace(here, NextType(LinkAt(prev)));
        HuntingAt(k, i, t', pos', base', next, ShadowAt(next))
      ensures t' > t || (t' == t && pos' > pos)
    {
      assert i < |itds| && t <= |itds[i]| && (t < |itds[i]| ==> pos == base == 0);
      hide Mixed, Consistent, HuntingAt, Fires;
      if t < |itds[i]| {
        HuntItd(k, i, t, prev, here);
        t', pos', base' := t + 1, 0, 0;
      } else {
        var m;
        m, base' := HuntTree(k, i, pos, base, prev, here);
        t', pos' := t, m + 1;
      }
    }

    lemma HuntBegins(k: nat, i: nat)
      requires i < size && Consistent(k) && Mixed(order, links, size, k, i, |order|, k) && k < |order|
      ensures HuntingAt(k, i, 0, 0, 0, Slot(i), pshadow[i])
    {
    }

    lemma HuntEnds(k: nat, i: nat, t: nat, pos: nat, base: nat, prev: Place, here: Shadow)
      requires i < size && Consistent(k) && Mixed(order, links, size, k, i, |order|, k) && k < |order|
        && Fires(order[k], i)
      requires HuntingAt(k, i, t, pos, base, prev, here) && (here == Null || here == QhRef(order[k].qh))
      ensures AtSpot(order, k, i, base)
      ensures here == Null <==> base > 0 && order[base - 1].start < i
      ensures here != Null ==> prev == Spot(i, base) && LinkAt(prev) == Mirror(here) && Cell(prev) <= nodes
    {
      HuntDone(order, links, size, k, i, pos, base);
    }

    /** Find the predecessor of `qh` in a frame, unless an earlier pass removed it there. */
    method Hunt(qh: Qh, frame: nat, ghost k: nat) returns (prev: Place, here: Shadow, ghost base: nat)
      requires k < |order| && order[k].qh == qh && frame < size && Fires(order[k], frame)
      requires Consistent(k) && Mixed(order, links, size, k, frame, |order|, k)
      ensures Consistent(k) && AtSpot(order, k, frame, base) && qh in nodes
      ensures here == Null || here == QhRef(qh)
      ensures here == Null <==> base > 0 && order[base - 1].start < frame
      ensures here != Null ==> prev == Spot(frame, base) && LinkAt(prev) == Mirror(here) && Cell(prev) <= nodes
    {
      prev := Slot(frame);
      here := pshadow[frame];
      HuntBegins(k, frame);
      ghost var t, pos := 0, 0;
      base := 0;
      hide Consistent, Mixed, HuntingAt;
      while here != Null && here != QhRef(qh)
        invariant HuntingAt(k, frame, t, pos, base, prev, here)
        decreases |itds[frame]| - t, |order| - pos
      {
        t, pos, base := HuntStep(k, frame, t, pos, base, prev, here);
        prev := NextPlace(here, NextType(LinkAt(prev)));
        here := ShadowAt(prev);
      }
      HuntEnds(k, frame, t, pos, base, prev, here);
    }

    /** Bypass `qh` at the spot. */
    method SpliceOut(qh: Qh, i: nat, prev: Place, here: Shadow, ghost k: nat, ghost base: nat)
      requires i < size && Consistent(k) && OwnLink(k) && order[k].qh == qh && base <= k && prev == Spot(i, base)
      requires here == QhRef(qh) && LinkAt(prev) == Mirror(here)
      modifies this`links, Cell(prev)
      ensures Consistent(k) && OwnLink(k) && links == SetSpot(old(links), i, base, old(links).nexts[k])
      ensures qh.hwNext == old(qh.hwNext)
    {
      // the tag in the link that led here says how to read the node
      var next := NextPlace(here, NextType(LinkAt(prev)));
      StoreAtSpot(prev, i, ShadowAt(next), LinkAt(next), k, base);
    }

    /** Take `qh` out of one frame list, unless the turn of an earlier frame has done so.  `qh` itself
        keeps its pointers. */
    method PeriodicUnlink(frame: nat, qh: Qh, ghost k: nat)
      requires k < |order| && order[k].qh == qh && frame < size && Fires(order[k], frame)
      requires Consistent(k) && Mixed(order, links, size, k, frame, |order|, k) && OwnLink(k)
      modifies this`links, nodes
      ensures Consistent(k) && Mixed(order, links, size, k, frame + Stride(qh), |order|, k) && OwnLink(k)
      ensures qh.hwNext == old(qh.hwNext)
    {
      hide Mixed, Schedule.Consistent;
      ghost var l := links;
      var prev, here;
      ghost var base;
      prev, here, base := Hunt(qh, frame, k);
      if here != Null {
        SpliceOut(qh, frame, prev, here, k, base);
      }
      UnlinkedFrame(order, l, size, k, frame, base, links);
    }

    /** The loop of qh_unlink_periodic. */
    method UnlinkFrames(qh: Qh, ghost k: nat)
      requires Valid() && k < |order| && order[k].qh == qh
      modifies this`links, nodes
      ensures Consistent(k) && Threaded(Removed(order, k),
        Links(links.heads, links.nexts[..k] + links.nexts[k + 1..]), size)
      ensures qh.hwNext == old(qh.hwNext)
    {
      // a period of 0 means every frame
      var period := if qh.period == 0 then 1 else qh.period;
      var i := qh.start;
      ghost var o := order;
      UnlinkStart(k);
      assert period == Stride(qh) && i == o[k].start && o[k].qh == qh && k < |o|;
      hide *;
      while i < size
        invariant Consistent(k) && Mixed(o, links, size, k, i, |o|, k) && OwnLink(k)
        invariant Fires(o[k], i) && qh.hwNext == old(qh.hwNext)
      {
        PeriodicUnlink(i, qh, k);
        NoVisitBetween(o[k], i);
        i := i + period;
      }
      UnlinkEnds(order, links, size, k, i);
    }

    lemma UnlinkStart(k: nat)
      requires Valid() && k < |order|
      ensures Consistent(k) && Mixed(order, links, size, k, order[k].start, |order|, k) && OwnLink(k)
      ensures Fires(order[k], order[k].start)
    {
      UnlinkBegins(order, links, size, k);
      StartIsFirst(order[k], order[k].start, size);
    }

    /** Forget entry `k`, which no pointer of the schedule leads to any more. */
    ghost method Forget(k: nat)
      requires Consistent(k) && k < |order|
      requires Threaded(Removed(order, k), Links(links.heads, links.nexts[..k] + links.nexts[k + 1..]), size)
      modifies this`order, this`links, this`nodes
      ensures Valid() && order == Removed(old(order), k) && nodes == old(nodes) - {old(order)[k].qh}
    {
      hide NextIdx, IsNext, PtrAt, Fires, Threaded;
      ghost var b := order;
      ghost var s := Removed(order, k);
      assert forall x {:trigger s[x]} :: 0 <= x < |s| ==> s[x] == b[if x < k then x else x + 1];
      ghost var n := links.nexts[..k] + links.nexts[k + 1..];
      assert forall x {:trigger n[x]} :: 0 <= x < |n| ==> n[x] == links.nexts[if x < k then x else x + 1];
      order, links, nodes := s, Links(links.heads, n), nodes - {order[k].qh};
      assert Shape();
      hide Schedule.Shape, OrderOk;
    }

    /** Take a queue head out of every frame of its slot; its own hardware link stays as it is,
        since the controller may still be there. */
    method QhUnlinkPeriodic(qh: Qh, ghost k: nat)
      requires Valid() && k < |order| && order[k].qh == qh
      modifies this`order, this`links, this`nodes, nodes
      ensures Valid() && order == Removed(old(order), k) && nodes == old(nodes) - {qh}
      ensures NotLinked(qh) && qh.qhNext == Null && qh.hwNext == old(qh.hwNext) && EntryOf(qh) == old(EntryOf(qh))
    {
      UnlinkFrames(qh, k);
      Forget(k);
      qh.qhNext := Null;
    }

    /** Append an ITD to those at the head of a frame, before the tree. */
    method ItdLink(frame: nat, itd: Itd)
      requires Valid() && frame < size && itd !in nodes
      modifies this`itds, this`nodes, nodes, itd
      ensures Valid() && itds == old(itds)[frame := old(itds)[frame] + [itd]] && nodes == old(nodes) + {itd}
    {
      AtSpotFind(order, links, size, |order|, frame, |order|, |order|, 0);
      var prev, here := SkipItds(frame, |order|);
      AppendItd(frame, itd, prev, here);
    }

    method AppendItd(frame: nat, itd: Itd, prev: Place, here: Shadow)
      requires Valid() && frame < size && itd !in nodes && prev == Head(frame) && here == links.heads[frame]
      modifies this`itds, this`nodes, Cell(prev), itd
      ensures Valid() && itds == old(itds)[frame := old(itds)[frame] + [itd]] && nodes == old(nodes) + {itd}
    {
      SpotMirror(prev, frame, |order|, 0);
      itd.itdNext := here;
      itd.hwNext := LinkAt(prev);
      itd.frame := frame;
      match prev {
        case Slot(f) => AppendFirst(frame, itd);
        case InItd(last) => AppendAfter(frame, itd, last);
      }
    }

    method AppendFirst(frame: nat, itd: Itd)
      requires Valid() && frame < size && itd !in nodes && itds[frame] == []
      requires itd.itdNext == links.heads[frame] && itd.hwNext == Mirror(itd.itdNext) && itd.frame == frame
      modifies this`itds, this`nodes, pshadow, periodic
      ensures Valid() && itds == old(itds)[frame := old(itds)[frame] + [itd]] && nodes == old(nodes) + {itd}
    {
      hide OrderOk, Threaded;
      pshadow[frame] := ItdRef(itd);
      periodic[frame] := To(itd.dma, TypeItd);
      itds := itds[frame := itds[frame] + [itd]];
      nodes := nodes + {itd};
    }

    method AppendAfter(frame: nat, itd: Itd, last: Itd)
      requires Valid() && frame < size && itd !in nodes && Head(frame) == InItd(last)
      requires itd.itdNext == links.heads[frame] && itd.hwNext == Mirror(itd.itdNext) && itd.frame == frame
      modifies this`itds, this`nodes, last`itdNext, last`hwNext
      ensures Valid() && itds == old(itds)[frame := old(itds)[frame] + [itd]] && nodes == old(nodes) + {itd}
    {
      hide OrderOk, Threaded;
      last.itdNext := ItdRef(itd);
      last.hwNext := To(itd.dma, TypeItd);
      itds := itds[frame := itds[frame] + [itd]];
      nodes := nodes + {itd};
    }

    /** A reader of frame `f` holds the pointer `here`, found at `prev`: it has passed `t` ITDs and
        then the entries of the order before `pos`. */
    ghost predicate CursorAt(f: nat, t: nat, pos: nat, prev: Place, here: Shadow)
      requires Valid() && f < size
      reads this, nodes
    {
      if t < |itds[f]| then
        && pos == 0 && here == ItdRef(itds[f][t])
        && prev == if t == 0 then Slot(f) else InItd(itds[f][t - 1])
      else
        && t == |itds[f]| && pos <= |order| && (pos > 0 ==> Fires(order[pos - 1], f))
        && prev == Spot(f, pos) && here == PtrAt(order, NextIdx(order, pos, f, |order|))
    }

    lemma CursorBegins(f: nat)
      requires Valid() && f < size
      ensures CursorAt(f, 0, 0, Slot(f), pshadow[f])
    {
      AtSpotFind(order, links, size, |order|, f, |order|, |order|, 0);
    }

    /** At an ITD the hardware tag says ITD, and the reader goes on to the next of the frame. */
    lemma CursorItd(f: nat, t: nat, pos: nat, prev: Place, here: Shadow)
      requires Valid() && f < size && CursorAt(f, t, pos, prev, here) && t < |itds[f]|
      ensures pos == 0 && LinkAt(prev) == Mirror(here) && here == ItdRef(itds[f][t])
      ensures CursorAt(f, t + 1, 0, InItd(here.itd), here.itd.itdNext)
    {
      AtSpotFind(order, links, size, |order|, f, |order|, |order|, 0);
    }

    /** Past the ITDs the reader is at the end of the list, with the end marker in the hardware link,
        or at the next entry that fires in the frame, with a queue head tag. */
    lemma CursorTree(f: nat, t: nat, pos: nat, prev: Place, here: Shadow)
      requires Valid() && f < size && CursorAt(f, t, pos, prev, here) && t >= |itds[f]|
      ensures t == |itds[f]| && pos <= |order| && LinkAt(prev) == Mirror(here)
      ensures var m := NextIdx(order, pos, f, |order|);
        if m == |order| then here == Null
        else here == QhRef(order[m].qh) && CursorAt(f, t, m + 1, InQh(here.qh), here.qh.qhNext)
    {
      AtSpotFind(order, links, size, |order|, f, |order|, |order|, pos);
      SpotMirror(prev, f, |order|, pos);
      var m := NextIdx(order, pos, f, |order|);
      if m < |order| {
        AtSpotFind(order, links, size, |order|, f, |order|, |order|, m + 1);
      }
    }
  }
}
