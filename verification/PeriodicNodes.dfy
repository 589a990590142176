/** The entities of the periodic schedule and the sparse tree they are threaded into.

    The tree is described by one list, the order: every linked queue head, slowest first, and in
    link order among equal periods.  Frame `f` of the schedule sees the entries of the order that
    fire in `f`; the single next pointer of a queue head leads to the next entry of the order that
    fires in all of its frames. */
module PeriodicNodes {
  import opened Arith

  /** A transaction translator, and whether it serves each downstream port separately. */
  datatype Tt = Tt(id: nat, multi: bool)

  datatype Device = Direct | Behind(tt: Tt, ttport: nat)

  predicate SameTt(d1: Device, d2: Device)
  {
    d1.Behind? && d2.Behind? && d1.tt == d2.tt && (d1.tt.multi ==> d1.ttport == d2.ttport)
  }

  /** Type tag in the low bits of a hardware link. */
  datatype Tag = TypeItd | TypeQh | TypeSitd | TypeFstn

  /** A hardware link: the end marker, or the bus address of a node with its tag. */
  datatype Link = ListEnd | To(dma: nat, tag: Tag)

  /** Q_NEXT_TYPE: the end marker is the word 1, whose tag bits read as the ITD tag. */
  function NextType(link: Link): Tag
  {
    if link.ListEnd? then TypeItd else link.tag
  }

  /** The software pointer that mirrors a hardware link.  In C it is an untagged union: which
      member is live is known only from the tag of the hardware link beside it. */
  datatype Shadow = Null | QhRef(qh: Qh) | ItdRef(itd: Itd)

  class Qh {
    const dma: nat
    const period: nat
    const usecs: nat
    const cUsecs: nat
    const gapUf: nat
    const dev: Device
    var start: nat
    // hw_info2: the microframes in the S-mask and in the C-mask
    var smask: set<nat>
    var cmask: set<nat>
    var qhNext: Shadow
    var hwNext: Link

    constructor (dma: nat, period: nat, usecs: nat, cUsecs: nat, gapUf: nat, dev: Device)
      ensures this.dma == dma && this.period == period && this.usecs == usecs
      ensures this.cUsecs == cUsecs && this.gapUf == gapUf && this.dev == dev
      ensures start == NO_FRAME && smask == {} && cmask == {} && qhNext == Null && hwNext == ListEnd
    {
      this.dma, this.period, this.usecs := dma, period, usecs;
      this.cUsecs, this.gapUf, this.dev := cUsecs, gapUf, dev;
      start, smask, cmask, qhNext, hwNext := NO_FRAME, {}, {}, Null, ListEnd;
    }
  }

  const NO_FRAME: nat := 0xFFFF

  /** A linked ITD.  `active` is the set of its non-zero transaction words, which stay as they are
      from the moment the ITD is linked until it is taken off its frame. */
  class Itd {
    const dma: nat
    const usecs: nat
    const active: set<nat>
    var frame: nat
    var itdNext: Shadow
    var hwNext: Link

    constructor (dma: nat, usecs: nat, active: set<nat>)
      ensures this.dma == dma && this.usecs == usecs && this.active == active
    {
      this.dma, this.usecs, this.active := dma, usecs, active;
      frame, itdNext, hwNext := 0, Null, ListEnd;
    }
  }

  /** The hardware link that names the same node as a shadow pointer. */
  function Mirror(s: Shadow): Link
  {
    match s
    case Null => ListEnd
    case QhRef(q) => To(q.dma, TypeQh)
    case ItdRef(i) => To(i.dma, TypeItd)
  }

  /** A linked queue head with the slot and the masks it was given. */
  datatype Entry = Entry(qh: Qh, start: nat, smask: set<nat>, cmask: set<nat>)

  /** Frames between two visits; period 0 stands for every microframe of every frame. */
  function Stride(q: Qh): (r: nat)
    ensures r > 0
  {
    if q.period == 0 then 1 else q.period
  }

  /** The entry fires in frame `f`. */
  predicate Fires(e: Entry, f: nat)
  {
    Residue(f, Stride(e.qh)) == e.start
  }

  predicate PeriodOk(q: Qh, size: nat)
  {
    q.period == 0 || (IsPow2(q.period) && q.period <= size)
  }

  predicate EntryOk(e: Entry, size: nat)
  {
    PeriodOk(e.qh, size) && e.start < Stride(e.qh)
  }

  ghost predicate SlowestFirst(order: seq<Entry>)
  {
    forall a, b :: 0 <= a < b < |order| ==> order[a].qh.period >= order[b].qh.period
  }

  ghost predicate NoDuplicates(order: seq<Entry>)
  {
    forall a, b :: 0 <= a < b < |order| ==> order[a].qh != order[b].qh
  }

  ghost predicate OrderOk(order: seq<Entry>, size: nat)
  {
    && IsPow2(size)
    && (forall a :: 0 <= a < |order| ==> EntryOk(order[a], size))
    && SlowestFirst(order)
    && NoDuplicates(order)
  }

  /** Index `r` is the first from `j` on, other than `skip`, whose entry fires in frame `f`, or the
      end of the order when there is none. */
  ghost predicate IsNext(order: seq<Entry>, j: nat, f: nat, skip: nat, r: nat)
  {
    && j <= r <= |order|
    && (r < |order| ==> r != skip && Fires(order[r], f))
    && (forall x :: j <= x < r ==> x == skip || !Fires(order[x], f))
  }

  lemma {:induction false} NextExists(order: seq<Entry>, j: nat, f: nat, skip: nat)
    requires j <= |order|
    ensures exists r :: IsNext(order, j, f, skip, r)
    decreases |order| - j
  {
    if j == |order| || (j != skip && Fires(order[j], f)) {
      assert IsNext(order, j, f, skip, j);
    } else {
      NextExists(order, j + 1, f, skip);
      var r :| IsNext(order, j + 1, f, skip, r);
      assert IsNext(order, j, f, skip, r);
    }
  }

  ghost function NextIdx(order: seq<Entry>, j: nat, f: nat, skip: nat): (r: nat)
    requires j <= |order|
    ensures IsNext(order, j, f, skip, r)
  {
    NextExists(order, j, f, skip);
    var r :| IsNext(order, j, f, skip, r);
    r
  }

  ghost function PtrAt(order: seq<Entry>, r: nat): Shadow
  {
    if r < |order| then QhRef(order[r].qh) else Null
  }

  /** What frame `f` must see after its ITDs. */
  ghost function FrameList(order: seq<Entry>, f: nat): seq<Qh>
  {
    if order == [] then []
    else (if Fires(order[0], f) then [order[0].qh] else []) + FrameList(order[1..], f)
  }

  lemma FiresMeaning(e: Entry, f: nat)
    ensures Fires(e, f) <==> f % Stride(e.qh) == e.start
    ensures Fires(e, f) <==> if e.qh.period == 0 then e.start == 0 else f % e.qh.period == e.start
  {
    ResidueIsMod(f, Stride(e.qh));
  }

  /** Entries no slower than one that fires in `f` fire in `f` exactly when they fire in the first
      frame of that entry: this is why a single next pointer can serve all frames of a node. */
  lemma FasterAgree(a: Entry, b: Entry, f: nat, size: nat)
    requires EntryOk(a, size) && EntryOk(b, size) && IsPow2(size)
    requires a.qh.period >= b.qh.period && Fires(a, f)
    ensures Fires(b, f) <==> Fires(b, a.start)
  {
    FiresMeaning(a, f);
    FiresMeaning(b, f);
    FiresMeaning(b, a.start);
    if b.qh.period > 1 {
      Pow2Divides(b.qh.period, a.qh.period);
      ModNest(f, b.qh.period, a.qh.period);
    }
  }

  /** The next pointer of entry `p`, computed for its first frame, is right for frame `f`. */
  lemma NextAgrees(order: seq<Entry>, p: nat, f: nat, skip: nat, size: nat)
    requires OrderOk(order, size) && p < |order| && Fires(order[p], f)
    ensures NextIdx(order, p + 1, order[p].start, skip) == NextIdx(order, p + 1, f, skip)
  {
    forall x | p < x < |order|
      ensures Fires(order[x], f) <==> Fires(order[x], order[p].start)
    {
      FasterAgree(order[p], order[x], f, size);
    }
  }

  /** An entry fires first in its start frame, and never before. */
  lemma StartIsFirst(e: Entry, f: nat, size: nat)
    requires EntryOk(e, size)
    ensures Fires(e, e.start)
    ensures Fires(e, f) ==> e.start <= f
  {
  }

  /** A slower entry that starts in a frame where `e` does not fire has no frame in common with it:
      hiding `e` changes nothing for that entry. */
  lemma HideIrrelevant(order: seq<Entry>, j: nat, f: nat, k: nat)
    requires j <= |order| && k < |order|
    requires !Fires(order[k], f) || k < j || NextIdx(order, j, f, k) < k
    ensures NextIdx(order, j, f, k) == NextIdx(order, j, f, |order|)
  {
  }

  /** The frame list misses no entry that fires in the frame, and has no other. */
  lemma {:induction false} FrameListMembers(order: seq<Entry>, f: nat, q: Qh)
    ensures q in FrameList(order, f) <==> exists a :: 0 <= a < |order| && order[a].qh == q && Fires(order[a], f)
  {
    if order != [] {
      var tail := order[1..];
      FrameListMembers(tail, f, q);
      if q in FrameList(tail, f) {
        var b :| 0 <= b < |tail| && tail[b].qh == q && Fires(tail[b], f);
        assert order[b + 1].qh == q && Fires(order[b + 1], f);
      }
      if a :| 0 <= a < |order| && order[a].qh == q && Fires(order[a], f) {
        assert a > 0 ==> tail[a - 1] == order[a];
      }
    }
  }

  /** The frame list runs from slow to fast and has no entry twice. */
  lemma {:induction false} FrameListSorted(order: seq<Entry>, f: nat)
    requires SlowestFirst(order) && NoDuplicates(order)
    ensures forall a, b :: 0 <= a < b < |FrameList(order, f)| ==>
      FrameList(order, f)[a].period >= FrameList(order, f)[b].period && FrameList(order, f)[a] != FrameList(order, f)[b]
  {
    if order != [] {
      var tail := order[1..];
      assert forall a :: 0 <= a < |tail| ==> tail[a] == order[a + 1];
      FrameListSorted(tail, f);
      var l := FrameList(tail, f);
      forall a | 0 <= a < |l|
        ensures order[0].qh.period >= l[a].period && order[0].qh != l[a]
      {
        assert l[a] in l;
        FrameListMembers(tail, f, l[a]);
      }
    }
  }

  /** Where a queue head of the given period goes: behind everything at least as slow. */
  ghost function InsertPos(order: seq<Entry>, period: nat): (k: nat)
    ensures k <= |order|
    ensures forall a :: 0 <= a < k ==> order[a].qh.period >= period
    ensures k < |order| ==> order[k].qh.period < period
  {
    if order == [] || order[0].qh.period < period then 0
    else 1 + InsertPos(order[1..], period)
  }

  ghost function Inserted(order: seq<Entry>, e: Entry): seq<Entry>
  {
    var k := InsertPos(order, e.qh.period);
    order[..k] + [e] + order[k..]
  }

  lemma InsertedAt(order: seq<Entry>, e: Entry, x: nat)
    requires x <= |order|
    ensures var k, b := InsertPos(order, e.qh.period), Inserted(order, e);
      |b| == |order| + 1 && b[x] == if x < k then order[x] else if x == k then e else order[x - 1]
  {
  }

  lemma InsertedSorted(order: seq<Entry>, e: Entry)
    requires SlowestFirst(order)
    ensures SlowestFirst(Inserted(order, e))
  {
    var b := Inserted(order, e);
    forall x, y | 0 <= x < y < |b|
      ensures b[x].qh.period >= b[y].qh.period
    {
      InsertedAt(order, e, x);
      InsertedAt(order, e, y);
    }
  }

  lemma InsertedOk(order: seq<Entry>, e: Entry, size: nat)
    requires OrderOk(order, size) && EntryOk(e, size)
    requires forall a :: 0 <= a < |order| ==> order[a].qh != e.qh
    ensures OrderOk(Inserted(order, e), size)
  {
    InsertedSorted(order, e);
    hide SlowestFirst, EntryOk, InsertPos, IsPow2;
    var b := Inserted(order, e);
    forall x | 0 <= x <= |order|
      ensures b[x] == if x < InsertPos(order, e.qh.period) then order[x]
        else if x == InsertPos(order, e.qh.period) then e else order[x - 1]
    {
      InsertedAt(order, e, x);
    }
  }

  ghost function Removed(order: seq<Entry>, k: nat): seq<Entry>
    requires k < |order|
  {
    order[..k] + order[k + 1..]
  }

  lemma RemovedOk(order: seq<Entry>, k: nat, size: nat)
    requires OrderOk(order, size) && k < |order|
    ensures OrderOk(Removed(order, k), size)
  {
    var s := Removed(order, k);
    assert forall x :: 0 <= x < |s| ==> s[x] == if x < k then order[x] else order[x + 1];
  }

  /** Hiding entry `k` is the same as not having it. */
  lemma HideIsRemove(order: seq<Entry>, k: nat, j: nat, f: nat)
    requires k < |order| && j <= |order|
    ensures var s := Removed(order, k);
      PtrAt(order, NextIdx(order, j, f, k)) == PtrAt(s, NextIdx(s, if j <= k then j else j - 1, f, |s|))
  {
    var s := Removed(order, k);
    assert forall x :: 0 <= x < |s| ==> s[x] == if x < k then order[x] else order[x + 1];
    var j' := if j <= k then j else j - 1;
    var r := NextIdx(order, j, f, k);
    var r' := NextIdx(s, j', f, |s|);
    var back := if r' < k then r' else r' + 1;
    if r < |order| {
      var fwd := if r < k then r else r - 1;
      assert Fires(s[fwd], f);
      assert r' <= fwd;
      assert Fires(order[back], f);
      assert r == back;
    } else {
      assert forall x :: j' <= x < |s| ==> !Fires(s[x], f);
    }
  }
}
