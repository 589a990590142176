/** Isochronous descriptors (iTDs): which packet goes into which descriptor and microframe, how many
    descriptors that takes, and where the page pointers make the controller find the bytes. */
module IsoItds {
  import Arith
  import S = IsoSchedule

  const PAGE: nat := 0x1000

  /** A packet of the request: where its bytes are. */
  datatype Packet = Packet(buf: nat, length: nat)

  /** What itd_sched_init works out for a packet: its page, the offset in it, and whether the packet ends
      in another page. */
  datatype IsoPacket = IsoPacket(offset: nat, length: nat, ioc: bool, page: nat, cross: bool)

  datatype Transaction = Inactive | Active(offset: nat, length: nat, pg: nat, ioc: bool)

  /** A descriptor: its frame, for each microframe the packet and the transaction, the page pointers, and
      the page in use. */
  datatype Itd = Itd(id: nat, frame: nat, index: seq<int>, transaction: seq<Transaction>, pages: seq<nat>, pg: nat)

  /** Bitwise or. */
  function Or(a: nat, b: nat): nat
  {
    if a == 0 then b else if b == 0 then a
    else (if a % 2 == 1 || b % 2 == 1 then 1 else 0) + 2 * Or(a / 2, b / 2)
  }

  lemma {:induction false} OrSame(a: nat)
    ensures Or(a, a) == a
  {
    if a > 0 {
      OrSame(a / 2);
    }
  }

  /** One packet follows the other in memory, and none is longer than 3072 bytes. */
  predicate Contiguous(packets: seq<Packet>)
  {
    && (forall p :: 0 <= p < |packets| ==> packets[p].length <= 3072)
    && (forall p :: 0 < p < |packets| ==> packets[p].buf == packets[p - 1].buf + packets[p - 1].length)
  }

  predicate Describes(q: IsoPacket, p: Packet)
  {
    q.offset == p.buf % PAGE && q.length == p.length && q.page == p.buf / PAGE
      && (q.cross <==> (p.buf + p.length) / PAGE != p.buf / PAGE)
  }

  /** itd_sched_init. */
  method ItdSchedInit(packets: seq<Packet>, noInterrupt: bool) returns (sched: seq<IsoPacket>)
    ensures |sched| == |packets|
    ensures forall i :: 0 <= i < |sched| ==>
      Describes(sched[i], packets[i]) && (sched[i].ioc <==> i == |sched| - 1 && !noInterrupt)
  {
    sched := [];
    for i := 0 to |packets|
      invariant |sched| == i
      invariant forall k :: 0 <= k < i ==>
        Describes(sched[k], packets[k]) && (sched[k].ioc <==> k == |packets| - 1 && !noInterrupt)
    {
      var buf := packets[i].buf;
      var page := buf / PAGE;
      var ioc := i + 1 == |packets| && !noInterrupt;
      // the byte behind the packet decides whether it crosses a page
      var end := buf + packets[i].length;
      sched := sched + [IsoPacket(buf % PAGE, packets[i].length, ioc, page, page != end / PAGE)];
    }
  }

  // ---- slots and groups ----

  /** The slot of packet `p`: its microframe on the ring. */
  function Slot(first: nat, p: nat, interval: nat, mod: nat): nat
    requires mod > 0
  {
    if p == 0 then first else (Slot(first, p - 1, interval, mod) + interval) % mod
  }

  /** The microframe of a packet within its frame. */
  function Micro(first: nat, p: nat, interval: nat, mod: nat): (u: nat)
    requires mod > 0
    ensures u < 8
  {
    Slot(first, p, interval, mod) % 8
  }

  function Frame(first: nat, p: nat, interval: nat, mod: nat): nat
    requires mod > 0
  {
    Slot(first, p, interval, mod) / 8
  }

  /** The ordinal of the descriptor packet `p` goes into: a new one whenever the frame changes. */
  function Group(first: nat, p: nat, interval: nat, mod: nat): nat
    requires mod > 0
  {
    if p == 0 then 0
    else Group(first, p - 1, interval, mod)
         + if Frame(first, p, interval, mod) != Frame(first, p - 1, interval, mod) then 1 else 0
  }

  /** Whole frames, more than one, and a power of two smaller than the ring between packets. */
  predicate RingOk(first: nat, interval: nat, mod: nat)
  {
    mod % 8 == 0 && 16 <= mod && first < mod && 1 <= interval && 2 * interval <= mod
      && (interval < 8 || interval % 8 == 0)
  }

  /** Wrapping around the ring is at most one subtraction. */
  lemma WrapOnce(x: nat, mod: nat)
    requires 0 < mod && x < 2 * mod
    ensures x % mod == if x < mod then x else x - mod
  {
    if x < mod {
      Arith.DivModUnique(x, mod, 0, x);
    } else {
      Arith.DivModUnique(x, mod, 1, x - mod);
    }
  }

  lemma {:induction false} SlotInRing(first: nat, p: nat, interval: nat, mod: nat)
    requires RingOk(first, interval, mod)
    ensures Slot(first, p, interval, mod) < mod
    ensures p > 0 ==> var s := Slot(first, p - 1, interval, mod);
      s < mod && Slot(first, p, interval, mod) == if s + interval < mod then s + interval else s + interval - mod
  {
    if p > 0 {
      SlotInRing(first, p - 1, interval, mod);
      WrapOnce(Slot(first, p - 1, interval, mod) + interval, mod);
    }
  }

  /** On the ring, packet `p` goes to the slot that the schedule has found for it. */
  lemma {:induction false} SlotScheduled(start: nat, p: nat, period: nat, mod: nat)
    requires mod > 0
    ensures Slot(start % mod, p, period, mod) == S.Slot(start, p, period) % mod
  {
    if p > 0 {
      SlotScheduled(start, p - 1, period, mod);
      var s := S.Slot(start, p - 1, period);
      assert S.Slot(start, p, period) == s + period by { assert p * period == (p - 1) * period + period; }
      SumOnRing(s, period, mod);
    }
  }

  lemma SumOnRing(a: nat, b: nat, mod: nat)
    requires mod > 0
    ensures (a % mod + b) % mod == (a + b) % mod
  {
    var k, x := a / mod, a % mod + b;
    Arith.DivModUnique(a + b, mod, k + x / mod, x % mod);
  }

  /** Inside a frame microframes go up; a packet in the frame of the one before is later in it. */
  lemma SameFrame(first: nat, p: nat, interval: nat, mod: nat)
    requires RingOk(first, interval, mod) && p > 0
    requires Slot(first, p, interval, mod) / 8 == Slot(first, p - 1, interval, mod) / 8
    ensures Slot(first, p, interval, mod) % 8 == Slot(first, p - 1, interval, mod) % 8 + interval
  {
    SlotInRing(first, p, interval, mod);
    hide Slot;
  }

  /** Every packet but the first uses at most one more descriptor. */
  lemma {:induction false} GroupAtMost(first: nat, p: nat, interval: nat, mod: nat)
    requires mod > 0
    ensures Group(first, p, interval, mod) <= p
  {
    if p > 0 {
      GroupAtMost(first, p - 1, interval, mod);
    }
  }

  /** A step of less than a frame: the microframe counts on, through at most one frame boundary. */
  lemma FrameStep(s: nat, s': nat, interval: nat, mod: nat)
    requires mod % 8 == 0 && 16 <= mod && s < mod && 1 <= interval < 8
    requires s' == if s + interval < mod then s + interval else s + interval - mod
    ensures (if s' / 8 != s / 8 then 8 else 0) + s' % 8 == s % 8 + interval
  {
    var m := mod / 8;
    assert mod == 8 * m;
    if s + interval >= mod {
      assert s / 8 == m - 1;
    }
  }

  lemma Steps(p: nat, interval: nat)
    requires p > 0
    ensures p * interval == (p - 1) * interval + interval
  {
  }

  /** With several packets a frame, the descriptors used are the frames passed. */
  lemma {:induction false} GroupFrames(first: nat, p: nat, interval: nat, mod: nat)
    requires RingOk(first, interval, mod) && interval < 8
    ensures 8 * Group(first, p, interval, mod) + Slot(first, p, interval, mod) % 8 == first % 8 + p * interval
  {
    if p > 0 {
      GroupFrames(first, p - 1, interval, mod);
      SlotInRing(first, p, interval, mod);
      FrameStep(Slot(first, p - 1, interval, mod), Slot(first, p, interval, mod), interval, mod);
      Steps(p, interval);
      hide Slot;
    }
  }

  /** Descriptors itd_urb_transaction prepares. */
  function NumItds(interval: nat, packets: nat): nat
  {
    if interval < 8 then 1 + (packets * interval + 7) / 8 else packets
  }

  /** They are enough, wherever the request starts. */
  lemma Enough(first: nat, p: nat, interval: nat, mod: nat, packets: nat)
    requires RingOk(first, interval, mod) && p < packets
    ensures Group(first, p, interval, mod) < NumItds(interval, packets)
  {
    GroupAtMost(first, p, interval, mod);
    if interval < 8 {
      GroupFrames(first, p, interval, mod);
      Product(p + 1, packets, interval);
      assert (p + 1) * interval == p * interval + interval;
    }
    hide Group, Slot;
  }

  lemma Product(a: nat, b: nat, p: nat)
    requires a <= b
    ensures a * p <= b * p
  {
  }

  // ---- one descriptor ----

  /** itd_init, on a zeroed descriptor. */
  function ItdInit(id: nat): Itd
  {
    Itd(id, 0, seq(8, _ => -1), seq(8, _ => Inactive), seq(7, _ => 0), 0)
  }

  predicate WellFormed(itd: Itd)
  {
    |itd.index| == 8 && |itd.transaction| == 8 && |itd.pages| == 7 && itd.pg < 7
  }

  /** itd_patch: put packet `p` into microframe `u`. */
  function Patch(itd: Itd, q: IsoPacket, p: nat, u: nat): Itd
    requires WellFormed(itd) && u < 8 && (q.cross ==> itd.pg + 1 < 7)
  {
    var pages := itd.pages[itd.pg := Or(itd.pages[itd.pg], q.page)];
    var transaction := itd.transaction[u := Active(q.offset, q.length, itd.pg, q.ioc)];
    var patched := itd.(index := itd.index[u := p], transaction := transaction, pages := pages);
    if q.cross then patched.(pg := itd.pg + 1, pages := pages[itd.pg + 1 := Or(pages[itd.pg + 1], q.page + 1)])
    else patched
  }

  /** Page of the byte at `a`. */
  function PageOf(a: nat): nat
  {
    a / PAGE
  }

  /** The first byte after packet `p`. */
  function End(packets: seq<Packet>, p: nat): nat
    requires p < |packets|
  {
    packets[p].buf + packets[p].length
  }

  /** The transaction of packet `q` in a descriptor whose first packet is `a`. */
  predicate Carries(itd: Itd, packets: seq<Packet>, sched: seq<IsoPacket>, a: nat, q: nat, u: nat)
    requires WellFormed(itd) && a <= q < |packets| == |sched| && u < 8
  {
    && itd.index[u] == q && packets[a].buf <= packets[q].buf
    && itd.transaction[u] ==
         Active(sched[q].offset, sched[q].length, PageOf(packets[q].buf) - PageOf(packets[a].buf), sched[q].ioc)
  }

  /** Packets `a` to `b - 1` are in the descriptor, each in its microframe, and nothing else is. */
  predicate Loaded(itd: Itd, packets: seq<Packet>, sched: seq<IsoPacket>, a: nat, b: nat, first: nat, interval: nat,
      mod: nat)
    requires WellFormed(itd) && a <= b <= |packets| == |sched| && mod > 0
  {
    && (forall q :: a <= q < b ==> Carries(itd, packets, sched, a, q, Micro(first, q, interval, mod)))
    && (forall q :: a <= q < b ==> Frame(first, q, interval, mod) == Frame(first, a, interval, mod))
    && (forall u :: 0 <= u < 8 ==> FreeOrOwn(itd, a, b, u, first, interval, mod))
  }

  predicate FreeOrOwn(itd: Itd, a: nat, b: nat, u: nat, first: nat, interval: nat, mod: nat)
    requires WellFormed(itd) && mod > 0 && u < 8
  {
    (itd.index[u] == -1 && itd.transaction[u] == Inactive)
      || (a <= itd.index[u] < b && Micro(first, itd.index[u], interval, mod) == u)
  }

  /** The page pointers up to the one in use name the pages from the first packet's on. */
  predicate Paged(itd: Itd, packets: seq<Packet>, a: nat, b: nat)
    requires WellFormed(itd) && a <= b <= |packets|
  {
    if a == b then itd.pg == 0 && forall j :: 0 <= j < 7 ==> itd.pages[j] == 0
    else
      && packets[a].buf <= End(packets, b - 1)
      && itd.pg == PageOf(End(packets, b - 1)) - PageOf(packets[a].buf)
      && (forall j :: 0 <= j < 7 ==> itd.pages[j] == if j <= itd.pg then PageOf(packets[a].buf) + j else 0)
  }

  /** Contiguous packets add up. */
  lemma {:induction false} Extent(packets: seq<Packet>, a: nat, b: nat)
    requires Contiguous(packets) && a < b <= |packets|
    ensures packets[a].buf <= packets[b - 1].buf <= End(packets, b - 1) <= packets[a].buf + 3072 * (b - a)
  {
    if a + 1 < b {
      Extent(packets, a, b - 1);
    }
  }

  /** Packets of one frame: at most one per microframe, in rising order. */
  lemma {:induction false} Rising(first: nat, a: nat, p: nat, interval: nat, mod: nat)
    requires RingOk(first, interval, mod) && a <= p
    requires forall q :: a <= q <= p ==> Frame(first, q, interval, mod) == Frame(first, a, interval, mod)
    ensures p - a <= Micro(first, p, interval, mod)
    ensures forall q :: a <= q < p ==> Micro(first, q, interval, mod) < Micro(first, p, interval, mod)
  {
    if a < p {
      Rising(first, a, p - 1, interval, mod);
      assert Frame(first, p, interval, mod) == Frame(first, p - 1, interval, mod);
      SameFrame(first, p, interval, mod);
      hide Slot;
    }
  }

  /** Seven page pointers are enough: the page in use stays at most 6, and a packet that crosses has a
      pointer for its second page. */
  lemma PagesSuffice(itd: Itd, packets: seq<Packet>, q: IsoPacket, a: nat, p: nat)
    requires Contiguous(packets) && WellFormed(itd) && a <= p < |packets| && p - a <= 7 && Paged(itd, packets, a, p)
    requires Describes(q, packets[p])
    ensures PageOf(End(packets, p)) - PageOf(packets[a].buf) == itd.pg + if q.cross then 1 else 0
    ensures q.cross ==> itd.pg + 1 < 7
    ensures itd.pg == PageOf(packets[p].buf) - PageOf(packets[a].buf)
  {
    Extent(packets, a, p + 1);
    assert p > a ==> packets[p].buf == End(packets, p - 1);
  }

  lemma PatchPaged(itd: Itd, packets: seq<Packet>, q: IsoPacket, a: nat, p: nat, u: nat)
    requires Contiguous(packets) && WellFormed(itd) && a <= p < |packets| && p - a <= 7 && u < 8
    requires Paged(itd, packets, a, p) && Describes(q, packets[p])
    ensures (q.cross ==> itd.pg + 1 < 7) && WellFormed(Patch(itd, q, p, u))
      && Paged(Patch(itd, q, p, u), packets, a, p + 1)
  {
    PagesSuffice(itd, packets, q, a, p);
    Extent(packets, a, p + 1);
    var base := PageOf(packets[a].buf);
    assert q.page == base + itd.pg;
    OrSame(q.page);
    OrSame(q.page + 1);
    hide Or;
    assert Or(itd.pages[itd.pg], q.page) == q.page by { OrInto(itd.pages[itd.pg], q.page); }
    if q.cross {
      assert Or(itd.pages[itd.pg + 1], q.page + 1) == q.page + 1 by { OrInto(itd.pages[itd.pg + 1], q.page + 1); }
    }
    hide PageOf, Describes, Contiguous;
  }

  /** Or-ing into an empty word, or the same value again. */
  lemma OrInto(a: nat, b: nat)
    requires a == 0 || a == b
    ensures Or(a, b) == b
  {
    OrSame(b);
  }

  lemma PatchLoaded(itd: Itd, packets: seq<Packet>, sched: seq<IsoPacket>, a: nat, p: nat, first: nat, interval: nat,
      mod: nat)
    requires Contiguous(packets) && RingOk(first, interval, mod) && WellFormed(itd) && a <= p < |packets| == |sched|
    requires Describes(sched[p], packets[p]) && (sched[p].cross ==> itd.pg + 1 < 7)
    requires itd.pg == PageOf(packets[p].buf) - PageOf(packets[a].buf)
    requires Loaded(itd, packets, sched, a, p, first, interval, mod)
    requires Frame(first, p, interval, mod) == Frame(first, a, interval, mod)
    ensures Loaded(Patch(itd, sched[p], p, Micro(first, p, interval, mod)), packets, sched, a, p + 1, first, interval,
      mod)
  {
    var u := Micro(first, p, interval, mod);
    var itd' := Patch(itd, sched[p], p, u);
    Rising(first, a, p, interval, mod);
    Extent(packets, a, p + 1);
    assert itd'.index == itd.index[u := p] && |itd'.transaction| == 8 && |itd'.pages| == 7 && itd'.pg < 7;
    assert itd'.transaction == itd.transaction[u := Active(sched[p].offset, sched[p].length, itd.pg, sched[p].ioc)];
    hide Patch, Micro, Frame, PageOf, Describes, Contiguous, RingOk;
    forall q | a <= q < p + 1
      ensures Carries(itd', packets, sched, a, q, Micro(first, q, interval, mod))
    {
      if q < p {
        assert Carries(itd, packets, sched, a, q, Micro(first, q, interval, mod));
      }
    }
    var b := p + 1;
    forall v | 0 <= v < 8
      ensures FreeOrOwn(itd', a, b, v, first, interval, mod)
    {
      assert FreeOrOwn(itd, a, p, v, first, interval, mod);
    }
  }

  // ---- the whole request ----

  /** A finished descriptor: `a` to `b - 1` are the packets of its frame, the `i`th of the request's. */
  ghost predicate Finished(itd: Itd, a: nat, b: nat, id: nat, i: nat, packets: seq<Packet>, sched: seq<IsoPacket>,
                           first: nat, interval: nat, mod: nat)
    requires |packets| == |sched| && mod > 0
  {
    Underway(itd, a, b, id, i, packets, sched, first, interval, mod) && a < b
      && itd.frame == Frame(first, a, interval, mod)
  }

  ghost predicate Underway(itd: Itd, a: nat, b: nat, id: nat, i: nat, packets: seq<Packet>, sched: seq<IsoPacket>,
                           first: nat, interval: nat, mod: nat)
    requires |packets| == |sched| && mod > 0
  {
    && a <= b <= |packets| && WellFormed(itd) && itd.id == id
    && Loaded(itd, packets, sched, a, b, first, interval, mod) && Paged(itd, packets, a, b)
    && forall q :: a <= q < b ==> Group(first, q, interval, mod) == i
  }

  /** The descriptors made so far: descriptor `i` holds the packets from `bounds[i]` to `bounds[i + 1]`,
      one frame's worth, and was the `i`th of the list. */
  ghost predicate Placed(linked: seq<Itd>, bounds: seq<nat>, ids: seq<nat>, packets: seq<Packet>, sched: seq<IsoPacket>,
                         first: nat, interval: nat, mod: nat)
    requires |packets| == |sched| && mod > 0
  {
    && |bounds| == |linked| + 1 && bounds[0] == 0 && |linked| <= |ids|
    && forall i :: 0 <= i < |linked| ==>
      Finished(linked[i], bounds[i], bounds[i + 1], ids[i], i, packets, sched, first, interval, mod)
  }

  lemma Fresh(id: nat, a: nat, i: nat, packets: seq<Packet>, sched: seq<IsoPacket>, first: nat, interval: nat, mod: nat)
    requires |packets| == |sched| && mod > 0 && a <= |packets|
    ensures Underway(ItdInit(id), a, a, id, i, packets, sched, first, interval, mod)
  {
  }

  lemma PatchUnderway(itd: Itd, a: nat, p: nat, id: nat, i: nat, packets: seq<Packet>, sched: seq<IsoPacket>,
                      first: nat, interval: nat, mod: nat)
    requires Contiguous(packets) && |packets| == |sched| && RingOk(first, interval, mod) && p < |packets|
    requires Describes(sched[p], packets[p]) && Group(first, p, interval, mod) == i
    requires Underway(itd, a, p, id, i, packets, sched, first, interval, mod)
    requires Frame(first, p, interval, mod) == Frame(first, a, interval, mod)
    ensures sched[p].cross ==> itd.pg + 1 < 7
    ensures Underway(Patch(itd, sched[p], p, Micro(first, p, interval, mod)), a, p + 1, id, i, packets, sched, first,
      interval, mod)
  {
    Rising(first, a, p, interval, mod);
    PagesSuffice(itd, packets, sched[p], a, p);
    PatchLoaded(itd, packets, sched, a, p, first, interval, mod);
    PatchPaged(itd, packets, sched[p], a, p, Micro(first, p, interval, mod));
    hide Loaded, Paged, Micro, Frame, Contiguous, Describes, RingOk, Group;
  }

  lemma PlacedMore(linked: seq<Itd>, itd: Itd, bounds: seq<nat>, b: nat, ids: seq<nat>, packets: seq<Packet>,
      sched: seq<IsoPacket>, first: nat, interval: nat, mod: nat)
    requires |packets| == |sched| && mod > 0 && Placed(linked, bounds, ids, packets, sched, first, interval, mod)
      && |linked| < |ids|
    requires Finished(itd, bounds[|linked|], b, ids[|linked|], |linked|, packets, sched, first, interval, mod)
    ensures Placed(linked + [itd], bounds + [b], ids, packets, sched, first, interval, mod)
  {
    hide Finished;
  }

  /** itd_link_urb: the request's packets go into descriptors of the list, which never runs out, and each
      descriptor is linked into its frame.  `slot` is the stream's next microframe afterwards. */
  method ItdLinkUrb(packets: seq<Packet>, sched: seq<IsoPacket>, tdList: seq<nat>, first: nat, interval: nat, mod: nat)
    returns (linked: seq<Itd>, slot: nat, ghost bounds: seq<nat>)
    requires Contiguous(packets) && |packets| == |sched| && RingOk(first, interval, mod)
    requires forall p :: 0 <= p < |packets| ==> Describes(sched[p], packets[p])
    requires |tdList| >= NumItds(interval, |packets|)
    ensures Placed(linked, bounds, tdList, packets, sched, first, interval, mod) && bounds[|linked|] == |packets|
    ensures slot == Slot(first, |packets|, interval, mod)
  {
    hide Contiguous, Describes, Underway, Patch, Slot, Group, NumItds;
    linked, bounds, slot := [], [0], first;
    var open, itd := false, ItdInit(0);
    var packet := 0;
    Starts(first, interval, mod);
    while packet < |packets|
      invariant packet <= |packets| && slot == Slot(first, packet, interval, mod)
      invariant Placed(linked, bounds, tdList, packets, sched, first, interval, mod) && bounds[|linked|] <= packet
      invariant !open ==> bounds[|linked|] == packet
      invariant packet < |packets| ==> Group(first, packet, interval, mod) == |linked|
      invariant packet == |packets| ==> !open
      invariant open ==>
        && |linked| < |tdList| && Frame(first, packet, interval, mod) == Frame(first, bounds[|linked|], interval, mod)
        && Underway(itd, bounds[|linked|], packet, tdList[|linked|], |linked|, packets, sched, first, interval, mod)
    {
      Enough(first, packet, interval, mod, |packets|);
      if !open {
        // Enough: the list has an entry left
        itd := ItdInit(tdList[|linked|]);
        Fresh(tdList[|linked|], packet, |linked|, packets, sched, first, interval, mod);
        open := true;
      }
      var uframe, frame := slot % 8, slot / 8;
      PatchUnderway(itd, bounds[|linked|], packet, tdList[|linked|], |linked|, packets, sched, first, interval, mod);
      UnderwayWell(itd, bounds[|linked|], packet, tdList[|linked|], |linked|, packets, sched, first, interval, mod);
      itd := Patch(itd, sched[packet], packet, uframe);
      NextSlot(first, packet, interval, mod);
      slot := (slot + interval) % mod;
      packet := packet + 1;
      // the last packet of its frame
      if slot / 8 != frame || packet == |packets| {
        Linked(itd, itd.(frame := frame), bounds[|linked|], packet, tdList[|linked|], |linked|, packets, sched, first,
          interval, mod);
        itd := itd.(frame := frame);
        PlacedMore(linked, itd, bounds, packet, tdList, packets, sched, first, interval, mod);
        linked, bounds := linked + [itd], bounds + [packet];
        open := false;
      }
    }
  }

  lemma Starts(first: nat, interval: nat, mod: nat)
    requires mod > 0
    ensures Slot(first, 0, interval, mod) == first && Group(first, 0, interval, mod) == 0
  {
  }

  lemma NextSlot(first: nat, p: nat, interval: nat, mod: nat)
    requires mod > 0
    ensures Slot(first, p + 1, interval, mod) == (Slot(first, p, interval, mod) + interval) % mod
    ensures Group(first, p + 1, interval, mod) ==
      Group(first, p, interval, mod)
      + if Frame(first, p + 1, interval, mod) != Frame(first, p, interval, mod) then 1 else 0
  {
  }

  lemma UnderwayWell(itd: Itd, a: nat, p: nat, id: nat, i: nat, packets: seq<Packet>, sched: seq<IsoPacket>,
                     first: nat, interval: nat, mod: nat)
    requires |packets| == |sched| && mod > 0 && Underway(itd, a, p, id, i, packets, sched, first, interval, mod)
    ensures WellFormed(itd)
  {
  }

  /** Setting the frame finishes a descriptor. */
  lemma Linked(itd: Itd, itd': Itd, a: nat, b: nat, id: nat, i: nat, packets: seq<Packet>, sched: seq<IsoPacket>,
               first: nat, interval: nat, mod: nat)
    requires |packets| == |sched| && mod > 0 && a < b && itd' == itd.(frame := Frame(first, a, interval, mod))
    requires Underway(itd, a, b, id, i, packets, sched, first, interval, mod)
    ensures Finished(itd', a, b, id, i, packets, sched, first, interval, mod)
  {
    assert itd'.index == itd.index && itd'.transaction == itd.transaction && itd'.pages == itd.pages
      && itd'.pg == itd.pg;
    hide Micro, Frame, Group;
    forall q | a <= q < b
      ensures Carries(itd', packets, sched, a, q, Micro(first, q, interval, mod))
    {
      assert Carries(itd, packets, sched, a, q, Micro(first, q, interval, mod));
    }
    forall u | 0 <= u < 8
      ensures FreeOrOwn(itd', a, b, u, first, interval, mod)
    {
      assert FreeOrOwn(itd, a, b, u, first, interval, mod);
    }
  }

  /** Each packet is in exactly one microframe of one descriptor, that of its slot. */
  lemma ExactlyOnce(linked: seq<Itd>, bounds: seq<nat>, ids: seq<nat>, packets: seq<Packet>, sched: seq<IsoPacket>,
                    first: nat, interval: nat, mod: nat, p: nat, i: nat, u: nat)
    requires |packets| == |sched| && mod > 0 && p < |packets| && i < |linked| && u < 8
    requires Placed(linked, bounds, ids, packets, sched, first, interval, mod) && bounds[|linked|] == |packets|
    ensures WellFormed(linked[i])
    ensures linked[i].index[u] == p <==> Group(first, p, interval, mod) == i && Micro(first, p, interval, mod) == u
    ensures Group(first, p, interval, mod) < |linked|
    ensures linked[i].index[u] == p ==> linked[i].frame == Frame(first, p, interval, mod)
  {
    hide Slot, Micro, Frame, Group, Paged;
    var g := Find(linked, bounds, ids, packets, sched, first, interval, mod, p);
    assert Finished(linked[i], bounds[i], bounds[i + 1], ids[i], i, packets, sched, first, interval, mod);
    assert Finished(linked[g], bounds[g], bounds[g + 1], ids[g], g, packets, sched, first, interval, mod);
    assert Group(first, p, interval, mod) == g;
    assert Carries(linked[g], packets, sched, bounds[g], p, Micro(first, p, interval, mod));
    assert FreeOrOwn(linked[i], bounds[i], bounds[i + 1], u, first, interval, mod);
  }

  /** The descriptor a packet is in. */
  lemma {:induction false} Find(linked: seq<Itd>, bounds: seq<nat>, ids: seq<nat>, packets: seq<Packet>,
      sched: seq<IsoPacket>, first: nat, interval: nat, mod: nat, p: nat)
    returns (g: nat)
    requires |packets| == |sched| && mod > 0 && p < |packets|
    requires Placed(linked, bounds, ids, packets, sched, first, interval, mod) && p < bounds[|linked|]
    ensures g < |linked| && bounds[g] <= p < bounds[g + 1]
  {
    g := |linked| - 1;
    while bounds[g] > p
      invariant 0 <= g < |linked| && p < bounds[g + 1]
    {
      g := g - 1;
    }
  }

  /** Where the controller finds byte `j` of a transaction: from its page pointer on, in the next page
      past the end of that one. */
  function HwAddress(itd: Itd, t: Transaction, j: nat): nat
    requires WellFormed(itd) && t.Active? && t.pg + (t.offset + j) / PAGE < 7
  {
    itd.pages[t.pg + (t.offset + j) / PAGE] * PAGE + (t.offset + j) % PAGE
  }

  /** The seven page pointers address every byte of every packet. */
  lemma AddressesRight(itd: Itd, a: nat, b: nat, id: nat, i: nat, packets: seq<Packet>, sched: seq<IsoPacket>,
                       first: nat, interval: nat, mod: nat, q: nat, j: nat)
    requires |packets| == |sched| && mod > 0 && Contiguous(packets) && a <= q < b && q < |packets|
      && j < packets[q].length
    requires Describes(sched[q], packets[q])
    requires Finished(itd, a, b, id, i, packets, sched, first, interval, mod)
    ensures var t := itd.transaction[Micro(first, q, interval, mod)];
      t.Active? && t.pg + (t.offset + j) / PAGE <= 6 && HwAddress(itd, t, j) == packets[q].buf + j
  {
    assert Carries(itd, packets, sched, a, q, Micro(first, q, interval, mod));
    Extent(packets, a, q + 1);
    if q + 1 < b {
      Extent(packets, q + 1, b);
    }
    hide Slot, Micro, Frame, Group;
    var t := itd.transaction[Micro(first, q, interval, mod)];
    var buf := packets[q].buf;
    assert (buf + j) / PAGE == buf / PAGE + (t.offset + j) / PAGE && (buf + j) % PAGE == (t.offset + j) % PAGE;
    assert PageOf(buf + j) <= PageOf(End(packets, b - 1));
  }
}
