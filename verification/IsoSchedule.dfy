/** Choosing where an isochronous request starts, in the driver's 32-bit arithmetic on a ring of
    microframes: the high-speed case, with a period that is a power of two. */
module IsoSchedule {
  import Arith

  const WORD: nat := 0x1_0000_0000
  const SLOP: nat := 80

  /** Unsigned 32-bit arithmetic. */
  function U32(x: int): nat
  {
    x % WORD
  }

  /** What a microframe may have claimed before a packet of `usecs` is added; like the driver's, the
      difference wraps around when a packet alone is over the limit. */
  function Room(max: nat, usecs: nat): nat
  {
    U32(max - usecs)
  }

  /** The ring has periodic_size * 8 microframes. */
  predicate Ring(mod: nat)
  {
    Arith.IsPow2(mod) && 2048 <= mod <= 0x10_0000
  }

  /** Masking with mod - 1. */
  function Wrap(x: nat, mod: nat): nat
    requires mod > 0
  {
    x % mod
  }

  datatype Result = Ok | TooBig | NoSpace

  /** Every microframe of the ring that is `r` modulo the period has room. */
  predicate SlotFits(claimed: seq<nat>, r: nat, period: nat, room: nat)
    requires period > 0
  {
    forall v :: 0 <= v < |claimed| && Phase(v, period) == Phase(r, period) ==> claimed[v] <= room
  }

  function Phase(v: nat, period: nat): nat
    requires period > 0
  {
    v % period
  }

  lemma WordMultiple(mod: nat)
    requires Ring(mod)
    ensures WORD % mod == 0
  {
    assert Arith.IsPow2(WORD) by {
      assert Arith.IsPow2(0x1_0000) by { assert Arith.IsPow2(0x100) by { assert Arith.IsPow2(0x10); } }
      Arith.Pow2Product(0x1_0000, 0x1_0000);
    }
    Arith.Pow2Divides(mod, WORD);
  }

  /** Adding a multiple of the period keeps the phase. */
  lemma PhaseShift(a: nat, k: int, period: nat)
    requires period > 0 && a + k * period >= 0
    ensures Phase(a + k * period, period) == Phase(a, period)
  {
    var q, r := a / period, a % period;
    assert a + k * period == (q + k) * period + r;
    Arith.DivModUnique(a + k * period, period, q + k, r);
  }

  /** A packet that fits the limit on its own has room in a slot exactly if the limit holds with it in each
      microframe that is congruent to the slot modulo the period. */
  lemma RoomForPacket(claimed: seq<nat>, r: nat, period: nat, max: nat, usecs: nat)
    requires 0 < period
    ensures usecs <= max < WORD ==>
      (SlotFits(claimed, r, period, Room(max, usecs)) <==>
        forall v :: 0 <= v < |claimed| && v % period == r % period ==> claimed[v] + usecs <= max)
  {
    if usecs <= max < WORD {
      assert Room(max, usecs) == max - usecs;
      assert forall v :: 0 <= v < |claimed| ==> (v % period == Phase(v, period));
      hide U32;
    }
  }

  /** itd_slot_ok: `claimed` is what periodic_usecs says of each microframe. */
  method ItdSlotOk(claimed: seq<nat>, mod: nat, uframe: nat, usecs: nat, max: nat, period: nat) returns (ok: bool)
    requires |claimed| == mod && 0 < period < mod
    ensures ok <==> SlotFits(claimed, uframe, period, Room(max, usecs))
    ensures usecs <= max < WORD ==>
      (ok <==> forall v :: 0 <= v < mod && v % period == uframe % period ==> claimed[v] + usecs <= max)
  {
    RoomForPacket(claimed, uframe, period, max, usecs);
    var u := uframe % period;
    PhaseOfSmall(uframe, period);
    ghost var r := Phase(uframe, period);
    hide Phase;
    ok := true;
    // a loop that tests at its end: the first microframe is below the period
    while u < mod
      invariant Phase(u, period) == r
      invariant forall v :: 0 <= v < u && v < mod && Phase(v, period) == r ==> claimed[v] <= Room(max, usecs)
      decreases mod - u
    {
      if claimed[u] > Room(max, usecs) {
        return false;
      }
      NextInPhase(u, period);
      u := u + period;
    }
  }

  lemma PhaseOfSmall(u: nat, period: nat)
    requires period > 0
    ensures Phase(u % period, period) == Phase(u, period)
    ensures forall v: nat :: v < u % period ==> Phase(v, period) != Phase(u, period)
  {
    Arith.SmallResidue(u % period, period);
    forall v: nat | v < u % period
      ensures Phase(v, period) != Phase(u, period)
    {
      Arith.SmallResidue(v, period);
    }
  }

  lemma NextInPhase(u: nat, period: nat)
    requires period > 0
    ensures Phase(u + period, period) == Phase(u, period)
    ensures forall v: nat :: u < v < u + period ==> Phase(v, period) != Phase(u, period)
  {
    Arith.StepResidue(u, period, u % period);
  }

  lemma Regroup(j: int, m: int, q: int, mod: int)
    ensures q * mod + j * (m * mod) == (q + j * m) * mod
  {
  }

  lemma U32Sub(a: int, b: int)
    ensures U32(U32(a) - b) == U32(a - b)
  {
  }

  /** Wrapping a difference that wrapped around 32 bits is wrapping the difference. */
  lemma WrapU32(x: int, mod: nat) returns (k: int)
    requires Ring(mod)
    ensures x == Wrap(U32(x), mod) + k * mod
  {
    WordMultiple(mod);
    var u := U32(x);
    var m, q, j := WORD / mod, u / mod, x / WORD;
    assert WORD == m * mod;
    assert u == q * mod + u % mod;
    k := q + j * m;
    Regroup(j, m, q, mod);
  }

  /** How far the last slot of a live stream is ahead, around the ring. */
  lemma Ahead(nextUframe: nat, period: nat, now: nat, mod: nat) returns (k: int)
    requires Ring(mod)
    ensures var excess := Wrap(U32(U32(nextUframe - period) - now), mod);
      excess < mod && nextUframe == now + excess + period + k * mod
  {
    U32Sub(nextUframe - period, now);
    k := WrapU32(nextUframe - period - now, mod);
    hide U32;
  }

  /** The least multiple of the period that is not below `d`. */
  function RoundedUp(d: nat, period: nat): nat
    requires 0 < d && 0 < period
  {
    period * ((d + period - 1) / period)
  }

  lemma RoundUp(d: nat, period: nat) returns (q: nat)
    requires 0 < d && 0 < period
    ensures RoundedUp(d, period) == q * period && d <= q * period < d + period
  {
    var r;
    q, r := (d + period - 1) / period, (d + period - 1) % period;
    assert d + period - 1 == q * period + r;
  }

  /** A multiple of the ring is a multiple of a smaller power of two. */
  lemma RingMultiple(k: int, mod: nat, period: nat) returns (m: int)
    requires Ring(mod) && Arith.IsPow2(period) && period <= mod
    ensures k * mod == m * period
  {
    Arith.Pow2Divides(period, mod);
    var n := mod / period;
    assert mod == n * period;
    m := k * n;
    Regroup(k, n, 0, period);
  }

  /** A smaller power of two divides the ring. */
  lemma Phases(a: nat, b: nat, k: int, mod: nat, period: nat)
    requires Ring(mod) && Arith.IsPow2(period) && 0 < period <= mod && a == b + k * mod
    ensures Phase(a, period) == Phase(b, period)
  {
    var m := RingMultiple(k, mod, period);
    PhaseShift(b, m, period);
  }

  /** Whole turns of the ring apart. */
  ghost predicate SameSlot(a: int, b: int, mod: nat)
  {
    exists k: int :: a == b + k * mod
  }

  /** Where a live stream goes on: at the slot after its last one, or, when it has fallen behind by up to
      twice the slop, at the first slot of its phase that is not past.  No sum wraps. */
  method NextStart(mod: nat, now: nat, nextUframe: nat, period: nat) returns (start: nat)
    requires Ring(mod) && now < mod && nextUframe < mod && Arith.IsPow2(period) && period < mod
    ensures Phase(start, period) == Phase(nextUframe, period)
    ensures now <= start
    ensures Behind(mod, now, nextUframe, period) ==> start < now + period
    ensures !Behind(mod, now, nextUframe, period) ==>
      now + period <= start < now + mod - 2 * SLOP + period && SameSlot(start, nextUframe, mod)
  {
    hide Phase, U32, Wrap, RoundedUp, SameSlot;
    var next := now;
    var excess := Wrap(U32(U32(nextUframe - period) - next), mod);
    ghost var k := Ahead(nextUframe, period, now, mod);
    if excess >= mod - 2 * SLOP {
      var up := RoundedUp(mod - excess, period);
      ghost var q := RoundUp(mod - excess, period);
      start := U32(U32(next + excess - mod) + up);
      Resumed(next, excess, q, up, start, nextUframe, k, mod, period);
    } else {
      start := U32(next + excess + period);
      GoesOn(next, excess, start, nextUframe, k, mod, period);
    }
  }

  /** After a slot that is not past: no sum wraps, and the phase is kept. */
  lemma GoesOn(next: nat, excess: nat, start: nat, nextUframe: nat, k: int, mod: nat, period: nat)
    requires Ring(mod) && Arith.IsPow2(period) && 0 < period < mod && next < mod && excess < mod
    requires start == U32(next + excess + period) && nextUframe == next + excess + period + k * mod
    ensures start == next + excess + period && SameSlot(start, nextUframe, mod)
    ensures Phase(start, period) == Phase(nextUframe, period)
  {
    assert start == nextUframe + (-k) * mod;
    Phases(nextUframe, start, k, mod, period);
    hide Phase, Arith.IsPow2;
  }

  /** After falling behind: no sum wraps, and the phase is kept. */
  lemma Resumed(next: nat, excess: nat, q: nat, up: nat, start: nat, nextUframe: nat, k: int, mod: nat, period: nat)
    requires Ring(mod) && Arith.IsPow2(period) && 0 < period < mod && next < mod && mod - 2 * SLOP <= excess < mod
    requires up == q * period && mod - excess <= up < mod - excess + period
    requires start == U32(U32(next + excess - mod) + up) && nextUframe == next + excess + period + k * mod
    ensures start == next + excess - mod + up && next <= start < next + period
    ensures Phase(start, period) == Phase(nextUframe, period)
  {
    hide Phase, Arith.IsPow2;
    NoWrap(next + excess - mod, up);
    hide U32;
    var last := next + excess + period;
    Phases(nextUframe, last, k, mod, period);
    var m := RingMultiple(-1, mod, period);
    Shift(q, m, period);
    PhaseShift(last, q - 1 + m, period);
  }

  lemma NoWrap(a: int, b: nat)
    requires 0 < a + WORD && a < WORD && b < WORD && 0 <= a + b < WORD
    ensures U32(U32(a) + b) == a + b
  {
    assert U32(a) == if a < 0 then a + WORD else a;
  }

  lemma Shift(q: int, m: int, period: int)
    ensures (q - 1 + m) * period == q * period - period + m * period
  {
  }

  /** The last slot of the stream lies at most twice the slop in the past. */
  predicate Behind(mod: nat, now: nat, nextUframe: nat, period: nat)
    requires mod > 0
  {
    Wrap(U32(U32(nextUframe - period) - now), mod) >= mod - 2 * SLOP
  }

  /** Where a new stream's search begins: past the slop, at the start of a frame. */
  function FirstSlot(now: nat): nat
  {
    SLOP + (now - now % 8)
  }

  /** Starts are tried from the latest down, over one period. */
  method FreshStart(mod: nat, now: nat, period: nat, claimed: seq<nat>, usecs: nat, max: nat)
      returns (start: nat, done: bool)
    requires |claimed| == mod && 0 < period < mod
    ensures FirstSlot(now) <= start < FirstSlot(now) + period
    ensures now + 80 - 7 <= start < now + 80 + period
    ensures done <==> SlotFits(claimed, start, period, Room(max, usecs))
    ensures forall c :: start < c < FirstSlot(now) + period ==> !SlotFits(claimed, c, period, Room(max, usecs))
    ensures !done ==> start == FirstSlot(now)
  {
    hide SlotFits, Room;
    done := false;
    start := FirstSlot(now);
    var next := start;
    start := start + period;
    while start > next && !done
      invariant next <= start <= next + period && (start == next + period ==> !done)
      invariant done ==> SlotFits(claimed, start, period, Room(max, usecs))
      invariant forall c :: (if done then start + 1 else start) <= c < next + period ==>
        !SlotFits(claimed, c, period, Room(max, usecs))
      decreases start - next, !done
    {
      start := start - 1;
      done := ItdSlotOk(claimed, mod, start, usecs, max, period);
    }
  }

  /** The starts tried cover every phase: when none fits, no slot of the ring does. */
  lemma EveryPhaseTried(claimed: seq<nat>, first: nat, period: nat, room: nat, v: nat)
    requires 0 < period && forall c :: first <= c < first + period ==> !SlotFits(claimed, c, period, room)
    ensures !SlotFits(claimed, v, period, room)
  {
    var d := (v - first) % period;
    var q := (v - first) / period;
    assert v == (first + d) + q * period;
    PhaseShift(first + d, q, period);
    assert !SlotFits(claimed, first + d, period, room);
    hide Phase;
  }

  /** Microframes a request of `packets` packets spans. */
  function Span(packets: nat, period: nat): nat
  {
    packets * period
  }

  /** Slot of packet `k`. */
  function Slot(start: nat, k: nat, period: nat): nat
  {
    start + Span(k, period)
  }

  /** Every slot of a request lies between now and the end of the ring less twice the slop. */
  predicate InWindow(start: nat, packets: nat, now: nat, mod: nat, period: nat)
  {
    forall k: nat :: k < packets ==> now <= Slot(start, k, period) < now + mod - 2 * SLOP
  }

  lemma SpanGrows(a: nat, b: nat, p: nat)
    requires a <= b
    ensures Span(a, p) <= Span(b, p)
  {
  }

  lemma SpanLess(packets: nat, p: nat)
    requires packets > 0
    ensures Span(packets - 1, p) == Span(packets, p) - p && p <= Span(packets, p)
  {
    assert (packets - 1) * p == packets * p - p;
    SpanGrows(0, packets - 1, p);
  }

  /** The window check looks at the first and at the last slot. */
  lemma WindowIsEnds(start: nat, packets: nat, now: nat, mod: nat, period: nat)
    requires packets > 0 && now <= start && 2 * SLOP <= mod
    ensures InWindow(start, packets, now, mod, period) <==>
      start + Span(packets, period) - period < now + mod - 2 * SLOP
  {
    SpanLess(packets, period);
    if start + Span(packets, period) - period < now + mod - 2 * SLOP {
      forall k: nat | k < packets
        ensures now <= Slot(start, k, period) < now + mod - 2 * SLOP
      {
        SpanGrows(k, packets - 1, period);
        hide Span;
      }
    } else {
      assert Slot(start, packets - 1, period) >= now + mod - 2 * SLOP;
    }
    hide Span;
  }

  lemma SumsFit(a: nat, b: nat, c: nat)
    requires a < 0x4000_0000 && c <= b < 0x4000_0000
    ensures U32(U32(U32(a) + b) - c) == a + b - c
  {
    assert U32(a) == a && U32(a + b) == a + b;
  }

  /** Whether the window is missed; the sums that tell do not wrap. */
  method TooFar(start: nat, now: nat, packets: nat, mod: nat, period: nat) returns (far: bool)
    requires Ring(mod) && packets > 0 && now <= start < now + 2 * mod && Span(packets, period) <= mod
    ensures far <==> !InWindow(start, packets, now, mod, period)
  {
    SpanLess(packets, period);
    WindowIsEnds(start, packets, now, mod, period);
    SumsFit(start - now, Span(packets, period), period);
    hide Span, InWindow, Arith.IsPow2, U32;
    far := U32(U32(U32(start - now) + Span(packets, period)) - period) >= mod - 2 * SLOP;
  }

  /** iso_stream_schedule: `live` if the stream has descriptors on the schedule.  `start` is where the
      request's first packet goes, counted on from `now` without wrapping. */
  method IsoStreamSchedule(mod: nat, frameIndex: nat, live: bool, nextUframe: nat, period: nat, packets: nat,
      claimed: seq<nat>, usecs: nat, max: nat)
    returns (r: Result, start: nat)
    requires Ring(mod) && nextUframe < mod && Arith.IsPow2(period) && 0 < period && 0 < packets
      && Span(packets, period) < WORD
    requires |claimed| == mod
    ensures r == Ok ==> InWindow(start, packets, Wrap(frameIndex, mod), mod, period)
    ensures r == Ok && live ==> Phase(start, period) == Phase(nextUframe, period)
    ensures r == Ok && !live ==> SlotFits(claimed, start, period, Room(max, usecs))
    ensures r == Ok && !live ==> var now := Wrap(frameIndex, mod); now + 80 - 7 <= start < now + 80 + period
    ensures r == Ok && !live && usecs <= max < WORD ==>
      forall v :: 0 <= v < mod && v % period == start % period ==> claimed[v] + usecs <= max
    ensures r == NoSpace <==>
      !live && Span(packets, period) <= mod - SLOP && forall v: nat :: !SlotFits(claimed, v, period, Room(max, usecs))
    ensures Span(packets, period) > mod - SLOP ==> r == TooBig
    ensures r == TooBig && Span(packets, period) <= mod - SLOP ==>
      !InWindow(start, packets, Wrap(frameIndex, mod), mod, period)
  {
    hide Phase, SlotFits, InWindow, Span, Room, Wrap, U32, Behind, SameSlot;
    var span := Span(packets, period);
    start := 0;
    SpanLess(packets, period);
    if span > mod - SLOP {
      return TooBig, 0;
    }
    var now := Wrap(frameIndex, mod);
    WrapBelow(frameIndex, mod);
    if live {
      start := NextStart(mod, now, nextUframe, period);
    } else {
      var done;
      start, done := FreshStart(mod, now, period, claimed, usecs, max);
      FirstSlotNear(now);
      if !done {
        NoneFits(claimed, FirstSlot(now), period, Room(max, usecs));
        return NoSpace, start;
      }
    }
    hide FirstSlot;
    var far := TooFar(start, now, packets, mod, period);
    Distance(start, now, mod);
    if (live && U32(start - now) >= mod) || far {
      WindowIsEnds(start, packets, now, mod, period);
      return TooBig, start;
    }
    RoomForPacket(claimed, start, period, max, usecs);
    return Ok, start;
  }

  lemma WrapBelow(x: nat, mod: nat)
    requires mod > 0
    ensures Wrap(x, mod) < mod
  {
  }

  lemma FirstSlotNear(now: nat)
    ensures now <= FirstSlot(now) <= now + SLOP
  {
  }

  lemma Distance(start: nat, now: nat, mod: nat)
    requires Ring(mod) && now <= start < now + 2 * mod
    ensures U32(start - now) == start - now
  {
    hide Arith.IsPow2;
  }

  lemma NoneFits(claimed: seq<nat>, first: nat, period: nat, room: nat)
    requires 0 < period && forall c :: first <= c < first + period ==> !SlotFits(claimed, c, period, room)
    ensures forall v: nat :: !SlotFits(claimed, v, period, room)
  {
    forall v: nat
      ensures !SlotFits(claimed, v, period, room)
    {
      EveryPhaseTried(claimed, first, period, room, v);
    }
  }
}
