/** Building the transfer descriptors of a request: how much of a buffer fits one descriptor, and the
    chain that carries a whole request. */
module QtdBuild {
  import Arith

  const PAGE: nat := 0x1000
  const WORD: nat := 0x1_0000_0000

  const STS_ACTIVE: bv32 := 0x80
  const TOGGLE: bv32 := 0x8000_0000
  const IOC: bv32 := 0x8000
  const PID_OUT: bv32 := 0
  const PID_IN: bv32 := 1
  const PID_SETUP: bv32 := 2

  datatype Link = ListEnd | ToQtd(dma: nat)

  /** A descriptor: its links, its token, the five page pointers, and how many bytes it carries. */
  datatype Qtd = Qtd(
    dma: nat,
    hwNext: Link,
    hwAltNext: Link,
    hwToken: bv32,
    hwBuf: seq<nat>,
    hwBufHi: seq<nat>,
    length: nat)

  predicate WellFormed(q: Qtd)
  {
    |q.hwBuf| == 5 && |q.hwBufHi| == 5
  }

  /** A page pointer, from its two words. */
  function Pointer(q: Qtd, i: nat): nat
    requires WellFormed(q) && i < 5
  {
    q.hwBuf[i] + WORD * q.hwBufHi[i]
  }

  /** Where the controller finds byte `k` of a descriptor's buffer: pointer 0 holds the offset in its
      page, and each further page has a pointer of its own. */
  function HwAddress(q: Qtd, k: nat): nat
    requires WellFormed(q) && Pointer(q, 0) % PAGE + k < 5 * PAGE
  {
    var o := Pointer(q, 0) % PAGE + k;
    var page := Pointer(q, o / PAGE);
    page - page % PAGE + o % PAGE
  }

  /** The bytes of a buffer, by address. */
  function Range(buf: nat, len: nat): (r: seq<nat>)
    ensures |r| == len
  {
    seq(len, k requires 0 <= k => buf + k)
  }

  /** What a descriptor can address from `buf` on. */
  function Capacity(buf: nat): nat
  {
    5 * PAGE - buf % PAGE
  }

  /** The page pointers reach as far as the length. */
  predicate Fits(q: Qtd)
  {
    WellFormed(q) && q.length <= 20480 && q.length <= Capacity(Pointer(q, 0))
  }

  /** The controller reads the `length` bytes from `buf` on. */
  predicate Covers(q: Qtd, buf: nat)
  {
    && WellFormed(q) && Pointer(q, 0) == buf && q.length <= Capacity(buf)
    && forall k: nat :: k < q.length ==> HwAddress(q, k) == buf + k
  }

  /** The bytes the controller transfers for a descriptor. */
  ghost function Bytes(q: Qtd): seq<nat>
  {
    if WellFormed(q) && q.length <= Capacity(Pointer(q, 0)) then
      seq(q.length, k requires 0 <= k < q.length => HwAddress(q, k))
    else []
  }

  /** QTD_LENGTH, and QTD_PID. */
  function TokenLength(token: bv32): bv32
  {
    (token >> 16) & 0x7FFF
  }

  function Pid(token: bv32): bv32
  {
    (token >> 8) & 3
  }

  /** A token before the length is put in. */
  predicate NoLength(token: bv32)
  {
    token & 0x7FFF_0000 == 0
  }

  function WithLength(token: bv32, count: nat): bv32
    requires count < 0x8000
  {
    Packed(count as bv32, token)
  }

  /** A length in bits 30:16 of a token. */
  function Packed(length: bv32, token: bv32): bv32
  {
    (length << 16) | token
  }

  /** Store an address in page pointer `i`. */
  function SetPointer(q: Qtd, i: nat, addr: nat): Qtd
    requires WellFormed(q) && i < 5
  {
    q.(hwBuf := q.hwBuf[i := addr % WORD], hwBufHi := q.hwBufHi[i := addr / WORD % WORD])
  }

  lemma PointerSet(q: Qtd, i: nat, addr: nat, j: nat)
    requires WellFormed(q) && i < 5 && j < 5 && addr < WORD * WORD
    ensures Pointer(SetPointer(q, i, addr), j) == if j == i then addr else Pointer(q, j)
  {
  }

  /** The pointers up to `n` name consecutive pages from `base` on. */
  ghost predicate Pages(q: Qtd, base: nat, n: nat)
    requires WellFormed(q) && n <= 5
  {
    forall j :: 1 <= j < n ==> Pointer(q, j) == base + j * PAGE
  }

  lemma PagesSet(q: Qtd, base: nat, i: nat)
    requires WellFormed(q) && 1 <= i < 5 && Pages(q, base, i) && base + i * PAGE < WORD * WORD
    ensures var q' := SetPointer(q, i, base + i * PAGE); Pages(q', base, i + 1) && Pointer(q', 0) == Pointer(q, 0)
  {
    var q' := SetPointer(q, i, base + i * PAGE);
    forall j | 1 <= j < i + 1
      ensures Pointer(q', j) == base + j * PAGE
    {
      PointerSet(q, i, base + i * PAGE, j);
      hide SetPointer, Pointer;
    }
    PointerSet(q, i, base + i * PAGE, 0);
    hide SetPointer, Pointer;
  }

  lemma CoversPages(q: Qtd, buf: nat, n: nat)
    requires WellFormed(q) && 1 <= n <= 5 && Pointer(q, 0) == buf && Pages(q, buf - buf % PAGE, n)
    requires q.length <= n * PAGE - buf % PAGE
    ensures Covers(q, buf)
  {
    hide Pointer;
    forall k: nat | k < q.length
      ensures HwAddress(q, k) == buf + k
    {
      var o := buf % PAGE + k;
      if o >= PAGE {
        assert Pointer(q, o / PAGE) == buf - buf % PAGE + (o / PAGE) * PAGE;
      }
    }
  }

  /** One buffer entry per 4K, from 16K to 20K depending on alignment: the first entry might be short or
      unaligned.  `n` pointers are in use. */
  method FillPages(qtd: Qtd, buf: nat, len: nat) returns (q: Qtd, count: nat, n: nat)
    requires WellFormed(qtd) && buf < WORD * WORD && buf + len <= WORD * WORD
    ensures 1 <= n <= 5 && WellFormed(q) && Pointer(q, 0) == buf && Pages(q, buf - buf % PAGE, n)
    ensures count == if len <= Capacity(buf) then len else Capacity(buf)
    ensures count <= n * PAGE - buf % PAGE
    ensures q == qtd.(hwBuf := q.hwBuf, hwBufHi := q.hwBufHi)
  {
    ghost var base := buf - buf % PAGE;
    q := SetPointer(qtd, 0, buf);
    PointerSet(qtd, 0, buf, 0);
    hide Pointer;
    n := 1;
    count := PAGE - buf % PAGE;
    if len < count {
      count := len;
    } else {
      var addr := buf + PAGE;
      addr := addr - addr % PAGE;
      assert addr == base + PAGE;
      while count < len && n < 5
        invariant 1 <= n <= 5 && WellFormed(q)
        invariant addr == base + n * PAGE
        invariant count == if len < n * PAGE - buf % PAGE then len else n * PAGE - buf % PAGE
        invariant Pointer(q, 0) == buf && Pages(q, base, n)
        invariant q == qtd.(hwBuf := q.hwBuf, hwBufHi := q.hwBufHi)
      {
        PagesSet(q, base, n);
        hide Pages;
        q := SetPointer(q, n, addr);
        addr := addr + PAGE;
        count := if count + PAGE < len then count + PAGE else len;
        n := n + 1;
      }
    }
  }

  /** Put up to `len` bytes from `buf` on into a descriptor: all of them, or as many whole packets as
      five pages hold. */
  method QtdFill(qtd: Qtd, buf: nat, len: nat, token: bv32, maxpacket: nat) returns (q: Qtd, count: nat)
    requires WellFormed(qtd) && buf < WORD * WORD && buf + len <= WORD * WORD
    requires 1 <= maxpacket <= 3072 || len == 0
    ensures count == if len <= Capacity(buf) then len else Capacity(buf) - Capacity(buf) % maxpacket
    ensures q.length == count <= 20480 && (0 < len ==> 0 < count) && Covers(q, buf)
    ensures q.hwToken == WithLength(token, count)
    ensures q.dma == qtd.dma && q.hwNext == qtd.hwNext && q.hwAltNext == qtd.hwAltNext
  {
    hide Pointer, WithLength, HwAddress, Pages, Covers;
    var n;
    q, count, n := FillPages(qtd, buf, len);
    // more is to follow: whole packets only
    if count != len {
      count := count - count % maxpacket;
    }
    ghost var filled := q;
    q := q.(hwToken := WithLength(token, count), length := count);
    SamePointers(filled, q, buf - buf % PAGE, n);
    CoversPages(q, buf, n);
  }

  lemma SamePointers(q: Qtd, q': Qtd, base: nat, n: nat)
    requires WellFormed(q) && q'.hwBuf == q.hwBuf && q'.hwBufHi == q.hwBufHi && n <= 5 && Pages(q, base, n)
    ensures Pages(q', base, n) && Pointer(q', 0) == Pointer(q, 0)
  {
    assert forall j: nat :: j < 5 ==> Pointer(q, j) == Pointer(q', j);
    hide Pointer;
  }

  datatype Segment = Segment(addr: nat, len: nat)

  /** What a request asks for.  Without scatter-gather `sgs` is empty and the data is at
      `transferDma`. */
  datatype Urb = Urb(
    control: bool,
    input: bool,
    setupDma: nat,
    transferDma: nat,
    length: nat,
    sgs: seq<Segment>,
    maxpacket: nat,
    shortNotOk: bool,
    zeroPacket: bool,
    noInterrupt: bool)

  function Flat(sgs: seq<Segment>): seq<nat>
  {
    if sgs == [] then [] else Range(sgs[0].addr, sgs[0].len) + Flat(sgs[1..])
  }

  function Take(s: seq<nat>, n: nat): seq<nat>
  {
    if n <= |s| then s[..n] else s
  }

  /** The bytes of a request's data. */
  function Buffer(urb: Urb): seq<nat>
  {
    if urb.length > 0 && urb.sgs != [] then Take(Flat(urb.sgs), urb.length) else Range(urb.transferDma, urb.length)
  }

  /** Buffers are mapped below the end of the address space. */
  predicate Mapped(urb: Urb)
  {
    && urb.setupDma + 8 <= WORD * WORD && urb.transferDma < WORD * WORD && urb.transferDma + urb.length <= WORD * WORD
    && forall s :: s in urb.sgs ==> s.addr < WORD * WORD && s.addr + s.len <= WORD * WORD
  }

  ghost function AllBytes(qtds: seq<Qtd>): seq<nat>
  {
    if qtds == [] then [] else AllBytes(qtds[..|qtds| - 1]) + Bytes(qtds[|qtds| - 1])
  }

  /** Each descriptor's link names the next one. */
  predicate Chained(qtds: seq<Qtd>)
  {
    forall i :: 0 <= i < |qtds| - 1 ==> qtds[i].hwNext == ToQtd(qtds[i + 1].dma)
  }

  /** What is left to queue: the rest of the present segment, and the later ones. */
  function Remaining(buf: nat, here: nat, later: seq<Segment>, len: nat): seq<nat>
    requires here <= len
  {
    Range(buf, here) + Take(Flat(later), len - here)
  }

  lemma RemainingAdvance(buf: nat, here: nat, later: seq<Segment>, len: nat, n: nat)
    requires n <= here <= len
    ensures Remaining(buf, here, later, len) == Range(buf, n) + Remaining(buf + n, here - n, later, len - n)
  {
    assert Range(buf, here) == Range(buf, n) + Range(buf + n, here - n);
  }

  lemma RemainingSegment(buf: nat, later: seq<Segment>, len: nat)
    requires later != []
    ensures var here := if later[0].len < len then later[0].len else len;
      Remaining(buf, 0, later, len) == Remaining(later[0].addr, here, later[1..], len)
  {
    var here := if later[0].len < len then later[0].len else len;
    assert Range(buf, 0) == [];
    if later[0].len <= len {
      assert Take(Flat(later), len) == Range(later[0].addr, here) + Take(Flat(later[1..]), len - here);
    } else {
      assert Take(Flat(later), len) == Range(later[0].addr, len);
      assert Take(Flat(later[1..]), 0) == [];
    }
  }

  lemma RemainingNothing(buf: nat, later: seq<Segment>, len: nat)
    requires later == [] || len == 0
    ensures Remaining(buf, 0, later, len) == []
  {
  }

  lemma CoveredBytes(q: Qtd, buf: nat)
    requires Covers(q, buf)
    ensures Bytes(q) == Range(buf, q.length)
  {
  }

  /** The first 16 bits and the toggle are what a token says apart from its length. */
  function Flags(token: bv32): bv32
  {
    token & 0x8000_FFFF
  }

  /** Tokens that agree in everything but length and toggle. */
  predicate SameFlags(t: bv32, u: bv32)
  {
    t & 0xFFFF == u & 0xFFFF
  }

  lemma SmallCount(count: nat)
    requires count < 0x8000
    ensures (count as bv32) < 0x8000
  {
  }

  lemma LengthBits(token: bv32, c: bv32)
    requires NoLength(token) && c < 0x8000
    ensures TokenLength(Packed(c, token)) == c && Flags(Packed(c, token)) == Flags(token)
  {
  }

  lemma TokenBits(token: bv32, count: nat)
    requires NoLength(token) && count < 0x8000
    ensures TokenLength(WithLength(token, count)) == count as bv32
    ensures Flags(WithLength(token, count)) == Flags(token)
  {
    hide Packed, TokenLength, Flags, NoLength;
    SmallCount(count);
    LengthBits(token, count as bv32);
  }

  /** fotg210_qtd_alloc: the `i`th descriptor of the pool, halted, linked to nothing. */
  function QtdAlloc(pool: nat -> nat, i: nat): Qtd
  {
    Qtd(pool(i), ListEnd, ListEnd, 0x40, [0, 0, 0, 0, 0], [0, 0, 0, 0, 0], 0)
  }

  /** Whether a descriptor ends with the other data toggle. */
  function Toggles(maxpacket: nat, len: nat): bool
    requires 1 <= maxpacket <= 3072 && len <= 20480
  {
    (maxpacket as bv32) & ((len + maxpacket - 1) as bv32) == 0
  }

  predicate Multiple(n: nat, m: nat)
    requires m > 0
  {
    n % m == 0
  }

  /** Every segment is a whole number of packets. */
  predicate WholePackets(urb: Urb)
    requires urb.maxpacket > 0
  {
    forall s :: s in urb.sgs ==> Multiple(s.len, urb.maxpacket)
  }

  /** A data descriptor: its flags are the token's but for the toggle. */
  predicate IsData(q: Qtd, urb: Urb, token: bv32)
  {
    && Fits(q)
    && TokenLength(q.hwToken) == q.length as bv32
    && SameFlags(q.hwToken, token)
  }

  ghost predicate Allocated(qtds: seq<Qtd>, pool: nat -> nat, first: nat)
  {
    forall i :: 0 <= i < |qtds| ==> qtds[i].dma == pool(first + i)
  }

  /** The data descriptors so far, and the link of the last one to the descriptor to come. */
  ghost predicate Underway(data: seq<Qtd>, urb: Urb, token: bv32, pool: nat -> nat, first: nat, dummy: Link)
  {
    && Chained(data) && Allocated(data, pool, first)
    && (data != [] ==> data[|data| - 1].hwNext == ToQtd(pool(first + |data|)))
    && AllData(data, urb, token, dummy)
  }

  ghost predicate AllData(data: seq<Qtd>, urb: Urb, token: bv32, dummy: Link)
  {
    forall q :: q in data ==> IsData(q, urb, token) && q.hwAltNext == (if urb.input then dummy else ListEnd)
  }

  /** Lengths of descriptors that are followed by another one. */
  predicate Whole(data: seq<Qtd>, maxpacket: nat, n: int)
    requires maxpacket > 0 && n <= |data|
  {
    forall i :: 0 <= i < n ==> Multiple(data[i].length, maxpacket)
  }

  predicate Filled(data: seq<Qtd>, n: int)
    requires n <= |data|
  {
    forall i :: 0 <= i < n ==> data[i].length > 0
  }

  /** A data descriptor that will be followed by another one. */
  lemma OneMore(data: seq<Qtd>, q: Qtd, urb: Urb, token: bv32, pool: nat -> nat, first: nat, dummy: Link)
    requires Underway(data, urb, token, pool, first, dummy)
    requires q.dma == pool(first + |data|) && IsData(q, urb, token)
      && q.hwAltNext == (if urb.input then dummy else ListEnd)
    requires q.hwNext == ToQtd(pool(first + |data| + 1))
    ensures Underway(data + [q], urb, token, pool, first, dummy)
  {
    hide IsData;
  }

  /** The last data descriptor. */
  lemma LastOne(data: seq<Qtd>, q: Qtd, urb: Urb, token: bv32, pool: nat -> nat, first: nat, dummy: Link)
    requires Underway(data, urb, token, pool, first, dummy)
    requires q.dma == pool(first + |data|) && IsData(q, urb, token)
      && q.hwAltNext == (if urb.input then dummy else ListEnd)
    ensures Chained(data + [q]) && Allocated(data + [q], pool, first) && AllData(data + [q], urb, token, dummy)
  {
    hide IsData;
  }

  lemma WholeMore(data: seq<Qtd>, q: Qtd, maxpacket: nat)
    requires maxpacket > 0 && Whole(data, maxpacket, |data|)
    ensures Whole(data + [q], maxpacket, |data|)
    ensures Multiple(q.length, maxpacket) ==> Whole(data + [q], maxpacket, |data| + 1)
  {
  }

  lemma FilledMore(data: seq<Qtd>, q: Qtd)
    requires Filled(data, |data|)
    ensures Filled(data + [q], |data|) && (q.length > 0 ==> Filled(data + [q], |data| + 1))
  {
  }

  lemma AllBytesPush(data: seq<Qtd>, q: Qtd)
    ensures AllBytes(data + [q]) == AllBytes(data) + Bytes(q)
  {
    hide Bytes;
    assert (data + [q])[..|data|] == data;
  }

  /** What is left after a descriptor took `n` bytes is again a whole number of packets, or the end. */
  lemma WholeRest(here: nat, len: nat, n: nat, maxpacket: nat)
    requires maxpacket > 0 && n <= here <= len && (Multiple(here, maxpacket) || here == len)
    requires n < here ==> Multiple(n, maxpacket)
    ensures Multiple(here - n, maxpacket) || here - n == len - n
    ensures n == here && here < len ==> Multiple(n, maxpacket)
  {
    if here % maxpacket == 0 && n < here {
      var a, b := here / maxpacket, n / maxpacket;
      assert here - n == (a - b) * maxpacket;
      if a >= b {
        Arith.MulMod(a - b, maxpacket);
      }
    }
  }

  lemma CapacityWhole(cap: nat, maxpacket: nat)
    requires 0 < maxpacket
    ensures (cap - cap % maxpacket) % maxpacket == 0
  {
    assert cap - cap % maxpacket == (cap / maxpacket) * maxpacket;
    Arith.MulMod(cap / maxpacket, maxpacket);
  }

  /** Fill one data descriptor, with its alternate link. */
  method DataQtd(urb: Urb, qtd: Qtd, buf: nat, here: nat, token: bv32, dummy: Link) returns (q: Qtd, n: nat)
    requires 1 <= urb.maxpacket <= 3072 && NoLength(token) && WellFormed(qtd) && qtd.hwAltNext == ListEnd
    requires buf < WORD * WORD && buf + here <= WORD * WORD
    ensures n <= here && (here > 0 ==> n > 0) && (n < here ==> Multiple(n, urb.maxpacket))
    ensures here <= Capacity(buf) ==> n == here
    ensures q.dma == qtd.dma && q.hwNext == qtd.hwNext && q.hwAltNext == (if urb.input then dummy else ListEnd)
    ensures q.length == n <= 20480 && Bytes(q) == Range(buf, n)
    ensures IsData(q, urb, token) && q.hwToken == WithLength(token, n)
  {
    hide WithLength, NoLength, Covers, Range, Capacity, Bytes, IsData, Multiple;
    q, n := QtdFill(qtd, buf, here, token, urb.maxpacket);
    CapacityTaken(buf, here, n, urb.maxpacket);
    FilledIs(urb, q, buf, token, q.hwAltNext);
    if urb.input {
      FilledIs(urb, q, buf, token, dummy);
      q := q.(hwAltNext := dummy);
    }
  }

  /** What a filled descriptor is, whatever its alternate link. */
  lemma FilledIs(urb: Urb, q: Qtd, buf: nat, token: bv32, alt: Link)
    requires NoLength(token) && Covers(q, buf) && q.length <= 20480 && q.hwToken == WithLength(token, q.length)
    ensures var q' := q.(hwAltNext := alt); IsData(q', urb, token) && Bytes(q') == Range(buf, q.length)
  {
    hide HwAddress, WithLength, TokenLength, Flags, NoLength, SameFlags, Range, Bytes;
    CoveredBytes(q, buf);
    TokenBits(token, q.length);
    FlagsLow(q.hwToken, token);
    SameBytes(q, q.(hwAltNext := alt));
  }

  /** A descriptor that does not take everything takes whole packets. */
  lemma CapacityTaken(buf: nat, here: nat, n: nat, maxpacket: nat)
    requires 0 < maxpacket
    requires n == if here <= Capacity(buf) then here else Capacity(buf) - Capacity(buf) % maxpacket
    ensures n <= here && (n < here ==> Multiple(n, maxpacket))
  {
    CapacityWhole(Capacity(buf), maxpacket);
    hide Capacity;
  }

  lemma CoveredWell(q: Qtd, buf: nat)
    requires Covers(q, buf)
    ensures WellFormed(q)
  {
  }

  lemma SameBytes(q: Qtd, q': Qtd)
    requires q'.hwBuf == q.hwBuf && q'.hwBufHi == q.hwBufHi && q'.length == q.length
    ensures Bytes(q') == Bytes(q)
  {
    assert WellFormed(q) ==> forall k: nat :: k < 5 ==> Pointer(q, k) == Pointer(q', k);
    assert Bytes(q') == Bytes(q);
  }

  lemma FlagsLow(t: bv32, token: bv32)
    requires Flags(t) == Flags(token)
    ensures SameFlags(t, token)
  {
  }

  lemma ToggleBits(token: bv32)
    requires NoLength(token)
    ensures NoLength(token ^ TOGGLE) && forall u :: SameFlags(token, u) ==> SameFlags(token ^ TOGGLE, u)
  {
  }

  /** The loop of the data stage: descriptors so far, token, and what is left. */
  datatype Stage = Stage(data: seq<Qtd>, token: bv32, buf: nat, here: nat, later: seq<Segment>, len: nat)

  predicate InBounds(st: Stage, urb: Urb)
  {
    && st.here <= st.len && st.buf < WORD * WORD && st.buf + st.here <= WORD * WORD
    && forall s :: s in st.later ==> s in urb.sgs
  }

  /** Without scatter-gather there is one segment, and a buffer that fits one descriptor is not split. */
  predicate OneSegment(st: Stage, urb: Urb, token0: bv32)
  {
    urb.sgs == [] ==>
      && st.later == [] && st.here == st.len && Filled(st.data, |st.data|)
      && (urb.length <= Capacity(urb.transferDma) ==>
            st.data == [] && st.buf == urb.transferDma && st.here == urb.length && st.token == token0)
  }

  predicate OnlyWhole(st: Stage, urb: Urb)
    requires urb.maxpacket > 0
  {
    WholePackets(urb) ==>
      Whole(st.data, urb.maxpacket, |st.data|) && (Multiple(st.here, urb.maxpacket) || st.here == st.len)
  }

  ghost predicate StageInv(st: Stage, urb: Urb, token0: bv32, pool: nat -> nat, first: nat, dummy: Link)
    requires urb.maxpacket > 0
  {
    && InBounds(st, urb) && OneSegment(st, urb, token0) && OnlyWhole(st, urb)
    && AllBytes(st.data) + Remaining(st.buf, st.here, st.later, st.len) == Buffer(urb)
    && Underway(st.data, urb, token0, pool, first, dummy)
    && NoLength(st.token) && SameFlags(st.token, token0)
  }

  /** What the data stage makes. */
  ghost predicate DataDone(data: seq<Qtd>, urb: Urb, token0: bv32, pool: nat -> nat, first: nat, dummy: Link)
    requires urb.maxpacket > 0
  {
    && data != [] && AllBytes(data) == Buffer(urb)
    && Chained(data) && Allocated(data, pool, first) && data[|data| - 1].hwNext == ListEnd
    && AllData(data, urb, token0, dummy)
    && (WholePackets(urb) ==> Whole(data, urb.maxpacket, |data| - 1))
    && (urb.sgs == [] ==> Filled(data, |data| - 1))
    && (urb.sgs == [] && urb.length <= Capacity(urb.transferDma) ==>
          |data| == 1 && data[0].length == urb.length && data[0].hwToken == WithLength(token0, urb.length))
  }

  /** A descriptor filled with the first bytes of what is left. */
  ghost predicate FilledFrom(st: Stage, q: Qtd, urb: Urb, token0: bv32, pool: nat -> nat, first: nat, dummy: Link)
    requires urb.maxpacket > 0
  {
    && q.length <= st.here && (st.here > 0 ==> q.length > 0)
    && (q.length < st.here ==> Multiple(q.length, urb.maxpacket))
    && (st.here <= Capacity(st.buf) ==> q.length == st.here)
    && q.dma == pool(first + |st.data|) && q.hwAltNext == (if urb.input then dummy else ListEnd)
    && Bytes(q) == Range(st.buf, q.length) && IsData(q, urb, token0) && q.hwToken == WithLength(st.token, q.length)
  }

  /** That was the last descriptor of the data stage. */
  predicate IsLast(st: Stage, n: nat)
  {
    st.here == n && (st.later == [] || st.len == n)
  }

  /** Where the next descriptor starts. */
  function Advance(st: Stage, q: Qtd, token: bv32): Stage
    requires q.length <= st.here <= st.len && !IsLast(st, q.length)
  {
    if st.here == q.length then
      var len := st.len - q.length;
      var here := if st.later[0].len < len then st.later[0].len else len;
      Stage(st.data + [q], token, st.later[0].addr, here, st.later[1..], len)
    else Stage(st.data + [q], token, st.buf + q.length, st.here - q.length, st.later, st.len - q.length)
  }

  lemma AdvanceBytes(st: Stage, q: Qtd, token: bv32)
    requires q.length <= st.here <= st.len && !IsLast(st, q.length) && Bytes(q) == Range(st.buf, q.length)
    ensures var s := Advance(st, q, token);
      s.here <= s.len && AllBytes(s.data) + Remaining(s.buf, s.here, s.later, s.len)
                      == AllBytes(st.data) + Remaining(st.buf, st.here, st.later, st.len)
  {
    hide AllBytes, Bytes, Range, Remaining;
    BytesStep(st.data, q, st.buf, st.here, st.later, st.len, q.length);
    if st.here == q.length {
      RemainingSegment(st.buf + q.length, st.later, st.len - q.length);
    }
  }

  lemma AdvanceBounds(st: Stage, q: Qtd, urb: Urb, token: bv32)
    requires q.length <= st.here <= st.len && !IsLast(st, q.length) && InBounds(st, urb) && Mapped(urb)
    ensures InBounds(Advance(st, q, token), urb)
  {
  }

  lemma AdvanceWhole(st: Stage, q: Qtd, urb: Urb, token: bv32)
    requires urb.maxpacket > 0 && q.length <= st.here <= st.len && !IsLast(st, q.length) && InBounds(st, urb)
      && OnlyWhole(st, urb)
    requires q.length < st.here ==> Multiple(q.length, urb.maxpacket)
    ensures OnlyWhole(Advance(st, q, token), urb)
  {
    if WholePackets(urb) {
      WholeRest(st.here, st.len, q.length, urb.maxpacket);
      WholeMore(st.data, q, urb.maxpacket);
    }
    hide Multiple, Whole;
  }

  lemma AdvanceOne(st: Stage, q: Qtd, urb: Urb, token0: bv32, token: bv32)
    requires q.length <= st.here <= st.len && !IsLast(st, q.length) && OneSegment(st, urb, token0)
    requires (st.here > 0 ==> q.length > 0) && (st.here <= Capacity(st.buf) ==> q.length == st.here)
    ensures OneSegment(Advance(st, q, token), urb, token0)
  {
    if urb.sgs == [] {
      FilledMore(st.data, q);
    }
    hide Filled, Capacity;
  }

  lemma AdvanceInv(st: Stage, q: Qtd, urb: Urb, token0: bv32, token: bv32, pool: nat -> nat, first: nat, dummy: Link)
    requires Mapped(urb) && urb.maxpacket > 0 && StageInv(st, urb, token0, pool, first, dummy)
    requires FilledFrom(st, q, urb, token0, pool, first, dummy) && !IsLast(st, q.length)
    requires q.hwNext == ToQtd(pool(first + |st.data| + 1)) && NoLength(token) && SameFlags(token, token0)
    ensures StageInv(Advance(st, q, token), urb, token0, pool, first, dummy)
  {
    hide AllBytes, Bytes, Range, Remaining, Buffer, IsData, WithLength, Multiple, Capacity, Underway, OneSegment,
      OnlyWhole, SameFlags, NoLength, Mapped;
    AdvanceBytes(st, q, token);
    AdvanceBounds(st, q, urb, token);
    AdvanceWhole(st, q, urb, token);
    AdvanceOne(st, q, urb, token0, token);
    OneMore(st.data, q, urb, token0, pool, first, dummy);
  }

  lemma AdvanceDone(st: Stage, q: Qtd, urb: Urb, token0: bv32, pool: nat -> nat, first: nat, dummy: Link)
    requires urb.maxpacket > 0 && StageInv(st, urb, token0, pool, first, dummy)
    requires FilledFrom(st, q, urb, token0, pool, first, dummy) && IsLast(st, q.length) && q.hwNext == ListEnd
    ensures DataDone(st.data + [q], urb, token0, pool, first, dummy)
  {
    hide AllBytes, Bytes, Range, Remaining, Buffer, IsData, WithLength, Multiple, Capacity, Underway, Whole, Filled,
      Chained, Allocated, AllData, WholePackets;
    BytesStep(st.data, q, st.buf, st.here, st.later, st.len, q.length);
    RemainingNothing(st.buf + q.length, st.later, st.len - q.length);
    LastOne(st.data, q, urb, token0, pool, first, dummy);
    if WholePackets(urb) { WholeMore(st.data, q, urb.maxpacket); }
    if urb.sgs == [] { FilledMore(st.data, q); }
  }

  /** Fill the next descriptor of the data stage. */
  method FillNext(urb: Urb, token0: bv32, pool: nat -> nat, first: nat, dummy: Link, st: Stage) returns (q: Qtd)
    requires Mapped(urb) && 1 <= urb.maxpacket <= 3072 && StageInv(st, urb, token0, pool, first, dummy)
    ensures FilledFrom(st, q, urb, token0, pool, first, dummy) && q.hwNext == ListEnd && q.length <= 20480
  {
    hide NoLength, SameFlags, IsData, Bytes, Range, WithLength, Multiple, Capacity, Underway, OneSegment, OnlyWhole,
      AllBytes, Remaining, Buffer;
    var qtd := QtdAlloc(pool, first + |st.data|);
    var n;
    q, n := DataQtd(urb, qtd, st.buf, st.here, st.token, dummy);
    DataOf(q, urb, st.token, token0);
  }

  /** One pass: fill a descriptor, and go on to the next segment when this one is used up. */
  method DataStep(urb: Urb, token0: bv32, pool: nat -> nat, first: nat, dummy: Link, st: Stage)
      returns (st': Stage, last: bool)
    requires Mapped(urb) && 1 <= urb.maxpacket <= 3072 && StageInv(st, urb, token0, pool, first, dummy)
    ensures NoLength(st'.token) && SameFlags(st'.token, token0)
    ensures last ==> DataDone(st'.data, urb, token0, pool, first, dummy)
    ensures !last ==> StageInv(st', urb, token0, pool, first, dummy)
    ensures !last ==> |st'.later| < |st.later| || (st'.later == st.later && st'.here < st.here)
  {
    hide NoLength, SameFlags, IsData, Bytes, Range, WithLength, Multiple, Capacity, Underway, OneSegment, OnlyWhole,
      AllBytes, Remaining, Buffer, DataDone, Toggles, Mapped;
    var q := FillNext(urb, token0, pool, first, dummy, st);
    var token := st.token;
    if Toggles(urb.maxpacket, q.length) {
      ToggleBits(token);
      token := token ^ TOGGLE;
    }
    last := IsLast(st, q.length);
    if last {
      AdvanceDone(st, q, urb, token0, pool, first, dummy);
      st' := Stage(st.data + [q], token, st.buf, st.here, st.later, st.len);
    } else {
      ghost var q0 := q;
      q := q.(hwNext := ToQtd(pool(first + |st.data| + 1)));
      LinkedFrom(st, q0, q, urb, token0, pool, first, dummy);
      AdvanceInv(st, q, urb, token0, token, pool, first, dummy);
      assert st.here <= st.len;
      hide StageInv;
      st' := Advance(st, q, token);
    }
  }

  lemma LinkedFrom(st: Stage, q: Qtd, q': Qtd, urb: Urb, token0: bv32, pool: nat -> nat, first: nat, dummy: Link)
    requires urb.maxpacket > 0 && FilledFrom(st, q, urb, token0, pool, first, dummy) && q' == q.(hwNext := q'.hwNext)
    ensures FilledFrom(st, q', urb, token0, pool, first, dummy)
  {
    hide Bytes, IsData, WithLength, Multiple, Capacity;
    SameBytes(q, q');
    SameData(q, q', urb, token0);
  }

  /** The data stage: as many descriptors as the buffer takes, at least one.  `token` is left with the
      toggle the next stage starts from. */
  method DataStage(urb: Urb, token0: bv32, pool: nat -> nat, first: nat, dummy: Link)
      returns (data: seq<Qtd>, token: bv32)
    requires Mapped(urb) && 1 <= urb.maxpacket <= 3072 && NoLength(token0)
    ensures DataDone(data, urb, token0, pool, first, dummy)
    ensures NoLength(token) && SameFlags(token, token0)
  {
    hide StageInv, SameFlags, NoLength, DataDone;
    var st := FirstStage(urb, token0);
    FirstInv(urb, token0, pool, first, dummy);
    var last := false;
    while !last
      invariant !last ==> StageInv(st, urb, token0, pool, first, dummy)
      invariant last ==> DataDone(st.data, urb, token0, pool, first, dummy)
      invariant NoLength(st.token) && SameFlags(st.token, token0)
      decreases !last, |st.later|, st.here
    {
      st, last := DataStep(urb, token0, pool, first, dummy, st);
    }
    data, token := st.data, st.token;
  }

  /** Before the first descriptor: the first segment, or the whole buffer. */
  function FirstStage(urb: Urb, token0: bv32): Stage
  {
    if urb.length > 0 && urb.sgs != [] then
      var here := if urb.sgs[0].len < urb.length then urb.sgs[0].len else urb.length;
      Stage([], token0, urb.sgs[0].addr, here, urb.sgs[1..], urb.length)
    else Stage([], token0, urb.transferDma, urb.length, [], urb.length)
  }

  lemma FirstInv(urb: Urb, token0: bv32, pool: nat -> nat, first: nat, dummy: Link)
    requires Mapped(urb) && urb.maxpacket > 0 && NoLength(token0)
    ensures StageInv(FirstStage(urb, token0), urb, token0, pool, first, dummy) && SameFlags(token0, token0)
  {
    BufferStart(urb);
    Beginning(urb, token0, pool, first, dummy);
    hide Remaining, Buffer, Underway, SameFlags, NoLength, AllBytes, Multiple;
    if urb.length > 0 && urb.sgs != [] {
      assert urb.sgs[0] in urb.sgs;
    }
  }

  lemma BufferStart(urb: Urb)
    ensures Buffer(urb) == if urb.length > 0 && urb.sgs != []
      then
        var here := if urb.sgs[0].len < urb.length then urb.sgs[0].len else urb.length;
        Remaining(urb.sgs[0].addr, here, urb.sgs[1..], urb.length)
      else Remaining(urb.transferDma, urb.length, [], urb.length)
  {
    if urb.length > 0 && urb.sgs != [] {
      RemainingSegment(0, urb.sgs, urb.length);
      assert Range(0, 0) == [];
    } else {
      assert Take(Flat([]), 0) == [];
    }
  }

  lemma BytesStep(data: seq<Qtd>, q: Qtd, buf: nat, here: nat, later: seq<Segment>, len: nat, n: nat)
    requires n <= here <= len && Bytes(q) == Range(buf, n)
    ensures AllBytes(data + [q]) + Remaining(buf + n, here - n, later, len - n) ==
      AllBytes(data) + Remaining(buf, here, later, len)
  {
    hide AllBytes, Bytes, Remaining, Range;
    AllBytesPush(data, q);
    RemainingAdvance(buf, here, later, len, n);
    assert forall a: seq<nat>, b: seq<nat>, c: seq<nat> :: (a + b) + c == a + (b + c);
  }

  lemma DataOf(q: Qtd, urb: Urb, token: bv32, token0: bv32)
    requires IsData(q, urb, token) && SameFlags(token, token0)
    ensures IsData(q, urb, token0)
  {
    hide TokenLength;
  }

  lemma Beginning(urb: Urb, token: bv32, pool: nat -> nat, first: nat, dummy: Link)
    requires urb.maxpacket > 0
    ensures Underway([], urb, token, pool, first, dummy) && Whole([], urb.maxpacket, 0) && Filled([], 0)
    ensures AllBytes([]) == [] && SameFlags(token, token)
  {
  }

  lemma SameData(q: Qtd, q': Qtd, urb: Urb, token: bv32)
    requires IsData(q, urb, token) && q' == q.(hwNext := q'.hwNext)
    ensures IsData(q', urb, token)
  {
    hide TokenLength, SameFlags;
  }

  /** QTD_STS_ACTIVE, with the number of retries. */
  const ACTIVE_TOKEN: bv32 := 0x0C80

  /** The token of the data stage, and of the status stage of a request without data. */
  function DataToken(urb: Urb): bv32
  {
    ACTIVE_TOKEN | (if urb.control then TOGGLE else 0)
    | (if urb.input || (urb.control && urb.length == 0) then 0x100 else 0)
  }

  /** A request needs a descriptor after its data: the status stage of a control request, or the empty
      packet that ends an OUT transfer of whole packets. */
  predicate NeedsTail(urb: Urb)
    requires urb.maxpacket > 0
  {
    urb.length != 0 && (urb.control || (!urb.input && urb.zeroPacket && urb.length % urb.maxpacket == 0))
  }

  /** Pid, and whether the controller interrupts when done.  Every token is active, with no other status
      bit, three errors to go, and the first page. */
  predicate Says(t: bv32, pid: bv32, interrupt: bool)
  {
    Pid(t) == pid && (t & IOC != 0 <==> interrupt) && t & 0x7CFF == 0x0C80
  }

  predicate Toggled(t: bv32)
  {
    t & TOGGLE != 0
  }

  function DataPid(urb: Urb): bv32
  {
    if urb.input || (urb.control && urb.length == 0) then PID_IN else PID_OUT
  }

  lemma SaysFlags(t: bv32, u: bv32)
    requires SameFlags(t, u)
    ensures Pid(t) == Pid(u) && t & IOC == u & IOC && t & 0x7CFF == u & 0x7CFF
  {
  }

  lemma DataTokenBits(urb: Urb)
    ensures var t := DataToken(urb); NoLength(t) && Says(t, DataPid(urb), false) && (Toggled(t) <==> urb.control)
  {
  }

  lemma SetupTokenBits()
    ensures var t := ACTIVE_TOKEN | 0x200; NoLength(t) && Says(t, PID_SETUP, false) && !Toggled(t)
  {
  }

  /** The token of the descriptor after the data. */
  function TailToken(urb: Urb, token: bv32): bv32
  {
    if urb.control then (token ^ 0x100) | TOGGLE else token
  }

  lemma TailTokenBits(urb: Urb, token: bv32)
    requires NoLength(token) && SameFlags(token, DataToken(urb)) && urb.length != 0
    ensures var t := TailToken(urb, token);
      && NoLength(t) && (urb.control ==> Toggled(t))
      && Says(t, if urb.control then (if urb.input then PID_OUT else PID_IN) else DataPid(urb), false)
  {
  }

  /** Filling in the length changes neither; asking for an interrupt changes only that. */
  lemma LengthKeeps(t: bv32, u: bv32, pid: bv32)
    requires Flags(t) == Flags(u) && Says(u, pid, false)
    ensures Says(t, pid, false) && Toggled(t) == Toggled(u)
  {
  }

  function Interrupting(t: bv32): bv32
  {
    t | IOC
  }

  lemma IocBits(t: bv32, pid: bv32)
    requires Says(t, pid, false)
    ensures var t' := Interrupting(t);
      Says(t', pid, true) && Toggled(t') == Toggled(t) && TokenLength(t') == TokenLength(t)
  {
  }

  /** A descriptor of the finished list: what it says, and a length that can be read back. */
  predicate Ready(q: Qtd, pid: bv32, interrupt: bool)
  {
    Fits(q) && TokenLength(q.hwToken) == q.length as bv32 && Says(q.hwToken, pid, interrupt)
  }

  lemma DataReady(q: Qtd, urb: Urb)
    requires IsData(q, urb, DataToken(urb))
    ensures Ready(q, DataPid(urb), false)
  {
    DataTokenBits(urb);
    SaysFlags(q.hwToken, DataToken(urb));
    hide Pid, SameFlags, DataToken, TokenLength;
  }

  /** A descriptor that carries no data of the request: SETUP, status, or an empty packet. */
  method PlainQtd(qtd: Qtd, buf: nat, len: nat, token: bv32, pid: bv32) returns (q: Qtd)
    requires WellFormed(qtd) && len <= 8 && buf + len <= WORD * WORD && buf < WORD * WORD
    requires NoLength(token) && Says(token, pid, false)
    ensures Ready(q, pid, false) && Toggled(q.hwToken) == Toggled(token)
    ensures q.length == len && Bytes(q) == Range(buf, len)
    ensures q.dma == qtd.dma && q.hwNext == qtd.hwNext && q.hwAltNext == qtd.hwAltNext
  {
    hide HwAddress, Pointer, WithLength, TokenLength, Flags, NoLength, Covers, Range, Says, Toggled, Bytes;
    var n;
    q, n := QtdFill(qtd, buf, len, token, 8);
    CoveredBytes(q, buf);
    CoveredWell(q, buf);
    TokenBits(token, n);
    LengthKeeps(q.hwToken, token, pid);
  }

  /** The last descriptor interrupts, unless the request does not want it. */
  method WithInterrupt(q: Qtd, urb: Urb, pid: bv32) returns (q': Qtd)
    requires Ready(q, pid, false)
    ensures Ready(q', pid, !urb.noInterrupt) && Toggled(q'.hwToken) == Toggled(q.hwToken)
    ensures q' == q.(hwToken := q'.hwToken)
  {
    hide Says, TokenLength, Toggled, Interrupting;
    IocBits(q.hwToken, pid);
    q' := q;
    if !urb.noInterrupt {
      q' := q'.(hwToken := Interrupting(q'.hwToken));
    }
  }

  /** The finished list of a request: SETUP for a control request, the data descriptors, and the one
      that ends it if there is one. */
  ghost predicate Transaction(head: seq<Qtd>, urb: Urb, pool: nat -> nat, dummy: Link)
    requires urb.maxpacket > 0
  {
    var s, t := SetupCount(urb), TailCount(urb);
    && s + 1 + t <= |head|
    && Chained(head) && Allocated(head, pool, 0) && head[|head| - 1].hwNext == ListEnd
    && (urb.control ==> SetupStage(head[0], urb))
    && DataPart(head[s..|head| - t], urb, t == 0, dummy)
    && (t == 1 ==> TailStage(head[|head| - 1], urb))
  }

  function SetupCount(urb: Urb): nat
  {
    if urb.control then 1 else 0
  }

  function TailCount(urb: Urb): nat
    requires urb.maxpacket > 0
  {
    if NeedsTail(urb) then 1 else 0
  }

  /** SETUP: the eight bytes of the request, DATA0. */
  ghost predicate SetupStage(q: Qtd, urb: Urb)
  {
    Ready(q, PID_SETUP, false) && !Toggled(q.hwToken) && q.length == 8 && Bytes(q) == Range(urb.setupDma, 8)
  }

  /** Nothing but its token: status in the direction opposite to the data, DATA1, or an empty packet. */
  ghost predicate TailStage(q: Qtd, urb: Urb)
  {
    && Ready(q, if urb.control then (if urb.input then PID_OUT else PID_IN) else DataPid(urb), !urb.noInterrupt)
    && (urb.control ==> Toggled(q.hwToken)) && q.length == 0 && q.hwAltNext == ListEnd
  }

  /** The data descriptors carry exactly the buffer, in order; only the last may be short of whole
      packets, and it alone may let the queue go on after a short read. */
  ghost predicate DataPart(d: seq<Qtd>, urb: Urb, ends: bool, dummy: Link)
    requires urb.maxpacket > 0
  {
    && d != [] && AllBytes(d) == Buffer(urb)
    && (forall i :: 0 <= i < |d| - 1 ==>
      Ready(d[i], DataPid(urb), false) && d[i].hwAltNext == (if urb.input then dummy else ListEnd))
    && Ready(d[|d| - 1], DataPid(urb), ends && !urb.noInterrupt)
    && d[|d| - 1].hwAltNext == (if urb.input && urb.shortNotOk && !urb.control then dummy else ListEnd)
    && (WholePackets(urb) ==> Whole(d, urb.maxpacket, |d| - 1))
    && (urb.sgs == [] ==> Filled(d, |d| - 1))
    && (urb.control && urb.sgs == [] && urb.length <= 16384 ==>
      |d| == 1 && d[0].length == urb.length && Toggled(d[0].hwToken))
  }

  lemma ToggleBit()
    ensures forall t :: Toggled(t) <==> t & 0x8000_0000 != 0
  {
  }

  /** The shape of a control request of at most 16 KiB without scatter-gather, whatever the alignment of
      its buffer. */
  lemma ControlShape(head: seq<Qtd>, urb: Urb, pool: nat -> nat, dummy: Link)
    requires urb.maxpacket > 0 && urb.control && urb.sgs == [] && urb.length <= 16384
      && Transaction(head, urb, pool, dummy)
    ensures |head| == if urb.length == 0 then 2 else 3
    ensures Ready(head[0], PID_SETUP, false) && !Toggled(head[0].hwToken) && head[0].length == 8
    ensures urb.length == 0 ==>
      Ready(head[1], PID_IN, !urb.noInterrupt) && Toggled(head[1].hwToken) && head[1].length == 0
    ensures urb.length > 0 ==>
      && Ready(head[1], if urb.input then PID_IN else PID_OUT, false) && Toggled(head[1].hwToken)
      && head[1].length == urb.length && Bytes(head[1]) == Range(urb.transferDma, urb.length)
      && Ready(head[2], if urb.input then PID_OUT else PID_IN, !urb.noInterrupt) && Toggled(head[2].hwToken)
      && head[2].length == 0
    ensures head[0].hwToken & 0x8000_0000 == 0 && head[1].hwToken & 0x8000_0000 != 0
    ensures urb.length > 0 ==> head[2].hwToken & 0x8000_0000 != 0
  {
    ToggleBit();
    hide Ready, Toggled, Bytes, Range, Chained, Allocated, WholePackets, Whole, Filled;
    var d := head[1..|head| - TailCount(urb)];
    assert d[0] == head[1] && d == [head[1]];
    assert AllBytes(d) == AllBytes([]) + Bytes(head[1]) by { AllBytesPush([], head[1]); assert [] + [head[1]] == d; }
  }

  /** What a token of a finished descriptor reads like, field by field: active and no other status bit, pid,
      three errors to go, page 0, the interrupt bit, and the length. */
  predicate Reads(t: bv32, pid: bv32, interrupt: bool, length: nat)
    requires length < 0x8000
  {
    && t & 0xFF == 0x80 && (t >> 8) & 3 == pid && (t >> 10) & 3 == 3 && (t >> 12) & 7 == 0
    && (t & 0x8000 != 0 <==> interrupt) && (t >> 16) & 0x7FFF == length as bv32
  }

  lemma ReadyReads(q: Qtd, pid: bv32, interrupt: bool)
    requires Ready(q, pid, interrupt)
    ensures q.length < 0x8000 && Reads(q.hwToken, pid, interrupt, q.length)
  {
    SaysReads(q.hwToken, pid, interrupt);
    hide Says;
  }

  lemma SaysReads(t: bv32, pid: bv32, interrupt: bool)
    requires Says(t, pid, interrupt)
    ensures t & 0xFF == 0x80 && (t >> 8) & 3 == pid && (t >> 10) & 3 == 3 && (t >> 12) & 7 == 0
    ensures t & 0x8000 != 0 <==> interrupt
  {
  }

  /** Pid 2 for SETUP, pid 1 for IN and 0 for OUT data, and the opposite of the data for the status stage of
      a control request; only the last descriptor interrupts. */
  lemma TokensRead(head: seq<Qtd>, urb: Urb, pool: nat -> nat, dummy: Link, i: nat)
    requires urb.maxpacket > 0 && Transaction(head, urb, pool, dummy) && i < |head|
    ensures head[i].length < 0x8000
    ensures Reads(head[i].hwToken,
              if i == 0 && urb.control then 2
              else if i < |head| - TailCount(urb) then (if urb.input || (urb.control && urb.length == 0) then 1 else 0)
              else if urb.control then (if urb.input then 0 else 1)
              else 0,
              i == |head| - 1 && !urb.noInterrupt, head[i].length)
  {
    hide Ready, Reads, Toggled, Bytes, AllBytes, Buffer, Chained, Allocated, Whole, Filled, Range;
    var s, t := SetupCount(urb), TailCount(urb);
    var d := head[s..|head| - t];
    if i < s {
      ReadyReads(head[0], PID_SETUP, false);
    } else if i < |head| - t {
      assert d[i - s] == head[i];
      ReadyReads(head[i], DataPid(urb), i - s == |d| - 1 && t == 0 && !urb.noInterrupt);
    } else {
      var pid := if urb.control then (if urb.input then PID_OUT else PID_IN) else DataPid(urb);
      ReadyReads(head[i], pid, !urb.noInterrupt);
    }
  }

  /** Besides the data there are SETUP for a control request; and one descriptor behind the data exactly for
      a control request with data, its status stage, and for an OUT transfer of whole packets that asks for
      an empty packet to end it. */
  lemma Counts(head: seq<Qtd>, urb: Urb, pool: nat -> nat, dummy: Link)
    returns (setup: seq<Qtd>, data: seq<Qtd>, tail: seq<Qtd>)
    requires urb.maxpacket > 0 && Transaction(head, urb, pool, dummy)
    ensures head == setup + data + tail && data != [] && AllBytes(data) == Buffer(urb)
    ensures |setup| == if urb.control then 1 else 0
    ensures |tail| ==
      if urb.control then (if urb.length > 0 then 1 else 0)
      else if !urb.input && urb.zeroPacket && urb.length > 0 && urb.length % urb.maxpacket == 0 then 1
      else 0
  {
    hide Ready, Bytes, AllBytes, Buffer, Chained, Allocated, Whole, Filled, SetupStage, TailStage;
    var s, t := SetupCount(urb), TailCount(urb);
    setup, data, tail := head[..s], head[s..|head| - t], head[|head| - t..];
  }

  /** The data descriptors with the last one finished. */
  function Finished(data: seq<Qtd>, last: Qtd): seq<Qtd>
    requires data != []
  {
    data[..|data| - 1] + [last]
  }

  lemma FinishedData(data: seq<Qtd>, last: Qtd, urb: Urb, pool: nat -> nat, first: nat, ends: bool, dummy: Link)
    requires urb.maxpacket > 0 && DataDone(data, urb, DataToken(urb), pool, first, dummy)
    requires var q := data[|data| - 1];
      last.hwBuf == q.hwBuf && last.hwBufHi == q.hwBufHi && last.length == q.length && last.dma == q.dma
      && (urb.control ==> Toggled(q.hwToken) == Toggled(last.hwToken))
    requires Ready(last, DataPid(urb), ends && !urb.noInterrupt)
    requires last.hwAltNext == (if urb.input && urb.shortNotOk && !urb.control then dummy else ListEnd)
    ensures var d := Finished(data, last);
      DataPart(d, urb, ends, dummy) && Chained(d) && Allocated(d, pool, first)
  {
    hide Ready, Toggled, Bytes, Buffer, IsData, WithLength, WholePackets, DataToken, DataPid, AllBytes, Whole, Filled,
      Multiple;
    var d, n := Finished(data, last), |data| - 1;
    AllBytesPush(data[..n], last);
    AllBytesPush(data[..n], data[n]);
    SameBytes(data[n], last);
    assert data == data[..n] + [data[n]];
    FinishedReady(data, last, urb, DataToken(urb), dummy);
    FinishedWhole(data, last, urb);
    FinishedChain(data, last, pool, first);
    hide Chained, Allocated, AllData;
    if urb.control && urb.sgs == [] && urb.length <= 16384 {
      ToggledData(urb, data[0]);
    }
  }

  lemma FinishedReady(data: seq<Qtd>, last: Qtd, urb: Urb, token: bv32, dummy: Link)
    requires data != [] && token == DataToken(urb) && AllData(data, urb, token, dummy)
    ensures var d := Finished(data, last);
      forall i :: 0 <= i < |d| - 1 ==>
        Ready(d[i], DataPid(urb), false) && d[i].hwAltNext == (if urb.input then dummy else ListEnd)
  {
    hide Ready, IsData, DataToken, DataPid;
    var d := Finished(data, last);
    forall i | 0 <= i < |d| - 1
      ensures Ready(d[i], DataPid(urb), false) && d[i].hwAltNext == (if urb.input then dummy else ListEnd)
    {
      assert d[i] in data;
      DataReady(d[i], urb);
    }
  }

  lemma FinishedWhole(data: seq<Qtd>, last: Qtd, urb: Urb)
    requires data != [] && urb.maxpacket > 0
    ensures Whole(data, urb.maxpacket, |data| - 1) ==> Whole(Finished(data, last), urb.maxpacket, |data| - 1)
    ensures Filled(data, |data| - 1) ==> Filled(Finished(data, last), |data| - 1)
  {
    hide Multiple;
  }

  lemma FinishedChain(data: seq<Qtd>, last: Qtd, pool: nat -> nat, first: nat)
    requires data != [] && last.dma == data[|data| - 1].dma && Chained(data) && Allocated(data, pool, first)
    ensures Chained(Finished(data, last)) && Allocated(Finished(data, last), pool, first)
  {
  }

  lemma ToggledData(urb: Urb, q: Qtd)
    requires urb.control && urb.length <= 16384
    ensures urb.length <= Capacity(urb.transferDma)
    ensures q.hwToken == WithLength(DataToken(urb), urb.length) ==> Toggled(q.hwToken)
  {
    if q.hwToken == WithLength(DataToken(urb), urb.length) {
      DataTokenBits(urb);
      TokenBits(DataToken(urb), urb.length);
      LengthKeeps(q.hwToken, DataToken(urb), DataPid(urb));
      hide *;
    }
  }

  /** The three parts, linked, are the request's transaction. */
  lemma Joined(setup: seq<Qtd>, d: seq<Qtd>, tail: seq<Qtd>, urb: Urb, pool: nat -> nat, dummy: Link)
    requires urb.maxpacket > 0 && |setup| == SetupCount(urb) && |tail| == TailCount(urb)
    requires DataPart(d, urb, tail == [], dummy) && Chained(d) && Allocated(d, pool, |setup|)
    requires setup != [] ==> SetupStage(setup[0], urb) && setup[0].dma == pool(0) && setup[0].hwNext == ToQtd(pool(1))
    requires tail != [] ==> TailStage(tail[0], urb) && tail[0].dma == pool(|setup| + |d|) && tail[0].hwNext == ListEnd
    requires d[|d| - 1].hwNext == if tail == [] then ListEnd else ToQtd(pool(|setup| + |d|))
    ensures Transaction(setup + d + tail, urb, pool, dummy)
  {
    hide Ready, Toggled, Bytes, Buffer, WholePackets, AllBytes, Whole, Filled, SetupStage, TailStage;
    assert d != [] by { PartSome(d, urb, tail == [], dummy); }
    hide DataPart;
    var head := setup + d + tail;
    var s, t := SetupCount(urb), TailCount(urb);
    assert head[s..|head| - t] == d;
    ChainedJoin(setup, d, pool);
    ChainedJoin(setup + d, tail, pool);
  }

  lemma PartSome(d: seq<Qtd>, urb: Urb, ends: bool, dummy: Link)
    requires urb.maxpacket > 0 && DataPart(d, urb, ends, dummy)
    ensures d != []
  {
  }

  lemma ChainedJoin(a: seq<Qtd>, b: seq<Qtd>, pool: nat -> nat)
    requires Chained(a) && Allocated(a, pool, 0) && Chained(b) && Allocated(b, pool, |a|)
    requires a != [] && b != [] ==> a[|a| - 1].hwNext == ToQtd(pool(|a|))
    ensures Chained(a + b) && Allocated(a + b, pool, 0)
  {
    var c := a + b;
    forall i | 0 <= i < |c| - 1
      ensures c[i].hwNext == ToQtd(c[i + 1].dma)
    {
      assert i == |a| - 1 || i < |a| - 1 || c[i] == b[i - |a|];
    }
  }

  /** SETUP, and the token of the data stage. */
  method SetupPart(urb: Urb, pool: nat -> nat) returns (token: bv32, setup: seq<Qtd>)
    requires Mapped(urb)
    ensures token == DataToken(urb) && NoLength(token) && |setup| == SetupCount(urb)
    ensures setup != [] ==> SetupStage(setup[0], urb) && setup[0].dma == pool(0) && setup[0].hwNext == ToQtd(pool(1))
  {
    DataTokenBits(urb);
    SetupTokenBits();
    token := ACTIVE_TOKEN;
    setup := [];
    if urb.control {
      var qtd := PlainQtd(QtdAlloc(pool, 0), urb.setupDma, 8, token | 0x200, PID_SETUP);
      token := token ^ TOGGLE;
      ghost var q0 := qtd;
      qtd := qtd.(hwNext := ToQtd(pool(1)));
      SameBytes(q0, qtd);
      setup := [qtd];
      // no data stage
      if urb.length == 0 {
        token := token | 0x100;
      }
    }
    if urb.input {
      token := token | 0x100;
    }
  }

  /** The descriptor after the data. */
  method TailQtd(urb: Urb, token: bv32, pool: nat -> nat, n: nat) returns (tail: Qtd)
    requires NoLength(token) && SameFlags(token, DataToken(urb)) && urb.length != 0 && urb.maxpacket > 0
    ensures TailStage(tail, urb) && tail.dma == pool(n) && tail.hwNext == ListEnd
  {
    TailTokenBits(urb, token);
    hide SameFlags, DataToken, NoLength, Says, Toggled, TokenLength;
    var pid := if urb.control then (if urb.input then PID_OUT else PID_IN) else DataPid(urb);
    var t := if urb.control then (token ^ 0x100) | TOGGLE else token;
    assert t == TailToken(urb, token);
    hide TailToken;
    tail := PlainQtd(QtdAlloc(pool, n), 0, 0, t, pid);
    tail := WithInterrupt(tail, urb, pid);
  }

  /** The descriptors of a request. */
  method QhUrbTransaction(urb: Urb, pool: nat -> nat, dummy: Link) returns (head: seq<Qtd>)
    requires Mapped(urb) && 1 <= urb.maxpacket <= 3072
    ensures Transaction(head, urb, pool, dummy)
  {
    hide Ready, Says, Toggled, IsData, DataToken, DataPart, SetupStage, TailStage, AllBytes, Buffer, NoLength,
      SameFlags, Bytes;
    var token, setup := SetupPart(urb, pool);
    var data;
    data, token := DataStage(urb, token, pool, |setup|, dummy);
    var n := |setup| + |data|;
    var last := data[|data| - 1];
    assert last in data;
    DataReady(last, urb);
    // a short read may go on behind this one
    if !urb.shortNotOk || urb.control {
      last := last.(hwAltNext := ListEnd);
    }
    SameReady(data[|data| - 1], last, DataPid(urb), false);
    var oneMore := urb.length != 0
      && (urb.control || (!urb.input && urb.zeroPacket && urb.length % urb.maxpacket == 0));
    var tail: seq<Qtd> := [];
    if oneMore {
      last := last.(hwNext := ToQtd(pool(n)));
      SameReady(data[|data| - 1], last, DataPid(urb), false);
      var qtd := TailQtd(urb, token, pool, n);
      tail := [qtd];
    } else {
      last := WithInterrupt(last, urb, DataPid(urb));
    }
    FinishedData(data, last, urb, pool, |setup|, tail == [], dummy);
    hide DataDone, Chained, Allocated;
    Joined(setup, Finished(data, last), tail, urb, pool, dummy);
    head := setup + Finished(data, last) + tail;
  }

  lemma SameReady(q: Qtd, q': Qtd, pid: bv32, interrupt: bool)
    requires Ready(q, pid, interrupt) && q'.hwBuf == q.hwBuf && q'.hwBufHi == q.hwBufHi && q'.length == q.length
      && q'.hwToken == q.hwToken
    ensures Ready(q', pid, interrupt)
  {
    hide TokenLength, Says;
  }
}
