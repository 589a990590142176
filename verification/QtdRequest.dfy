/** From building to queueing to completion: a request's descriptors, as they are built, are what the queue
    takes and what completions account for. */
module QtdRequest {
  import B = QtdBuild
  import E = QtdEnqueue
  import C = QtdCompletion
  import Safety = CompletionSafety

  /** The addresses of a list of descriptors. */
  function Addresses(head: seq<B.Qtd>): (a: seq<nat>)
    ensures |a| == |head|
  {
    seq(|head|, i requires 0 <= i < |head| => head[i].dma)
  }

  /** Memory holds the descriptors as they were built. */
  predicate InMemory(m: E.Memory, head: seq<B.Qtd>)
  {
    forall i :: 0 <= i < |head| ==>
      head[i].dma in m && m[head[i].dma].hwNext == head[i].hwNext && m[head[i].dma].token == head[i].hwToken
  }

  function PidOf(token: bv32): C.Pid
  {
    if B.Pid(token) == B.PID_SETUP then C.Setup else if B.Pid(token) == B.PID_IN then C.In else C.Out
  }

  /** A descriptor at address `id`, as completions see it. */
  function TdOf(q: B.Qtd, id: nat, u: C.Urb): C.Td
  {
    C.Td(id, u, q.length, PidOf(q.hwToken), q.hwAltNext == B.ListEnd)
  }

  /** The queued descriptors of request `u`: the first one has moved to the address of the old dummy. */
  function Tds(head: seq<B.Qtd>, u: C.Urb, dummy: nat): (tds: seq<C.Td>)
    ensures |tds| == |head|
  {
    seq(|head|, i requires 0 <= i < |head| => TdOf(head[i], if i == 0 then dummy else head[i].dma, u))
  }

  /** The bytes the descriptors account for, all but SETUP. */
  function Carried(head: seq<B.Qtd>): nat
  {
    if head == [] then 0
    else Carried(head[..|head| - 1]) + if PidOf(head[|head| - 1].hwToken) == C.Setup then 0 else head[|head| - 1].length
  }

  lemma {:induction false} BytesLast(tds: seq<C.Td>, u: C.Urb)
    requires tds != []
    ensures var td := tds[|tds| - 1];
      C.Bytes(tds, u) == C.Bytes(tds[..|tds| - 1], u) + if td.urb == u && td.pid != C.Setup then td.length else 0
  {
    if |tds| == 1 {
      assert tds[1..] == [] && tds[..0] == [];
    } else {
      assert tds[..|tds| - 1][1..] == tds[1..][..|tds| - 2] && tds[1..][|tds| - 2] == tds[|tds| - 1];
      BytesLast(tds[1..], u);
    }
  }

  lemma {:induction false} BytesCarried(head: seq<B.Qtd>, u: C.Urb, dummy: nat)
    ensures C.Bytes(Tds(head, u, dummy), u) == Carried(head)
  {
    if head != [] {
      var n := |head| - 1;
      BytesLast(Tds(head, u, dummy), u);
      assert Tds(head, u, dummy)[..n] == Tds(head[..n], u, dummy);
      BytesCarried(head[..n], u, dummy);
    }
  }

  lemma {:induction false} CarriedData(head: seq<B.Qtd>, d: seq<B.Qtd>)
    requires forall q :: q in d ==> |B.Bytes(q)| == q.length && PidOf(q.hwToken) != C.Setup
    requires Carried(head) == 0
    ensures Carried(head + d) == |B.AllBytes(d)|
  {
    if d == [] {
      assert head + d == head;
    } else {
      var n := |d| - 1;
      assert (head + d)[..|head + d| - 1] == head + d[..n];
      CarriedData(head, d[..n]);
    }
  }

  /** What a finished descriptor says. */
  lemma ReadyBits(q: B.Qtd, pid: bv32, interrupt: bool)
    requires B.Ready(q, pid, interrupt)
    ensures q.hwToken & B.STS_ACTIVE != 0 && |B.Bytes(q)| == q.length
    ensures PidOf(q.hwToken) == C.Setup <==> pid == B.PID_SETUP
  {
    hide B.Pid;
  }

  lemma DataReady(d: seq<B.Qtd>, urb: B.Urb, ends: bool, dummy: B.Link)
    requires urb.maxpacket > 0 && B.DataPart(d, urb, ends, dummy)
    ensures forall q :: q in d ==>
      q.hwToken & B.STS_ACTIVE != 0 && |B.Bytes(q)| == q.length && PidOf(q.hwToken) != C.Setup
    ensures d != [] && B.AllBytes(d) == B.Buffer(urb)
  {
    hide B.Ready, B.Bytes, B.AllBytes, B.Buffer, B.Whole, B.Filled;
    forall q | q in d
      ensures q.hwToken & B.STS_ACTIVE != 0 && |B.Bytes(q)| == q.length && PidOf(q.hwToken) != C.Setup
    {
      var i :| 0 <= i < |d| && d[i] == q;
      ReadyBits(q, B.DataPid(urb), i == |d| - 1 && ends && !urb.noInterrupt);
    }
  }

  lemma BufferLength(urb: B.Urb)
    ensures |B.Buffer(urb)| <= urb.length
  {
  }

  /** SETUP, data and tail, put together. */
  lemma CarriedParts(setup: seq<B.Qtd>, d: seq<B.Qtd>, tail: seq<B.Qtd>)
    requires |setup| <= 1 && |tail| <= 1 && (setup != [] ==> PidOf(setup[0].hwToken) == C.Setup)
    requires forall q :: q in d ==> |B.Bytes(q)| == q.length && PidOf(q.hwToken) != C.Setup
    requires tail != [] ==> tail[0].length == 0
    ensures Carried(setup + d + tail) == |B.AllBytes(d)|
  {
    if setup != [] {
      assert setup[..0] == [];
    }
    assert Carried(setup) == 0;
    CarriedData(setup, d);
    if tail == [] {
      assert setup + d + tail == setup + d;
    } else {
      assert (setup + d + tail)[..|setup + d|] == setup + d;
    }
    hide B.AllBytes, B.Bytes;
  }

  /** The parts of a transaction. */
  lemma Parts(head: seq<B.Qtd>, urb: B.Urb, pool: nat -> nat, dummy: B.Link)
    returns (setup: seq<B.Qtd>, d: seq<B.Qtd>, tail: seq<B.Qtd>)
    requires urb.maxpacket > 0 && B.Transaction(head, urb, pool, dummy)
    ensures head == setup + d + tail && |setup| <= 1 && |tail| <= 1 && d != []
    ensures setup != [] ==> B.SetupStage(setup[0], urb)
    ensures B.DataPart(d, urb, tail == [], dummy)
    ensures tail != [] ==> B.TailStage(tail[0], urb)
  {
    hide B.Chained, B.Allocated, B.NeedsTail, B.SetupStage, B.DataPart, B.TailStage;
    var s, t := B.SetupCount(urb), B.TailCount(urb);
    setup, d, tail := head[..s], head[s..|head| - t], head[|head| - t..];
  }

  /** All descriptors of a transaction are active, and they carry as much as its buffer holds. */
  lemma Carries(head: seq<B.Qtd>, urb: B.Urb, pool: nat -> nat, dummy: B.Link)
    requires urb.maxpacket > 0 && B.Transaction(head, urb, pool, dummy)
    ensures head != [] && AllActive(head) && Carried(head) == |B.Buffer(urb)|
  {
    hide B.Transaction, B.Ready, B.Bytes, B.AllBytes, B.Buffer, B.DataPart, Carried, PidOf, B.TailStage;
    var setup, d, tail := Parts(head, urb, pool, dummy);
    DataReady(d, urb, tail == [], dummy);
    if setup != [] {
      ReadyBits(setup[0], B.PID_SETUP, false);
    }
    if tail != [] {
      TailReady(tail[0], urb);
    }
    CarriedParts(setup, d, tail);
    JoinActive(setup, d, tail);
  }

  predicate AllActive(qtds: seq<B.Qtd>)
  {
    forall i :: 0 <= i < |qtds| ==> qtds[i].hwToken & B.STS_ACTIVE != 0
  }

  lemma JoinActive(a: seq<B.Qtd>, b: seq<B.Qtd>, c: seq<B.Qtd>)
    requires AllActive(a) && AllActive(b) && AllActive(c)
    ensures AllActive(a + b + c)
  {
  }

  lemma TailReady(q: B.Qtd, urb: B.Urb)
    requires B.TailStage(q, urb)
    ensures q.hwToken & B.STS_ACTIVE != 0 && q.length == 0
  {
    ReadyBits(q, if urb.control then (if urb.input then B.PID_OUT else B.PID_IN) else B.DataPid(urb), !urb.noInterrupt);
    hide B.Ready;
  }

  /** The descriptors of a transaction are prepared for the queue. */
  lemma ReadyForQueue(head: seq<B.Qtd>, urb: B.Urb, pool: nat -> nat, alt: B.Link, m: E.Memory, list: seq<nat>,
      dummy: nat)
    requires urb.maxpacket > 0 && B.Transaction(head, urb, pool, alt) && InMemory(m, head)
    requires E.Distinct(list + [dummy] + Addresses(head))
    ensures E.Prepared(m, list, dummy, Addresses(head))
  {
    Carries(head, urb, pool, alt);
    var a, n := Addresses(head), |head| - 1;
    hide E.Distinct, B.DataPart, B.SetupStage, B.TailStage;
    forall i | 0 <= i < n
      ensures a[..n][i] in m && m[a[..n][i]].hwNext == B.ToQtd(E.Node(a[..n], a[n], i + 1))
    {
      assert head[i].hwNext == B.ToQtd(head[i + 1].dma);
    }
  }

  /** The word that holds a token as completions see it: status bits, error count and residue. */
  predicate Encodes(t: bv32, token: C.Token)
  {
    && (token.active <==> t & 0x80 != 0) && (token.halt <==> t & 0x40 != 0) && (token.dbe <==> t & 0x20 != 0)
    && (token.babble <==> t & 0x10 != 0) && (token.xact <==> t & 0x08 != 0) && (token.mmf <==> t & 0x04 != 0)
    && token.cerr < 4 && (t >> 10) & 3 == token.cerr as bv32
    && token.residue < 0x8000 && (t >> 16) & 0x7FFF == token.residue as bv32
  }

  /** A built token is active, nothing has failed, and everything is still to transfer. */
  lemma StartsWith(t: bv32, pid: bv32, interrupt: bool, length: nat)
    requires length < 0x8000 && B.Reads(t, pid, interrupt, length)
    ensures Encodes(t, C.Token(true, false, false, false, false, false, 3, length))
  {
    FieldsOf(t);
  }

  lemma FieldsOf(t: bv32)
    requires t & 0xFF == 0x80
    ensures t & 0x80 != 0 && t & 0x40 == 0 && t & 0x10 == 0 && t & 0x04 == 0 && t & 0x20 == 0 && t & 0x08 == 0
  {
  }

  /** When a request is queued, completions see of each of its descriptors the token it was built with. */
  lemma QueuedTokens(
    head: seq<B.Qtd>, urb: B.Urb, pool: nat -> nat, alt: B.Link, s: C.State, u: C.Urb, i: nat)
    requires urb.maxpacket > 0 && B.Transaction(head, urb, pool, alt) && i < |head|
    requires E.Distinct(Addresses(head)) && (forall k :: 0 <= k < |head| ==> C.Unused(s, head[k].dma))
    ensures var tds := Tds(head, u, s.hw.dummy);
      Encodes(head[i].hwToken, C.TokenOf(C.Submit(s, C.Request(u, urb.length, tds, head[0].dma)).hw, tds[i].id))
  {
    var tds := Tds(head, u, s.hw.dummy);
    B.TokensRead(head, urb, pool, alt, i);
    Started(head, urb, pool, alt, i);
    hide B.Transaction, C.Unused, C.AddTokens, C.AddLinks, Encodes, B.Reads;
    FreshIds(head, s, u);
    Safety.AddedTokens(s.hw.token, tds, tds[i].id);
  }

  lemma Started(head: seq<B.Qtd>, urb: B.Urb, pool: nat -> nat, alt: B.Link, i: nat)
    requires urb.maxpacket > 0 && B.Transaction(head, urb, pool, alt) && i < |head|
    ensures Encodes(head[i].hwToken, C.Token(true, false, false, false, false, false, 3, head[i].length))
  {
    B.TokensRead(head, urb, pool, alt, i);
    hide B.Transaction, Encodes, B.Reads;
    forall pid, interrupt | head[i].length < 0x8000 && B.Reads(head[i].hwToken, pid, interrupt, head[i].length)
      ensures Encodes(head[i].hwToken, C.Token(true, false, false, false, false, false, 3, head[i].length))
    {
      StartsWith(head[i].hwToken, pid, interrupt, head[i].length);
    }
  }

  lemma NotAmong(tds: seq<C.Td>, id: nat)
    requires forall i :: 0 <= i < |tds| ==> tds[i].id != id
    ensures !C.HasId(tds, id)
  {
  }

  /** Queued at addresses that nothing uses, they are a request that completions accept: in particular they
      carry no more than transfer_buffer_length bytes. */
  lemma ReadyForCompletion(
    head: seq<B.Qtd>, urb: B.Urb, pool: nat -> nat, alt: B.Link, s: C.State, u: C.Urb)
    requires urb.maxpacket > 0 && B.Transaction(head, urb, pool, alt)
    requires E.Distinct(Addresses(head)) && (forall i :: 0 <= i < |head| ==> C.Unused(s, head[i].dma))
      && u !in s.rq.total
    ensures head != [] && C.Acceptable(s, C.Request(u, urb.length, Tds(head, u, s.hw.dummy), head[0].dma))
  {
    hide B.Transaction, B.Buffer, C.Bytes, Carried, C.Unused;
    Carries(head, urb, pool, alt);
    BufferLength(urb);
    BytesCarried(head, u, s.hw.dummy);
    FreshIds(head, s, u);
  }

  /** The addresses are distinct, and none of them was in use. */
  lemma FreshIds(head: seq<B.Qtd>, s: C.State, u: C.Urb)
    requires head != [] && E.Distinct(Addresses(head)) && forall i :: 0 <= i < |head| ==> C.Unused(s, head[i].dma)
    ensures var tds := Tds(head, u, s.hw.dummy);
      && C.DistinctIds(tds) && !C.HasId(tds, head[0].dma)
      && (forall i :: 1 <= i < |tds| ==> C.Unused(s, tds[i].id)) && C.Unused(s, head[0].dma)
  {
    var tds := Tds(head, u, s.hw.dummy);
    hide C.Whole, C.HasId;
    forall i | 0 <= i < |head|
      ensures head[i].dma != s.hw.dummy && Addresses(head)[i] == head[i].dma
    {
      assert C.Unused(s, head[i].dma);
    }
    NotAmong(tds, head[0].dma);
  }
}
