/** What admission guarantees: the interrupt schedule never claims more of a microframe than the
    limit, and queue heads behind one transaction translator never meet. */
module Bandwidth {
  import opened PeriodicNodes
  import opened PeriodicTree
  import opened PeriodicScan
  import opened Admission

  lemma {:induction false} QhLoadAppend(a: seq<Entry>, b: seq<Entry>, f: nat, u: nat)
    ensures QhLoad(a + b, f, u) == QhLoad(a, f, u) + QhLoad(b, f, u)
  {
    if a == [] {
      assert a + b == b;
    } else {
      assert (a + b)[1..] == a[1..] + b;
      QhLoadAppend(a[1..], b, f, u);
    }
  }

  /** Linking an entry adds its claim in the frames it fires in, wherever it stands in the order. */
  lemma LoadInserted(order: seq<Entry>, e: Entry, f: nat, u: nat)
    ensures QhLoad(Inserted(order, e), f, u) == QhLoad(order, f, u) + if Fires(e, f) then Claim(e, u) else 0
    ensures f % Stride(e.qh) == e.start ==>
      QhLoad(Inserted(order, e), f, u) ==
        QhLoad(order, f, u) + (if u in e.smask then e.qh.usecs else 0) + (if u in e.cmask then e.qh.cUsecs else 0)
    ensures f % Stride(e.qh) != e.start ==> QhLoad(Inserted(order, e), f, u) == QhLoad(order, f, u)
  {
    FiresMeaning(e, f);
    var k := InsertPos(order, e.qh.period);
    assert order == order[..k] + order[k..];
    QhLoadAppend(order[..k], order[k..], f, u);
    QhLoadAppend(order[..k] + [e], order[k..], f, u);
    QhLoadAppend(order[..k], [e], f, u);
    assert QhLoad([e], f, u) == if Fires(e, f) then Claim(e, u) else 0;
  }

  /** Linking an ITD adds its claim in the microframes it is active in. */
  lemma {:induction false} LoadWithItd(l: seq<Itd>, i: Itd, u: nat)
    ensures ItdLoad(l + [i], u) == ItdLoad(l, u) + if u in i.active then i.usecs else 0
  {
    if l == [] {
      assert l + [i] == [i];
    } else {
      assert (l + [i])[1..] == l[1..] + [i];
      LoadWithItd(l[1..], i, u);
    }
  }

  lemma LoadRemoved(order: seq<Entry>, k: nat, f: nat, u: nat)
    requires k < |order|
    ensures QhLoad(order, f, u) ==
      QhLoad(Removed(order, k), f, u) + if Fires(order[k], f) then Claim(order[k], u) else 0
  {
    assert order == order[..k] + [order[k]] + order[k + 1..];
    QhLoadAppend(order[..k], order[k + 1..], f, u);
    QhLoadAppend(order[..k] + [order[k]], order[k + 1..], f, u);
    QhLoadAppend(order[..k], [order[k]], f, u);
    assert QhLoad([order[k]], f, u) == if Fires(order[k], f) then Claim(order[k], u) else 0;
  }

  /** The entries that do not claim every microframe. */
  function Slow(order: seq<Entry>): seq<Entry>
  {
    if order == [] then [] else (if order[0].qh.period == 0 then [] else [order[0]]) + Slow(order[1..])
  }

  lemma {:induction false} SlowAppend(a: seq<Entry>, b: seq<Entry>)
    ensures Slow(a + b) == Slow(a) + Slow(b)
  {
    if a == [] {
      assert a + b == b;
    } else {
      assert (a + b)[1..] == a[1..] + b;
      SlowAppend(a[1..], b);
    }
  }

  /** The claims of the queue heads that fit the limit: each part of a split transaction alone is
      within the limit, and the complete split comes at least one microframe later. */
  predicate Fitting(q: Qh, max: nat)
  {
    q.usecs <= max && q.cUsecs <= max && (q.cUsecs != 0 ==> q.gapUf >= 1)
  }

  ghost predicate WithinAt(order: seq<Entry>, itds: seq<seq<Itd>>, max: nat, f: nat, u: nat)
    requires f < |itds|
  {
    Load(order, itds, f, u) <= max
  }

  /** The bandwidth invariant.  Period 0 is checked against the first seven microframes only, so in
      the last one the limit holds for the others, whose share is counted alone. */
  ghost predicate Within(order: seq<Entry>, itds: seq<seq<Itd>>, max: nat)
  {
    WithinFirst(order, itds, max) && WithinLast(order, itds, max)
  }

  ghost predicate WithinFirst(order: seq<Entry>, itds: seq<seq<Itd>>, max: nat)
  {
    forall f, u :: 0 <= f < |itds| && 0 <= u < 7 ==> WithinAt(order, itds, max, f, u)
  }

  ghost predicate WithinLast(order: seq<Entry>, itds: seq<seq<Itd>>, max: nat)
  {
    forall f :: 0 <= f < |itds| ==> WithinAt(Slow(order), itds, max, f, 7)
  }

  ghost predicate AllMasksOk(order: seq<Entry>)
  {
    forall a {:trigger order[a]} :: 0 <= a < |order| ==>
      MasksOk(order[a]) && order[a].start < Stride(order[a].qh)
  }

  /** Period-0 entries claim the same of every microframe. */
  lemma {:induction false} FastEverywhere(order: seq<Entry>, f: nat, u: nat)
    requires AllMasksOk(order) && u < 8
    ensures QhLoad(order, f, 7) - QhLoad(Slow(order), f, 7) == QhLoad(order, f, u) - QhLoad(Slow(order), f, u) >= 0
  {
    if order != [] {
      FastEverywhere(order[1..], f, u);
      var h := if order[0].qh.period == 0 then [] else [order[0]];
      QhLoadAppend(h, Slow(order[1..]), f, 7);
      QhLoadAppend(h, Slow(order[1..]), f, u);
      assert MasksOk(order[0]);
    }
  }

  /** The last microframe is overcommitted at most twofold, and not at all while no entry claims
      every microframe. */
  lemma LastUframe(order: seq<Entry>, itds: seq<seq<Itd>>, max: nat, f: nat)
    requires Within(order, itds, max) && AllMasksOk(order) && f < |itds|
    ensures Load(order, itds, f, 7) <= 2 * max
    ensures (forall a :: 0 <= a < |order| ==> order[a].qh.period != 0) ==> Load(order, itds, f, 7) <= max
  {
    FastEverywhere(order, f, 0);
    assert WithinAt(order, itds, max, f, 0) && WithinAt(Slow(order), itds, max, f, 7);
    if forall a :: 0 <= a < |order| ==> order[a].qh.period != 0 {
      AllSlow(order);
    }
  }

  lemma {:induction false} AllSlow(order: seq<Entry>)
    requires forall a :: 0 <= a < |order| ==> order[a].qh.period != 0
    ensures Slow(order) == order
  {
    if order != [] {
      AllSlow(order[1..]);
    }
  }

  /** An entry in the middle adds its claim to the share of the others if it is one of them. */
  lemma SlowSplit(a: seq<Entry>, e: Entry, b: seq<Entry>, f: nat, u: nat)
    ensures QhLoad(Slow(a + [e] + b), f, u) ==
      QhLoad(Slow(a + b), f, u) + if e.qh.period != 0 && Fires(e, f) then Claim(e, u) else 0
  {
    var h := if e.qh.period == 0 then [] else [e];
    assert Slow([e]) == h;
    assert QhLoad(h, f, u) == if e.qh.period != 0 && Fires(e, f) then Claim(e, u) else 0;
    hide Slow, QhLoad, Fires, Claim;
    SlowAppend(a + [e], b);
    SlowAppend(a, [e]);
    SlowAppend(a, b);
    QhLoadAppend(Slow(a) + h, Slow(b), f, u);
    QhLoadAppend(Slow(a), h, f, u);
    QhLoadAppend(Slow(a), Slow(b), f, u);
  }

  /** The share of the others grows by the claim of a new entry that is one of them. */
  lemma SlowInserted(order: seq<Entry>, e: Entry, f: nat, u: nat)
    ensures QhLoad(Slow(Inserted(order, e)), f, u) ==
      QhLoad(Slow(order), f, u) + if e.qh.period != 0 && Fires(e, f) then Claim(e, u) else 0
  {
    hide Slow, QhLoad, Fires, Claim, InsertPos;
    var k := InsertPos(order, e.qh.period);
    assert order == order[..k] + order[k..];
    SlowSplit(order[..k], e, order[k..], f, u);
  }

  lemma SlowRemoved(order: seq<Entry>, k: nat, f: nat, u: nat)
    requires k < |order|
    ensures QhLoad(Slow(Removed(order, k)), f, u) <= QhLoad(Slow(order), f, u)
  {
    hide Slow, QhLoad, Fires, Claim;
    assert order == order[..k] + [order[k]] + order[k + 1..];
    SlowSplit(order[..k], order[k], order[k + 1..], f, u);
  }

  lemma FiresVisits(e: Entry, f: nat)
    requires Fires(e, f) && e.start < Stride(e.qh)
    ensures Visits(e.start, e.qh.period, f)
  {
  }

  /** A split transaction is not admitted in every microframe. */
  lemma NoSplitAlways(order: seq<Entry>, itds: seq<seq<Itd>>, max: nat, qh: Qh, frame: nat, uframe: nat)
    requires Admissible(order, itds, max, qh, frame, uframe)
    ensures qh.period == 0 ==> qh.cUsecs == 0
  {
  }

  /** An admitted entry finds room for its claim in every microframe it claims. */
  lemma RoomForClaim(order: seq<Entry>, itds: seq<seq<Itd>>, max: nat, e: Entry, f: nat, u: nat)
    requires Admitted(order, itds, max, e) && Fitting(e.qh, max) && max < 0x8000
    requires f < |itds| && u < 8 && Fires(e, f) && Load(order, itds, f, u) < 0x1_0000
    requires u < 7 || e.qh.period != 0
    ensures Claim(e, u) == 0 || Load(order, itds, f, u) + Claim(e, u) <= max
  {
    FiresVisits(e, f);
    hide Load, TtFree, Visits, Fires, RoomAt;
    var v :| 0 <= v < 8 && e == Placed(e.qh, e.start, v) && Admissible(order, itds, max, e.qh, e.start, v);
    NoSplitAlways(order, itds, max, e.qh, e.start, v);
    if u in e.smask {
      assert FrameRoom(order, itds, max, f, v, e.qh.period, e.qh.usecs);
      RoomIs(order, itds, max, f, u, e.qh.usecs);
    } else if u in e.cmask {
      assert FrameRoom(order, itds, max, f, u, e.qh.period, e.qh.cUsecs);
      RoomIs(order, itds, max, f, u, e.qh.cUsecs);
    }
  }

  /** Nothing wraps in the comparison when the claim is within the limit. */
  lemma RoomIs(order: seq<Entry>, itds: seq<seq<Itd>>, max: nat, f: nat, u: nat, usecs: nat)
    requires f < |itds| && RoomAt(order, itds, max, f, u, usecs) && usecs <= max < 0x8000
      && Load(order, itds, f, u) < 0x1_0000
    ensures Load(order, itds, f, u) + usecs <= max
  {
    hide Load;
  }

  /** Admission keeps the limit in the first seven microframes. */
  lemma AdmitFirst(order: seq<Entry>, itds: seq<seq<Itd>>, max: nat, e: Entry)
    requires WithinFirst(order, itds, max) && max < 0x8000
    requires Admitted(order, itds, max, e) && Fitting(e.qh, max)
    ensures WithinFirst(Inserted(order, e), itds, max)
  {
    forall f, u | 0 <= f < |itds| && 0 <= u < 7
      ensures WithinAt(Inserted(order, e), itds, max, f, u)
    {
      LoadInserted(order, e, f, u);
      assert WithinAt(order, itds, max, f, u);
      if Fires(e, f) {
        RoomForClaim(order, itds, max, e, f, u);
      }
    }
  }

  /** Admission keeps the bandwidth invariant. */
  lemma AdmitWithin(order: seq<Entry>, itds: seq<seq<Itd>>, max: nat, e: Entry)
    requires Within(order, itds, max) && AllMasksOk(order) && max < 0x8000
    requires Admitted(order, itds, max, e) && Fitting(e.qh, max)
    ensures Within(Inserted(order, e), itds, max)
  {
    AdmitFirst(order, itds, max, e);
    forall f | 0 <= f < |itds|
      ensures WithinAt(Slow(Inserted(order, e)), itds, max, f, 7)
    {
      SlowInserted(order, e, f, 7);
      LastUframe(order, itds, max, f);
      FastEverywhere(order, f, 7);
      assert WithinAt(Slow(order), itds, max, f, 7);
      if Fires(e, f) && e.qh.period != 0 {
        RoomForClaim(order, itds, max, e, f, 7);
      }
    }
  }

  /** All eight microframes are within the limit. */
  ghost predicate WithinAll(order: seq<Entry>, itds: seq<seq<Itd>>, max: nat)
  {
    forall f, u :: 0 <= f < |itds| && 0 <= u < 8 ==> WithinAt(order, itds, max, f, u)
  }

  /** There is room in the last microframe of every frame: the turn that check_period leaves out for
      period 0. */
  ghost predicate RoomInLast(order: seq<Entry>, itds: seq<seq<Itd>>, max: nat, usecs: nat)
  {
    forall f :: 0 <= f < |itds| ==> RoomAt(order, itds, max, f, 7, usecs)
  }

  /** Admission keeps the limit in all eight microframes exactly if the period is not 0 or the last
      microframe, which is not looked at then, has room as well. */
  lemma AdmitAllIff(order: seq<Entry>, itds: seq<seq<Itd>>, max: nat, e: Entry)
    requires WithinAll(order, itds, max) && max < 0x8000
    requires Admitted(order, itds, max, e) && Fitting(e.qh, max)
    ensures WithinAll(Inserted(order, e), itds, max) <==> e.qh.period != 0 || RoomInLast(order, itds, max, e.qh.usecs)
  {
    var b := Inserted(order, e);
    if e.qh.period != 0 || RoomInLast(order, itds, max, e.qh.usecs) {
      forall f, u | 0 <= f < |itds| && 0 <= u < 8
        ensures WithinAt(b, itds, max, f, u)
      {
        AdmitOne(order, itds, max, e, f, u);
      }
    } else {
      var f :| 0 <= f < |itds| && !RoomAt(order, itds, max, f, 7, e.qh.usecs);
      AdmitBreaks(order, itds, max, e, f);
    }
  }

  /** One microframe after an admission. */
  lemma AdmitOne(order: seq<Entry>, itds: seq<seq<Itd>>, max: nat, e: Entry, f: nat, u: nat)
    requires f < |itds| && u < 8 && WithinAt(order, itds, max, f, u) && max < 0x8000
    requires Admitted(order, itds, max, e) && Fitting(e.qh, max)
    requires e.qh.period != 0 || RoomAt(order, itds, max, f, 7, e.qh.usecs)
    ensures WithinAt(Inserted(order, e), itds, max, f, u)
  {
    LoadInserted(order, e, f, u);
    hide QhLoad, Inserted;
    if Fires(e, f) {
      if u < 7 || e.qh.period != 0 {
        RoomForClaim(order, itds, max, e, f, u);
      } else {
        FastClaim(order, itds, max, e);
        RoomIs(order, itds, max, f, 7, e.qh.usecs);
      }
    }
  }

  /** Period 0 claims the same of every microframe of every frame. */
  lemma FastClaim(order: seq<Entry>, itds: seq<seq<Itd>>, max: nat, e: Entry)
    requires Admitted(order, itds, max, e) && e.qh.period == 0
    ensures Claim(e, 7) == e.qh.usecs && forall f :: Fires(e, f)
  {
    var v :| 0 <= v < 8 && e == Placed(e.qh, e.start, v) && Admissible(order, itds, max, e.qh, e.start, v);
    NoSplitAlways(order, itds, max, e.qh, e.start, v);
    forall f
      ensures Fires(e, f)
    {
      FiresMeaning(e, f);
    }
  }

  /** The last microframe of a frame without room is overcommitted. */
  lemma AdmitBreaks(order: seq<Entry>, itds: seq<seq<Itd>>, max: nat, e: Entry, f: nat)
    requires f < |itds| && WithinAt(order, itds, max, f, 7) && max < 0x8000
    requires Admitted(order, itds, max, e) && Fitting(e.qh, max) && e.qh.period == 0
    requires !RoomAt(order, itds, max, f, 7, e.qh.usecs)
    ensures !WithinAt(Inserted(order, e), itds, max, f, 7)
  {
    LoadInserted(order, e, f, 7);
    FastClaim(order, itds, max, e);
    hide QhLoad, Inserted, Admitted, Fires, Claim;
  }

  /** A queue head of period 0 is admitted although the last microframe is taken: there 120 of 100
      microseconds are claimed then. */
  lemma LastUframeBreaks(p: Qh, z: Qh)
    requires p.period == 1 && p.usecs == 60 && p.cUsecs == 0
    requires z.period == 0 && z.usecs == 60 && z.cUsecs == 0
    ensures var order, e := [Entry(p, 0, {7}, {})], Entry(z, 0, AllUframes(), {});
      && WithinAll(order, [[]], 100) && Admitted(order, [[]], 100, e) && Fitting(z, 100)
      && Load(Inserted(order, e), [[]], 0, 7) == 120
  {
    var order, e := [Entry(p, 0, {7}, {})], Entry(z, 0, AllUframes(), {});
    OneLoad(order[0]);
    assert Fires(order[0], 0) && Fires(e, 0) && Claim(e, 7) == 60;
    LoadInserted(order, e, 0, 7);
    forall u | 0 <= u < 7
      ensures RoomAt(order, [[]], 100, 0, u, 60)
    {
    }
    assert FrameRoom(order, [[]], 100, 0, 0, 0, 60);
    assert e == Placed(z, 0, 0) && Admissible(order, [[]], 100, z, 0, 0);
  }

  lemma OneLoad(e: Entry)
    ensures forall f, u :: QhLoad([e], f, u) == if Fires(e, f) then Claim(e, u) else 0
  {
  }

  /** With a claim above the limit the comparison wraps, the slot is admitted all the same, and the
      limit is broken. */
  lemma OversizedBreaks(order: seq<Entry>, itds: seq<seq<Itd>>, max: nat, e: Entry)
    requires Admitted(order, itds, max, e) && e.start < |itds|
    requires e.qh.usecs > max || e.qh.cUsecs > max
    ensures !Within(Inserted(order, e), itds, max)
  {
    var v :| 0 <= v < 8 && e == Placed(e.qh, e.start, v) && Admissible(order, itds, max, e.qh, e.start, v)
      && (e.qh.period == 0 ==> v == 0);
    StartFires(e);
    var b := Inserted(order, e);
    var u := if e.qh.usecs > max then v else v + e.qh.gapUf;
    LoadInserted(order, e, e.start, u);
    SlowInserted(order, e, e.start, u);
    assert if u < 7 then !WithinAt(b, itds, max, e.start, u) else !WithinAt(Slow(b), itds, max, e.start, 7);
  }

  /** A queue head that claims 110 of an empty schedule's 100 microseconds is admitted. */
  lemma OversizedAdmitted(q: Qh)
    requires q.period == 1 && q.usecs == 110 && q.cUsecs == 0
    ensures Admissible([], [[]], 100, q, 0, 0)
  {
    assert forall u :: 0 <= u < 8 ==> RoomAt([], [[]], 100, 0, u, 110);
  }

  lemma StartFires(e: Entry)
    requires e.start < Stride(e.qh)
    ensures Fires(e, e.start)
  {
  }

  /** The limit survives an admission exactly when no part of the transaction alone exceeds it. */
  lemma AdmitWithinIff(order: seq<Entry>, itds: seq<seq<Itd>>, max: nat, e: Entry)
    requires Within(order, itds, max) && AllMasksOk(order) && max < 0x8000
    requires Admitted(order, itds, max, e) && e.start < |itds| && (e.qh.cUsecs != 0 ==> e.qh.gapUf >= 1)
    ensures Within(Inserted(order, e), itds, max) <==> e.qh.usecs <= max && e.qh.cUsecs <= max
  {
    if e.qh.usecs <= max && e.qh.cUsecs <= max {
      AdmitWithin(order, itds, max, e);
    } else {
      OversizedBreaks(order, itds, max, e);
    }
  }

  /** Unlinking keeps the bandwidth invariant, and its part about the first seven microframes. */
  lemma DropWithin(order: seq<Entry>, itds: seq<seq<Itd>>, max: nat, k: nat)
    requires k < |order|
    ensures WithinFirst(order, itds, max) ==> WithinFirst(Removed(order, k), itds, max)
    ensures WithinLast(order, itds, max) ==> WithinLast(Removed(order, k), itds, max)
  {
    forall f, u | 0 <= f < |itds| && 0 <= u < 7
      ensures WithinAt(order, itds, max, f, u) ==> WithinAt(Removed(order, k), itds, max, f, u)
    {
      LoadRemoved(order, k, f, u);
    }
    forall f | 0 <= f < |itds|
      ensures WithinAt(Slow(order), itds, max, f, 7) ==> WithinAt(Slow(Removed(order, k)), itds, max, f, 7)
    {
      SlowRemoved(order, k, f, 7);
    }
  }

  /** uframe_periodic_max_store accepts a new limit when it is sane and, if it is a decrease, when
      the first seven microframes of every frame fit it. */
  ghost predicate LimitAccepted(order: seq<Entry>, itds: seq<seq<Itd>>, max: nat, n: nat)
  {
    100 <= n < 125 &&
    (n < max ==> forall f, u :: 0 <= f < |itds| && 0 <= u < 7 ==> LoadFits(order, itds, f, u, n))
  }

  ghost predicate LoadFits(order: seq<Entry>, itds: seq<seq<Itd>>, f: nat, u: nat, n: nat)
    requires f < |itds|
  {
    Load(order, itds, f, u) % 0x1_0000 <= n
  }

  /** The largest claim found in the first seven microframes of any frame. */
  method AllocatedMax(s: Schedule, ghost n: nat) returns (allocatedMax: nat)
    requires s.Valid()
    ensures allocatedMax <= n <==> forall f, u :: 0 <= f < |s.itds| && 0 <= u < 7 ==> LoadFits(s.order, s.itds, f, u, n)
  {
    assert s.size == |s.itds|;
    allocatedMax := 0;
    var frame := 0;
    hide Schedule.Valid, Load;
    while frame < s.size
      invariant 0 <= frame <= s.size
      invariant allocatedMax <= n <==> forall f, u :: 0 <= f < frame && 0 <= u < 7 ==>
        LoadFits(s.order, s.itds, f, u, n)
    {
      var uframe := 0;
      while uframe < 7
        invariant 0 <= uframe <= 7
        invariant allocatedMax <= n <==>
          && (forall f, u :: 0 <= f < frame && 0 <= u < 7 ==> LoadFits(s.order, s.itds, f, u, n))
          && (forall u :: 0 <= u < uframe ==> LoadFits(s.order, s.itds, frame, u, n))
      {
        var claimed := PeriodicUsecs(s, frame, uframe);
        assert claimed <= n <==> LoadFits(s.order, s.itds, frame, uframe, n);
        allocatedMax := if claimed > allocatedMax then claimed else allocatedMax;
        uframe := uframe + 1;
      }
      frame := frame + 1;
    }
  }

  /** LimitAccepted, spelled out. */
  lemma AcceptedMeans(order: seq<Entry>, itds: seq<seq<Itd>>, max: nat, n: nat)
    ensures LimitAccepted(order, itds, max, n) <==>
      && 100 <= n < 125
      && (n < max ==> forall f, u :: 0 <= f < |itds| && 0 <= u < 7 ==> Load(order, itds, f, u) % 0x1_0000 <= n)
  {
    forall f, u | 0 <= f < |itds|
      ensures LoadFits(order, itds, f, u, n) <==> Load(order, itds, f, u) % 0x1_0000 <= n
    {
    }
    hide Load;
  }

  /** Set the limit, unless the schedule already claims more. */
  method StoreUframePeriodicMax(s: Schedule, n: nat) returns (ok: bool)
    requires s.Valid()
    modifies s`uframeMax
    ensures s.Valid()
    ensures ok <==> LimitAccepted(s.order, s.itds, old(s.uframeMax), n)
    ensures s.uframeMax == if ok then n else old(s.uframeMax)
    ensures ok ==> 100 <= n < 125
    ensures ok && n < old(s.uframeMax) ==>
      forall f, u :: 0 <= f < |s.itds| && 0 <= u < 7 ==> Load(s.order, s.itds, f, u) % 0x1_0000 <= n
    ensures !ok && 100 <= n < 125 ==>
      n < old(s.uframeMax) &&
      exists f, u :: 0 <= f < |s.itds| && 0 <= u < 7 && Load(s.order, s.itds, f, u) % 0x1_0000 > n
  {
    AcceptedMeans(s.order, s.itds, s.uframeMax, n);
    if n < 100 || n >= 125 {
      return false;
    }
    hide Schedule.Valid;
    if n < s.uframeMax {
      var allocatedMax := AllocatedMax(s, n);
      if allocatedMax > n {
        return false;
      }
    }
    SetLimit(s, n);
    return true;
  }

  method SetLimit(s: Schedule, n: nat)
    requires s.Valid()
    modifies s`uframeMax
    ensures s.Valid() && s.uframeMax == n
  {
    s.uframeMax := n;
  }

  /** After an accepted change the limit holds in the first seven microframes, and the whole invariant
      exactly when the last one, which the check leaves out, happens to fit it too. */
  lemma LimitWithin(order: seq<Entry>, itds: seq<seq<Itd>>, max: nat, n: nat)
    requires WithinFirst(order, itds, max) && max < 0x8000 && LimitAccepted(order, itds, max, n)
    ensures WithinFirst(order, itds, n)
    ensures Within(order, itds, n) <==> WithinLast(order, itds, n)
  {
    forall f, u | 0 <= f < |itds| && 0 <= u < 7
      ensures WithinAt(order, itds, n, f, u)
    {
      assert WithinAt(order, itds, max, f, u);
      assert n < max ==> LoadFits(order, itds, f, u, n);
    }
  }

  /** Two entries behind one transaction translator never use the same microframe of a frame. */
  ghost predicate Apart(a: Entry, b: Entry)
  {
    !Collides(a, b.qh.dev, b.smask + b.cmask)
  }

  ghost predicate Exclusive(order: seq<Entry>, size: nat)
  {
    forall a, b, f ::
      0 <= a < |order| && 0 <= b < |order| && a != b && 0 <= f < size && Fires(order[a], f) && Fires(order[b], f) ==>
        Apart(order[a], order[b])
  }

  lemma ApartSymmetric(a: Entry, b: Entry)
    ensures Apart(a, b) <==> Apart(b, a)
  {
    assert (a.smask + a.cmask) * (b.smask + b.cmask) == (b.smask + b.cmask) * (a.smask + a.cmask);
  }

  /** An admitted entry whose device, if behind a translator, does split transactions keeps clear of
      every linked one. */
  lemma AdmitApart(order: seq<Entry>, itds: seq<seq<Itd>>, max: nat, e: Entry, a: nat, f: nat)
    requires Admitted(order, itds, max, e) && (e.qh.dev.Behind? ==> e.qh.cUsecs != 0)
    requires a < |order| && f < |itds| && Fires(order[a], f) && Fires(e, f)
    ensures Apart(order[a], e)
  {
    if e.qh.dev.Behind? {
      var v :| 0 <= v < 8 && e == Placed(e.qh, e.start, v) && Admissible(order, itds, max, e.qh, e.start, v);
      assert e.smask + e.cmask == CMask(v, e.qh.gapUf) + {v};
      assert Visits(e.start, e.qh.period, f);
      assert FrameFree(order, e.qh.dev, f, CMask(v, e.qh.gapUf) + {v});
      assert SameTt(e.qh.dev, order[a].qh.dev) <==> SameTt(order[a].qh.dev, e.qh.dev);
    }
  }

  /** Admission keeps the entries apart. */
  lemma AdmitExclusive(order: seq<Entry>, itds: seq<seq<Itd>>, max: nat, e: Entry)
    requires Exclusive(order, |itds|) && Admitted(order, itds, max, e) && (e.qh.dev.Behind? ==> e.qh.cUsecs != 0)
    ensures Exclusive(Inserted(order, e), |itds|)
  {
    var k := InsertPos(order, e.qh.period);
    var s := Inserted(order, e);
    forall a, b, f | 0 <= a < |s| && 0 <= b < |s| && a != b && 0 <= f < |itds| && Fires(s[a], f) && Fires(s[b], f)
      ensures Apart(s[a], s[b])
    {
      var x := if a < k then a else a - 1;
      var y := if b < k then b else b - 1;
      if a == k {
        assert s[b] == order[y];
        AdmitApart(order, itds, max, e, y, f);
        ApartSymmetric(s[a], s[b]);
      } else if b == k {
        assert s[a] == order[x];
        AdmitApart(order, itds, max, e, x, f);
      } else {
        assert s[a] == order[x] && s[b] == order[y];
      }
    }
  }

  lemma DropExclusive(order: seq<Entry>, size: nat, k: nat)
    requires Exclusive(order, size) && k < |order|
    ensures Exclusive(Removed(order, k), size)
  {
    var s := Removed(order, k);
    assert forall x :: 0 <= x < |s| ==> s[x] == order[if x < k then x else x + 1];
  }

  /** The interrupt schedule between two operations. */
  datatype Intr = Intr(order: seq<Entry>, max: nat)

  /** What one successful operation does: an admission, an unlink, or an accepted change of the
      limit, which under `last` also fits the last microframe. */
  ghost predicate Operation(a: Intr, b: Intr, itds: seq<seq<Itd>>, last: bool)
  {
    || (b.max == a.max &&
        exists k :: 0 <= k < |b.order| && b.order == Inserted(a.order, b.order[k]) && Admits(a, b.order[k], itds))
    || (b.max == a.max && exists k :: 0 <= k < |a.order| && b.order == Removed(a.order, k))
    || (b.order == a.order && LimitAccepted(a.order, itds, a.max, b.max) && (last ==> WithinLast(a.order, itds, b.max)))
  }

  /** A queue head as qh_make builds it, admitted by qh_schedule. */
  ghost predicate Admits(a: Intr, e: Entry, itds: seq<seq<Itd>>)
  {
    Admitted(a.order, itds, a.max, e) && MasksOk(e) && Fitting(e.qh, a.max) && (e.qh.dev.Behind? ==> e.qh.cUsecs != 0)
  }

  /** No microframe but possibly the last is overcommitted, under `last` not that one either, and no
      transaction translator is used twice at once. */
  ghost predicate Safe(a: Intr, itds: seq<seq<Itd>>, last: bool)
  {
    && a.max < 0x8000 && WithinFirst(a.order, itds, a.max) && (last ==> WithinLast(a.order, itds, a.max))
    && AllMasksOk(a.order) && Exclusive(a.order, |itds|)
  }

  lemma AdmitSafe(a: Intr, e: Entry, itds: seq<seq<Itd>>, last: bool)
    requires Safe(a, itds, last) && Admits(a, e, itds)
    ensures Safe(Intr(Inserted(a.order, e), a.max), itds, last)
  {
    hide Admitted, MasksOk, WithinFirst, WithinLast, Exclusive;
    AdmitFirst(a.order, itds, a.max, e);
    if last {
      AdmitWithin(a.order, itds, a.max, e);
    }
    AdmitExclusive(a.order, itds, a.max, e);
    AdmitMasks(a.order, itds, a.max, e);
  }

  lemma AdmitMasks(order: seq<Entry>, itds: seq<seq<Itd>>, max: nat, e: Entry)
    requires AllMasksOk(order) && Admitted(order, itds, max, e) && MasksOk(e)
    ensures AllMasksOk(Inserted(order, e))
  {
    assert e.start < Stride(e.qh);
    hide MasksOk, Admitted;
    var k := InsertPos(order, e.qh.period);
    var b := Inserted(order, e);
    assert forall x {:trigger b[x]} :: 0 <= x < |b| ==>
      b[x] == if x < k then order[x] else if x == k then e else order[x - 1];
  }

  lemma DropSafe(a: Intr, k: nat, itds: seq<seq<Itd>>, last: bool)
    requires Safe(a, itds, last) && k < |a.order|
    ensures Safe(Intr(Removed(a.order, k), a.max), itds, last)
  {
    hide WithinFirst, WithinLast, Exclusive, MasksOk;
    DropWithin(a.order, itds, a.max, k);
    DropExclusive(a.order, |itds|, k);
    var s := Removed(a.order, k);
    assert forall x {:trigger s[x]} :: 0 <= x < |s| ==> s[x] == a.order[if x < k then x else x + 1];
  }

  lemma LimitSafe(a: Intr, b: Intr, itds: seq<seq<Itd>>, last: bool)
    requires Safe(a, itds, last) && b.order == a.order && LimitAccepted(a.order, itds, a.max, b.max)
    requires last ==> WithinLast(a.order, itds, b.max)
    ensures Safe(b, itds, last)
  {
    hide Exclusive, AllMasksOk;
    LimitWithin(a.order, itds, a.max, b.max);
  }

  lemma OperationSafe(a: Intr, b: Intr, itds: seq<seq<Itd>>, last: bool)
    requires Safe(a, itds, last) && Operation(a, b, itds, last)
    ensures Safe(b, itds, last)
  {
    hide Safe, Admits;
    if k :|
      0 <= k < |b.order| && b.max == a.max && b.order == Inserted(a.order, b.order[k]) && Admits(a, b.order[k], itds) {
      AdmitSafe(a, b.order[k], itds, last);
    } else if k :| 0 <= k < |a.order| && b.max == a.max && b.order == Removed(a.order, k) {
      DropSafe(a, k, itds, last);
    } else {
      LimitSafe(a, b, itds, last);
    }
  }

  lemma EmptySafe(itds: seq<seq<Itd>>, last: bool)
    requires forall l :: l in itds ==> l == []
    ensures Safe(Intr([], 100), itds, last)
  {
    assert forall f :: 0 <= f < |itds| ==> itds[f] in itds;
  }

  /** Over any run from the empty schedule with its default limit, no microframe is ever
      overcommitted and no transaction translator is used twice at once; the last microframe is
      covered as long as the changes of the limit respect it. */
  lemma {:induction false} RunSafe(run: seq<Intr>, itds: seq<seq<Itd>>, last: bool)
    requires |run| > 0 && run[0] == Intr([], 100) && (forall l :: l in itds ==> l == [])
    requires forall i {:trigger run[i]} :: 0 < i < |run| ==> Operation(run[i - 1], run[i], itds, last)
    ensures Safe(run[|run| - 1], itds, last)
  {
    hide Operation, Safe;
    if |run| == 1 {
      EmptySafe(itds, last);
    } else {
      RunSafe(run[..|run| - 1], itds, last);
      OperationSafe(run[|run| - 2], run[|run| - 1], itds, last);
    }
  }

  /** An entry of 60 microseconds in the last microframe of every frame. */
  function InLast(q: Qh): Entry
  {
    Entry(q, 0, {7}, {})
  }

  predicate Sixty(q: Qh)
  {
    q.period == 1 && q.usecs == 60 && q.cUsecs == 0 && !q.dev.Behind?
  }

  /** It is admitted into that slot, which it had before, where the schedule claims 60 at most. */
  lemma SixtyAdmits(order: seq<Entry>, q: Qh)
    requires Sixty(q) && forall u :: 0 <= u < 8 ==> QhLoad(order, 0, u) <= 60
    ensures Admits(Intr(order, 124), InLast(q), [[]])
  {
    hide QhLoad;
    assert QhLoad(order, 0, 7) <= 60;
    assert RoomAt(order, [[]], 124, 0, 7, 60);
    assert FrameRoom(order, [[]], 124, 0, 7, 1, 60);
    assert Admissible(order, [[]], 124, q, 0, 7);
    assert InLast(q) == Placed(q, 0, 7) && MasksOk(InLast(q));
  }

  /** Two such entries, the second linked behind the first. */
  ghost function Both(q: Qh, r: Qh): seq<Entry>
  {
    Inserted([InLast(q)], InLast(r))
  }

  /** Both can be linked. */
  lemma BothAdmitted(q: Qh, r: Qh)
    requires Sixty(q) && Sixty(r)
    ensures Operation(Intr([], 124), Intr([InLast(q)], 124), [[]], false)
    ensures Operation(Intr([InLast(q)], 124), Intr(Both(q, r), 124), [[]], false)
    ensures forall u :: 0 <= u < 8 ==> QhLoad(Both(q, r), 0, u) == if u == 7 then 120 else 0
  {
    hide Admits, Sixty, QhLoad, Operation;
    var one := [InLast(q)];
    BothLoads(q, r);
    SixtyAdmits([], q);
    SixtyAdmits(one, r);
    assert Inserted([], InLast(q)) == one;
    hide Inserted;
    AdmitsOperation(Intr([], 124), InLast(q), [[]]);
    AdmitsOperation(Intr(one, 124), InLast(r), [[]]);
  }

  lemma AdmitsOperation(a: Intr, e: Entry, itds: seq<seq<Itd>>)
    requires Admits(a, e, itds)
    ensures Operation(a, Intr(Inserted(a.order, e), a.max), itds, false)
  {
    hide Admits, LimitAccepted, WithinLast;
    var k := InsertPos(a.order, e.qh.period);
    InsertedAt(a.order, e, k);
    assert Inserted(a.order, e)[k] == e;
    hide Inserted, InsertPos;
  }

  lemma BothLoads(q: Qh, r: Qh)
    requires Sixty(q) && Sixty(r)
    ensures forall u :: 0 <= u < 8 ==> QhLoad([], 0, u) <= 60 && QhLoad([InLast(q)], 0, u) <= 60
    ensures forall u :: 0 <= u < 8 ==> QhLoad(Both(q, r), 0, u) == if u == 7 then 120 else 0
  {
    OneLoad(InLast(q));
    forall u | 0 <= u < 8
      ensures QhLoad(Both(q, r), 0, u) == if u == 7 then 120 else 0
    {
      LoadInserted([InLast(q)], InLast(r), 0, u);
    }
  }

  /** The limit is raised from 100 to 124, two queue heads of 60 microseconds are admitted at microframe 7,
      and then the limit of 100 is accepted again. */
  lemma LimitMissesLastUframe(q: Qh, r: Qh) returns (run: seq<Intr>)
    requires Sixty(q) && Sixty(r)
    ensures |run| == 5 && run[0] == Intr([], 100)
    ensures forall i {:trigger run[i]} :: 0 < i < 5 ==> Operation(run[i - 1], run[i], [[]], false)
    ensures run[4].max == 100 && Load(run[4].order, [[]], 0, 7) == 120
  {
    hide Sixty, Inserted, Admits;
    BothAdmitted(q, r);
    hide Both;
    var two := Both(q, r);
    run := [Intr([], 100), Intr([], 124), Intr([InLast(q)], 124), Intr(two, 124), Intr(two, 100)];
    assert Operation(run[0], run[1], [[]], false);
    assert forall u :: 0 <= u < 7 ==> LoadFits(two, [[]], 0, u, 100);
    assert Operation(run[3], run[4], [[]], false);
  }

  ghost function View(s: Schedule): Intr
    reads s
  {
    Intr(s.order, s.uframeMax)
  }

  /** Scheduling a queue head is an operation of the run, or changes nothing. */
  method SubmitInterrupt(s: Schedule, qh: Qh) returns (ok: bool)
    requires s.Valid() && s.NotLinked(qh) && qh !in s.nodes && PeriodOk(qh, s.size) && MasksOk(s.EntryOf(qh))
    requires Fitting(qh, s.uframeMax) && (qh.dev.Behind? ==> qh.cUsecs != 0)
    modifies s`order, s`links, s`nodes, s`randomFrame, s.nodes, qh
    ensures s.Valid() && s.itds == old(s.itds)
    ensures if ok then Operation(old(View(s)), View(s), s.itds, true) else View(s) == old(View(s))
  {
    assert s !in s.nodes;
    hide Schedule.Valid, MasksOk, Admitted, Fitting;
    ok := QhSchedule(s, qh);
    if ok {
      ghost var k := InsertPos(old(s.order), qh.period);
      assert s.order[k] == s.EntryOf(qh);
      assert Admits(old(View(s)), s.order[k], s.itds);
    }
  }

  /** So is unlinking one. */
  method WithdrawInterrupt(s: Schedule, qh: Qh, ghost k: nat)
    requires s.Valid() && k < |s.order| && s.order[k].qh == qh
    modifies s`order, s`links, s`nodes, s.nodes
    ensures s.Valid() && s.itds == old(s.itds) && Operation(old(View(s)), View(s), s.itds, true)
  {
    assert s !in s.nodes;
    hide Schedule.Valid;
    s.QhUnlinkPeriodic(qh, k);
  }
}
