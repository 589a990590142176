/** Admission of interrupt queue heads to the periodic schedule. */
module Admission {
  import opened Arith
  import opened PeriodicNodes
  import opened PeriodicTree
  import opened PeriodicScan

  /** Frame `f` is one of those visited from `frame` every `period` frames. */
  predicate Visits(frame: nat, period: nat, f: nat)
  {
    Residue(f, if period == 0 then 1 else period) == frame
  }

  /** check_period's comparison: the unsigned difference wraps when more is asked for than the
      limit. */
  ghost predicate RoomAt(order: seq<Entry>, itds: seq<seq<Itd>>, max: nat, f: nat, u: nat, usecs: nat)
    requires f < |itds|
  {
    Load(order, itds, f, u) % 0x1_0000 <= (max - usecs) % 0x1_0000_0000
  }

  /** check_period in one frame: period 0 stands for every microframe, of which the source looks at
      the first seven. */
  ghost predicate FrameRoom(order: seq<Entry>, itds: seq<seq<Itd>>, max: nat, f: nat, uframe: nat, period: nat,
      usecs: nat)
    requires f < |itds|
  {
    if period == 0 then forall u :: 0 <= u < 7 ==> RoomAt(order, itds, max, f, u, usecs)
    else RoomAt(order, itds, max, f, uframe, usecs)
  }

  ghost predicate PeriodFree(order: seq<Entry>, itds: seq<seq<Itd>>, max: nat, frame: nat, uframe: nat, period: nat,
      usecs: nat)
  {
    && uframe < 8
    && (forall f :: 0 <= f < |itds| && Visits(frame, period, f) ==>
      FrameRoom(order, itds, max, f, uframe, period, usecs))
  }

  /** The entry is behind the same transaction translator and uses a microframe of `mask`. */
  predicate Collides(e: Entry, dev: Device, mask: set<nat>)
  {
    SameTt(dev, e.qh.dev) && (e.smask + e.cmask) * mask != {}
  }

  /** None of the entries before `pos` that fire in frame `f` collides. */
  ghost predicate FreeBefore(order: seq<Entry>, dev: Device, f: nat, mask: set<nat>, pos: nat)
    requires pos <= |order|
  {
    forall a {:trigger order[a]} :: 0 <= a < pos && Fires(order[a], f) ==> !Collides(order[a], dev, mask)
  }

  ghost predicate FrameFree(order: seq<Entry>, dev: Device, f: nat, mask: set<nat>)
  {
    FreeBefore(order, dev, f, mask, |order|)
  }

  ghost predicate TtFree(order: seq<Entry>, size: nat, period: nat, dev: Device, frame: nat, mask: set<nat>)
  {
    period != 0 && forall f {:trigger FrameFree(order, dev, f, mask)} :: 0 <= f < size && Visits(frame, period, f) ==>
      FrameFree(order, dev, f, mask)
  }

  /** A mask kept in an 8-bit variable loses its higher bits. */
  function Bits8(m: set<nat>): set<nat>
  {
    set u | u in m && u < 8
  }

  /** The two microframes of the complete split, as far as they fit the 8-bit mask. */
  function CMask(uframe: nat, gap: nat): set<nat>
  {
    Bits8({uframe + gap, uframe + gap + 1})
  }

  /** The scheduling masks that go with microframe `uframe`. */
  function CMaskOf(qh: Qh, uframe: nat): set<nat>
  {
    if qh.cUsecs == 0 then {} else CMask(uframe, qh.gapUf)
  }

  /** The slot can carry the queue head. */
  ghost predicate Admissible(order: seq<Entry>, itds: seq<seq<Itd>>, max: nat, qh: Qh, frame: nat, uframe: nat)
  {
    && PeriodFree(order, itds, max, frame, uframe, qh.period, qh.usecs)
    && (qh.cUsecs != 0 ==>
          && uframe < 6
          && TtFree(order, |itds|, qh.period, qh.dev, frame, CMask(uframe, qh.gapUf) + {uframe})
          && PeriodFree(order, itds, max, frame, uframe + qh.gapUf + 1, qh.period, qh.cUsecs)
          && PeriodFree(order, itds, max, frame, uframe + qh.gapUf, qh.period, qh.cUsecs))
  }

  /** Stepping through the frames of a slot. */
  lemma VisitNext(frame: nat, period: nat, f: nat)
    requires Visits(frame, period, f)
    ensures var step := if period == 0 then 1 else period;
      Visits(frame, period, f + step) && forall g: nat :: f < g < f + step ==> !Visits(frame, period, g)
  {
    var step := if period == 0 then 1 else period;
    ResidueIsMod(f, step);
    ResidueIsMod(f + step, step);
    StepResidue(f, step, frame);
    forall g: nat | f < g < f + step
      ensures !Visits(frame, period, g)
    {
      ResidueIsMod(g, step);
    }
  }

  /** A slot's first frame is the least it visits. */
  lemma VisitFirst(frame: nat, period: nat)
    requires frame < if period == 0 then 1 else period
    ensures Visits(frame, period, frame)
    ensures forall f: nat :: f < frame ==> !Visits(frame, period, f)
  {
  }

  /** Can the slot spare `usecs` at the given microframe in each of its frames? */
  method CheckPeriod(s: Schedule, frame0: nat, uframe: nat, period: nat, usecs: nat) returns (ok: bool)
    requires s.Valid() && frame0 < s.size && frame0 < if period == 0 then 1 else period
    ensures ok <==> PeriodFree(s.order, s.itds, s.uframeMax, frame0, uframe, period, usecs)
  {
    // microframes from 8 on belong to another frame
    if uframe >= 8 {
      return false;
    }
    // what may be claimed at most, in 32 bits
    var spare := (s.uframeMax - usecs) % 0x1_0000_0000;
    var frame := frame0;
    var step := if period == 0 then 1 else period;
    assert s.size == |s.itds|;
    VisitFirst(frame0, period);
    hide Schedule.Valid, Load, Visits;
    while frame < s.size
      invariant Visits(frame0, period, frame)
      invariant forall f :: 0 <= f < |s.itds| && f < frame && Visits(frame0, period, f) ==>
        FrameRoom(s.order, s.itds, s.uframeMax, f, uframe, period, usecs)
      decreases s.size - frame
    {
      // all microframes, but for the last
      if period == 0 {
        var u := 0;
        while u < 7
          invariant 0 <= u <= 7
          invariant forall v :: 0 <= v < u ==> RoomAt(s.order, s.itds, s.uframeMax, frame, v, usecs)
        {
          var claimed := PeriodicUsecs(s, frame, u);
          if claimed > spare {
            assert !RoomAt(s.order, s.itds, s.uframeMax, frame, u, usecs);
            return false;
          }
          u := u + 1;
        }
      } else {
        // one microframe of each frame visited
        var claimed := PeriodicUsecs(s, frame, uframe);
        if claimed > spare {
          return false;
        }
      }
      VisitNext(frame0, period, frame);
      frame := frame + step;
    }
    return true;
  }

  /** Going on to the next entry that fires. */
  lemma FreeNext(order: seq<Entry>, dev: Device, f: nat, mask: set<nat>, pos: nat)
    requires pos <= |order| && FreeBefore(order, dev, f, mask, pos)
    ensures var m := NextIdx(order, pos, f, |order|);
      if m == |order| then FrameFree(order, dev, f, mask)
      else if Collides(order[m], dev, mask) then !FrameFree(order, dev, f, mask)
      else FreeBefore(order, dev, f, mask, m + 1)
  {
  }

  /** The collision test on a linked node and on the entry that describes it agree. */
  lemma NodeMasks(s: Schedule, m: nat, dev: Device, mask: set<nat>)
    requires s.Valid() && m < |s.order|
    ensures var q := s.order[m].qh;
      Collides(s.order[m], dev, mask) <==> SameTt(dev, q.dev) && (q.smask + q.cmask) * mask != {}
  {
  }

  /** A reader of the frame holds an ITD, or the next entry that fires, or nothing more fires. */
  lemma TtMeet(s: Schedule, dev: Device, f: nat, mask: set<nat>, t: nat, pos: nat, prev: Place, here: Shadow)
      returns (m: nat)
    requires s.Valid() && f < s.size && s.CursorAt(f, t, pos, prev, here)
    requires f < |s.itds| && t <= |s.itds[f]| && pos <= |s.order| && FreeBefore(s.order, dev, f, mask, pos)
    ensures t < |s.itds[f]| ==>
      here.ItdRef? && NextType(s.LinkAt(prev)) == TypeItd
        && s.CursorAt(f, t + 1, 0, InItd(here.itd), here.itd.itdNext) && pos == 0
    ensures t == |s.itds[f]| && here == Null ==> FrameFree(s.order, dev, f, mask)
    ensures t == |s.itds[f]| && here != Null ==>
      && here.QhRef? && NextType(s.LinkAt(prev)) != TypeItd && pos <= m < |s.order|
      && s.CursorAt(f, t, m + 1, InQh(here.qh), here.qh.qhNext)
      && if SameTt(dev, here.qh.dev) && (here.qh.smask + here.qh.cmask) * mask != {} then
           !FrameFree(s.order, dev, f, mask)
         else
           FreeBefore(s.order, dev, f, mask, m + 1)
  {
    hide FrameFree, FreeBefore, Collides, SameTt, NextIdx, Schedule.Valid, Schedule.CursorAt;
    FrameItds(s);
    IndexBelow(s.order, pos, f);
    m := NextIdx(s.order, pos, f, |s.order|);
    if t < |s.itds[f]| {
      s.CursorItd(f, t, pos, prev, here);
    } else {
      s.CursorTree(f, t, pos, prev, here);
      FreeNext(s.order, dev, f, mask, pos);
      if here != Null {
        NodeMasks(s, m, dev, mask);
      }
    }
  }

  lemma TableSizes(s: Schedule)
    requires s.Valid()
    ensures s.pshadow.Length == s.size && s.periodic.Length == s.size
  {
  }

  /** One frame of tt_no_collision. */
  method TtFrameFree(s: Schedule, dev: Device, frame: nat, mask: set<nat>) returns (ok: bool)
    requires s.Valid() && frame < s.size
    ensures ok <==> FrameFree(s.order, dev, frame, mask)
  {
    assert FreeBefore(s.order, dev, frame, mask, 0);
    assert s.pshadow.Length == s.size && s.periodic.Length == s.size by { TableSizes(s); }
    hide Schedule.Valid, Schedule.CursorAt, NextIdx, FrameFree, FreeBefore, Collides, SameTt, Mirror;
    var prev := Slot(frame);
    var here := s.pshadow[frame];
    ghost var t: nat, pos: nat := 0, 0;
    FrameItds(s);
    s.CursorBegins(frame);
    while here != Null
      invariant t <= |s.itds[frame]| && pos <= |s.order| && s.CursorAt(frame, t, pos, prev, here)
      invariant FreeBefore(s.order, dev, frame, mask, pos)
      decreases |s.itds[frame]| - t, |s.order| - pos
    {
      ghost var m := TtMeet(s, dev, frame, mask, t, pos, prev, here);
      if NextType(s.LinkAt(prev)) == TypeItd {
        prev := InItd(here.itd);
        here := here.itd.itdNext;
        t, pos := t + 1, 0;
      } else {
        if SameTt(dev, here.qh.dev) && (here.qh.smask + here.qh.cmask) * mask != {} {
          return false;
        }
        prev := InQh(here.qh);
        here := here.qh.qhNext;
        pos := m + 1;
      }
    }
    ghost var m := TtMeet(s, dev, frame, mask, t, pos, prev, here);
    return true;
  }

  /** Is the device's transaction translator available in every frame of the slot? */
  method TtNoCollision(s: Schedule, period: nat, dev: Device, frame0: nat, mask: set<nat>) returns (ok: bool)
    requires s.Valid() && frame0 < s.size && frame0 < if period == 0 then 1 else period
    ensures ok <==> TtFree(s.order, s.size, period, dev, frame0, mask)
  {
    if period == 0 {
      return false;
    }
    var frame := frame0;
    VisitFirst(frame0, period);
    hide Schedule.Valid, Visits, FrameFree;
    while frame < s.size
      invariant Visits(frame0, period, frame)
      invariant forall f {:trigger FrameFree(s.order, dev, f, mask)} ::
        0 <= f < s.size && f < frame && Visits(frame0, period, f) ==> FrameFree(s.order, dev, f, mask)
    {
      var free := TtFrameFree(s, dev, frame, mask);
      if !free {
        return false;
      }
      VisitNext(frame0, period, frame);
      frame := frame + period;
    }
    return true;
  }

  /** The complete splits go into the two microframes behind the gap, and both are in the same frame. */
  lemma CompleteSplits(order: seq<Entry>, itds: seq<seq<Itd>>, max: nat, qh: Qh, frame: nat, uframe: nat)
    requires Admissible(order, itds, max, qh, frame, uframe)
    ensures qh.cUsecs != 0 ==>
      uframe + qh.gapUf + 1 < 8 && CMaskOf(qh, uframe) == {uframe + qh.gapUf, uframe + qh.gapUf + 1}
    ensures qh.cUsecs == 0 ==> CMaskOf(qh, uframe) == {}
  {
    hide FrameRoom, TtFree;
  }

  /** The claims of microframe `u` and a transaction of `usecs` fit the limit. */
  ghost predicate Fits(order: seq<Entry>, itds: seq<seq<Itd>>, max: nat, f: nat, u: nat, usecs: nat)
    requires f < |itds|
  {
    Load(order, itds, f, u) + usecs <= max
  }

  /** No queue head behind the same translator, or behind the same port of it if its ports are separate,
      has a start or a complete split in microframe `u` of frame `f`. */
  ghost predicate TtSilent(order: seq<Entry>, dev: Device, f: nat, u: nat)
  {
    dev.Behind? ==> forall a {:trigger order[a]} :: 0 <= a < |order| ==>
      var e := order[a];
      (&& f % Stride(e.qh) == e.start && e.qh.dev.Behind? && e.qh.dev.tt == dev.tt
       && (dev.tt.multi ==> e.qh.dev.ttport == dev.ttport)) ==> u !in e.smask && u !in e.cmask
  }

  /** What a slot has to offer in frame `f`: room for the start of the transaction, and for a split one
      silence of the translator in the three microframes it uses, and room for the complete split in both
      of its microframes. */
  ghost predicate Offers(order: seq<Entry>, itds: seq<seq<Itd>>, max: nat, qh: Qh, f: nat, uframe: nat)
    requires f < |itds|
  {
    && (if qh.period == 0 then forall u :: 0 <= u < 7 ==> Fits(order, itds, max, f, u, qh.usecs)
        else Fits(order, itds, max, f, uframe, qh.usecs))
    && (qh.cUsecs != 0 ==>
          && Fits(order, itds, max, f, uframe + qh.gapUf, qh.cUsecs)
          && Fits(order, itds, max, f, uframe + qh.gapUf + 1, qh.cUsecs)
          && TtSilent(order, qh.dev, f, uframe) && TtSilent(order, qh.dev, f, uframe + qh.gapUf)
          && TtSilent(order, qh.dev, f, uframe + qh.gapUf + 1))
  }

  /** Nothing wraps: the parts of the claim are within the limit, and no microframe claims 65536
      microseconds. */
  ghost predicate NothingWraps(order: seq<Entry>, itds: seq<seq<Itd>>, max: nat, qh: Qh)
  {
    && qh.usecs <= max < 0x8000 && qh.cUsecs <= max
    && forall f, u :: 0 <= f < |itds| && 0 <= u < 8 ==> Load(order, itds, f, u) < 0x1_0000
  }

  /** Exactly the slots that offer all that in each of their frames can carry the queue head; a split
      transaction starts before microframe 6, ends in the same frame, and has a period. */
  lemma AdmissibleMeans(order: seq<Entry>, itds: seq<seq<Itd>>, max: nat, qh: Qh, frame: nat, uframe: nat)
    requires NothingWraps(order, itds, max, qh)
    ensures Admissible(order, itds, max, qh, frame, uframe) <==>
      && uframe < 8
      && (qh.cUsecs != 0 ==> uframe < 6 && uframe + qh.gapUf + 1 < 8 && qh.period != 0)
      && forall f {:trigger Offers(order, itds, max, qh, f, uframe)} ::
           0 <= f < |itds| && f % (if qh.period == 0 then 1 else qh.period) == frame ==>
             Offers(order, itds, max, qh, f, uframe)
  {
    hide Load, Visits, NothingWraps;
    var inTime := qh.cUsecs != 0 ==> uframe < 6 && uframe + qh.gapUf + 1 < 8 && qh.period != 0;
    if uframe < 8 && inTime {
      forall f | 0 <= f < |itds|
        ensures Offers(order, itds, max, qh, f, uframe) <==> SlotAt(order, itds, max, qh, f, uframe)
        ensures Visits(frame, qh.period, f) <==> f % (if qh.period == 0 then 1 else qh.period) == frame
      {
        VisitsMeans(frame, qh.period, f);
        OffersSlot(order, itds, max, qh, f, uframe);
      }
      SlotsAll(order, itds, max, qh, frame, uframe);
    }
  }

  lemma VisitsMeans(frame: nat, period: nat, f: nat)
    ensures Visits(frame, period, f) <==> f % (if period == 0 then 1 else period) == frame
  {
    ResidueIsMod(f, if period == 0 then 1 else period);
  }

  /** The parts of Admissible for one frame. */
  ghost predicate SlotAt(order: seq<Entry>, itds: seq<seq<Itd>>, max: nat, qh: Qh, f: nat, uframe: nat)
    requires f < |itds|
  {
    && FrameRoom(order, itds, max, f, uframe, qh.period, qh.usecs)
    && (qh.cUsecs != 0 ==>
          && FrameRoom(order, itds, max, f, uframe + qh.gapUf, qh.period, qh.cUsecs)
          && FrameRoom(order, itds, max, f, uframe + qh.gapUf + 1, qh.period, qh.cUsecs)
          && FrameFree(order, qh.dev, f, CMask(uframe, qh.gapUf) + {uframe}))
  }

  lemma SlotsAll(order: seq<Entry>, itds: seq<seq<Itd>>, max: nat, qh: Qh, frame: nat, uframe: nat)
    requires uframe < 8 && (qh.cUsecs != 0 ==> uframe < 6 && uframe + qh.gapUf + 1 < 8 && qh.period != 0)
    ensures Admissible(order, itds, max, qh, frame, uframe) <==>
      forall f {:trigger SlotAt(order, itds, max, qh, f, uframe)} ::
        0 <= f < |itds| && Visits(frame, qh.period, f) ==> SlotAt(order, itds, max, qh, f, uframe)
  {
    hide FrameRoom, FrameFree, Visits, CMask;
    if forall f {:trigger SlotAt(order, itds, max, qh, f, uframe)} ::
      0 <= f < |itds| && Visits(frame, qh.period, f) ==> SlotAt(order, itds, max, qh, f, uframe) {
      forall f | 0 <= f < |itds| && Visits(frame, qh.period, f)
        ensures SlotAt(order, itds, max, qh, f, uframe)
      {
      }
    }
  }

  lemma OffersSlot(order: seq<Entry>, itds: seq<seq<Itd>>, max: nat, qh: Qh, f: nat, uframe: nat)
    requires NothingWraps(order, itds, max, qh) && f < |itds| && uframe < 8
    requires qh.cUsecs != 0 ==> uframe < 6 && uframe + qh.gapUf + 1 < 8 && qh.period != 0
    ensures Offers(order, itds, max, qh, f, uframe) <==> SlotAt(order, itds, max, qh, f, uframe)
  {
    hide Load;
    forall u | 0 <= u < 8
      ensures RoomAt(order, itds, max, f, u, qh.usecs) <==> Fits(order, itds, max, f, u, qh.usecs)
      ensures RoomAt(order, itds, max, f, u, qh.cUsecs) <==> Fits(order, itds, max, f, u, qh.cUsecs)
    {
      RoomMeans(order, itds, max, f, u, qh.usecs);
      RoomMeans(order, itds, max, f, u, qh.cUsecs);
    }
    if qh.cUsecs != 0 {
      var a, b := uframe + qh.gapUf, uframe + qh.gapUf + 1;
      assert CMask(uframe, qh.gapUf) + {uframe} == {uframe, a, b};
      FreeMeans(order, qh.dev, f, uframe, a, b);
    }
    hide RoomAt, Fits, TtSilent, FrameFree, CMask, NothingWraps;
  }

  /** Without wrapping the comparison says what it should. */
  lemma RoomMeans(order: seq<Entry>, itds: seq<seq<Itd>>, max: nat, f: nat, u: nat, usecs: nat)
    requires f < |itds| && usecs <= max < 0x8000 && Load(order, itds, f, u) < 0x1_0000
    ensures RoomAt(order, itds, max, f, u, usecs) <==> Load(order, itds, f, u) + usecs <= max
  {
    hide Load;
  }

  lemma FreeMeans(order: seq<Entry>, dev: Device, f: nat, u: nat, v: nat, w: nat)
    ensures FrameFree(order, dev, f, {u, v, w}) <==>
      TtSilent(order, dev, f, u) && TtSilent(order, dev, f, v) && TtSilent(order, dev, f, w)
  {
    forall a | 0 <= a < |order|
      ensures Fires(order[a], f) <==> f % Stride(order[a].qh) == order[a].start
      ensures Collides(order[a], dev, {u, v, w}) <==>
        && SameTt(dev, order[a].qh.dev)
        && var m := order[a].smask + order[a].cmask; (u in m || v in m || w in m)
    {
      FiresMeaning(order[a], f);
      MeetMeans(order[a].smask + order[a].cmask, u, v, w);
    }
    hide Fires, Collides;
  }

  lemma MeetMeans(m: set<nat>, u: nat, v: nat, w: nat)
    ensures m * {u, v, w} != {} <==> u in m || v in m || w in m
  {
    if u in m { assert u in m * {u, v, w}; }
    if v in m { assert v in m * {u, v, w}; }
    if w in m { assert w in m * {u, v, w}; }
  }

  /** Does the slot fit?  If so, with which C-mask? */
  method CheckIntrSchedule(s: Schedule, frame: nat, uframe: nat, qh: Qh) returns (ok: bool, cmask: set<nat>)
    requires s.Valid() && frame < s.size && frame < Stride(qh)
    ensures ok <==> Admissible(s.order, s.itds, s.uframeMax, qh, frame, uframe)
    ensures ok ==> cmask == CMaskOf(qh, uframe)
    ensures ok && qh.cUsecs != 0 ==>
      uframe + qh.gapUf + 1 < 8 && cmask == {uframe + qh.gapUf, uframe + qh.gapUf + 1}
    ensures ok && qh.cUsecs == 0 ==> cmask == {}
  {
    ok, cmask := false, {};
    assert |s.itds| == s.size;
    if Admissible(s.order, s.itds, s.uframeMax, qh, frame, uframe) {
      CompleteSplits(s.order, s.itds, s.uframeMax, qh, frame, uframe);
    }
    hide Schedule.Valid, PeriodFree, TtFree;
    if qh.cUsecs != 0 && uframe >= 6 {
      return;
    }
    var free := CheckPeriod(s, frame, uframe, qh.period, qh.usecs);
    if !free {
      return;
    }
    if qh.cUsecs == 0 {
      ok := true;
      return;
    }
    var mask := CMask(uframe, qh.gapUf);
    cmask := mask;
    mask := mask + {uframe};
    free := TtNoCollision(s, qh.period, qh.dev, frame, mask);
    if free {
      free := CheckPeriod(s, frame, uframe + qh.gapUf + 1, qh.period, qh.cUsecs);
      if !free {
        return;
      }
      free := CheckPeriod(s, frame, uframe + qh.gapUf, qh.period, qh.cUsecs);
      if !free {
        return;
      }
      ok := true;
    }
  }

  /** No microframe of the slot's frames fits. */
  ghost predicate NoneAt(order: seq<Entry>, itds: seq<seq<Itd>>, max: nat, qh: Qh, frame: nat)
  {
    forall u :: 0 <= u < 8 ==> !Admissible(order, itds, max, qh, frame, u)
  }

  /** No earlier one does. */
  ghost predicate NoneBelow(order: seq<Entry>, itds: seq<seq<Itd>>, max: nat, qh: Qh, frame: nat, uframe: nat)
  {
    forall u :: 0 <= u < uframe ==> !Admissible(order, itds, max, qh, frame, u)
  }

  /** The `j`-th frame the rolling counter proposes. */
  function Candidate(r: nat, j: nat, period: nat): nat
    requires period > 0
  {
    (r + j) % period
  }

  /** Some slot of the schedule can carry the queue head. */
  ghost predicate SomeSlot(order: seq<Entry>, itds: seq<seq<Itd>>, max: nat, qh: Qh)
  {
    if qh.period == 0 then Admissible(order, itds, max, qh, 0, 0)
    else exists f :: 0 <= f < qh.period && !NoneAt(order, itds, max, qh, f)
  }

  /** The masks go with the start: none before the first scheduling, later those of the slot found. */
  ghost predicate MasksOk(e: Entry)
  {
    && (e.qh.period != 0 && e.start < e.qh.period ==>
          exists u :: 0 <= u < 8 && e.smask == {u} && e.cmask == CMaskOf(e.qh, u))
    && (e.qh.period == 0 && e.start == 0 ==> e.smask == AllUframes() && e.cmask == {})
  }

  function AllUframes(): set<nat>
  {
    {0, 1, 2, 3, 4, 5, 6, 7}
  }

  /** ffs of the S-mask less one, as an unsigned number. */
  function FirstUframe(smask: set<nat>): nat
  {
    if 0 in smask then 0 else if 1 in smask then 1 else if 2 in smask then 2 else if 3 in smask then 3
    else if 4 in smask then 4 else if 5 in smask then 5 else if 6 in smask then 6 else if 7 in smask then 7
    else 0xFFFF_FFFF
  }

  /** The microframe loop of qh_schedule: the first microframe of the frame that fits, or 8. */
  method ScanFrame(s: Schedule, qh: Qh, frame: nat) returns (ok: bool, uframe: nat, cmask: set<nat>)
    requires s.Valid() && qh.period != 0 && frame < qh.period && frame < s.size
    ensures ok ==>
      uframe < 8 && Admissible(s.order, s.itds, s.uframeMax, qh, frame, uframe) && cmask == CMaskOf(qh, uframe)
    ensures ok ==> NoneBelow(s.order, s.itds, s.uframeMax, qh, frame, uframe)
    ensures !ok ==> NoneAt(s.order, s.itds, s.uframeMax, qh, frame)
  {
    hide Schedule.Valid, Admissible;
    uframe := 0;
    while uframe < 8
      invariant 0 <= uframe <= 8
      invariant forall u :: 0 <= u < uframe ==> !Admissible(s.order, s.itds, s.uframeMax, qh, frame, u)
    {
      ok, cmask := CheckIntrSchedule(s, frame, uframe, qh);
      if ok {
        return;
      }
      uframe := uframe + 1;
    }
    ok, cmask := false, {};
  }

  /** Counting on from `r`, `period` consecutive numbers meet every residue. */
  lemma Covers(r: nat, period: nat, f: nat) returns (j: nat)
    requires f < period
    ensures 1 <= j <= period && Candidate(r, j, period) == f
  {
    var d := (f - (r + 1)) % period;
    j := d + 1;
    var q := (f - (r + 1)) / period;
    assert f - (r + 1) == q * period + d;
    assert r + j == -q * period + f;
    DivModUnique(r + j, period, -q, f);
  }

  /** Wrapping the 32-bit counter does not disturb the residues modulo a power of two. */
  lemma WrapKeepsResidue(x: nat, period: nat)
    requires IsPow2(period) && period <= 0x1_0000_0000
    ensures (x % 0x1_0000_0000) % period == x % period
  {
    TwoTo32();
    Pow2Divides(period, 0x1_0000_0000);
    ModNest(x, period, 0x1_0000_0000);
  }

  lemma TwoTo32()
    ensures IsPow2(0x1_0000_0000)
  {
    Pow2Product(0x10, 0x10);
    Pow2Product(0x100, 0x100);
    Pow2Product(0x1_0000, 0x1_0000);
  }

  /** The counter after `n` increments of an unsigned 32-bit variable. */
  function Counter(r: nat, n: nat): nat
  {
    if n == 0 then r else (r + n) % 0x1_0000_0000
  }

  lemma CounterStep(r: nat, n: nat, period: nat)
    requires IsPow2(period) && period <= 0x1_0000_0000
    ensures Counter(r, n + 1) == (Counter(r, n) + 1) % 0x1_0000_0000
    ensures Counter(r, n + 1) % period == Candidate(r, n + 1, period)
  {
    WrapKeepsResidue(r + n + 1, period);
  }

  /** The next frame to try. */
  method NextFrame(s: Schedule, period: nat) returns (frame: nat)
    requires s.Valid() && period > 0
    modifies s`randomFrame
    ensures s.Valid() && s.randomFrame == (old(s.randomFrame) + 1) % 0x1_0000_0000 && frame == s.randomFrame % period
  {
    s.randomFrame := (s.randomFrame + 1) % 0x1_0000_0000;
    frame := s.randomFrame % period;
  }

  /** First fit: frames in the order of the rolling counter, then microframes upward. */
  method FirstFit(s: Schedule, qh: Qh) returns (ok: bool, frame: nat, uframe: nat, cmask: set<nat>)
    requires s.Valid() && qh.period != 0 && PeriodOk(qh, s.size)
    modifies s`randomFrame
    ensures s.Valid()
    ensures ok ==> frame < qh.period && uframe < 8 && cmask == CMaskOf(qh, uframe)
    ensures ok ==> Admissible(s.order, s.itds, s.uframeMax, qh, frame, uframe)
    ensures ok ==> NoneBelow(s.order, s.itds, s.uframeMax, qh, frame, uframe)
    ensures !ok ==> forall f :: 0 <= f < qh.period ==> NoneAt(s.order, s.itds, s.uframeMax, qh, f)
  {
    assert IsPow2(qh.period) && qh.period <= s.size <= 0x1_0000_0000 by { assert s.size < NO_FRAME; }
    hide Admissible, NoneAt, NoneBelow, Counter, Candidate, Schedule.Valid, IsPow2, PeriodOk, CMaskOf;
    ok, frame, uframe, cmask := false, 0, 0, {};
    ghost var r := s.randomFrame;
    ghost var done: nat := 0;
    var i := qh.period;
    CounterZero(r);
    while !ok && i > 0
      invariant s.Valid() && i + done == qh.period
      invariant s.randomFrame == Counter(r, done)
      invariant ok ==> frame < qh.period && uframe < 8 && cmask == CMaskOf(qh, uframe)
      invariant ok ==> Admissible(s.order, s.itds, s.uframeMax, qh, frame, uframe)
      invariant ok ==> NoneBelow(s.order, s.itds, s.uframeMax, qh, frame, uframe)
      invariant !ok ==> forall j :: 1 <= j <= done ==>
        NoneAt(s.order, s.itds, s.uframeMax, qh, Candidate(r, j, qh.period))
      decreases i, !ok
    {
      CounterStep(r, done, qh.period);
      frame := NextFrame(s, qh.period);
      CandidateBelow(r, done + 1, qh.period);
      done := done + 1;
      ok, uframe, cmask := ScanFrame(s, qh, frame);
      i := i - 1;
    }
    if !ok {
      AllCovered(s.order, s.itds, s.uframeMax, qh, r);
    }
  }

  lemma CounterZero(r: nat)
    ensures Counter(r, 0) == r
  {
  }

  lemma CandidateBelow(r: nat, j: nat, period: nat)
    requires period > 0
    ensures Candidate(r, j, period) < period
  {
  }

  /** Having tried the candidates of a whole period, every frame has been tried. */
  lemma AllCovered(order: seq<Entry>, itds: seq<seq<Itd>>, max: nat, qh: Qh, r: nat)
    requires qh.period != 0
    requires forall j :: 1 <= j <= qh.period ==> NoneAt(order, itds, max, qh, Candidate(r, j, qh.period))
    ensures forall f :: 0 <= f < qh.period ==> NoneAt(order, itds, max, qh, f)
  {
    hide NoneAt, Candidate;
    forall f | 0 <= f < qh.period
      ensures NoneAt(order, itds, max, qh, f)
    {
      var j := Covers(r, qh.period, f);
    }
  }

  /** The entry a queue head gets in the slot found for it. */
  function Placed(qh: Qh, frame: nat, uframe: nat): Entry
  {
    Entry(qh, frame, if qh.period == 0 then AllUframes() else {uframe}, CMaskOf(qh, uframe))
  }

  /** `e` occupies a slot that can carry it. */
  ghost predicate Admitted(order: seq<Entry>, itds: seq<seq<Itd>>, max: nat, e: Entry)
  {
    && e.start < Stride(e.qh)
    && exists u :: 0 <= u < 8 && e == Placed(e.qh, e.start, u) && Admissible(order, itds, max, e.qh, e.start, u) &&
         (e.qh.period == 0 ==> u == 0)
  }

  lemma ReusedSlot(qh: Qh, e: Entry) returns (u: nat)
    requires e.qh == qh && e.start < qh.period && MasksOk(e)
    ensures u < 8 && u == FirstUframe(e.smask) && e == Placed(qh, e.start, u)
  {
    u :| 0 <= u < 8 && e.smask == {u} && e.cmask == CMaskOf(qh, u);
  }

  /** The slot the queue head had before can carry it again. */
  ghost predicate OldSlotFits(order: seq<Entry>, itds: seq<seq<Itd>>, max: nat, e: Entry)
  {
    e.start < e.qh.period && exists u :: e.smask == {u} && Admissible(order, itds, max, e.qh, e.start, u)
  }

  lemma OldSlot(order: seq<Entry>, itds: seq<seq<Itd>>, max: nat, e: Entry, u: nat)
    requires e.start < e.qh.period && e == Placed(e.qh, e.start, u)
    ensures OldSlotFits(order, itds, max, e) <==> Admissible(order, itds, max, e.qh, e.start, u)
  {
    hide Admissible;
    assert e.smask == {u};
    forall v | e.smask == {v}
      ensures v == u
    {
      assert v in e.smask;
    }
  }

  /** Does the previous slot still fit? */
  method Reuse(s: Schedule, qh: Qh) returns (ok: bool)
    requires s.Valid() && PeriodOk(qh, s.size) && MasksOk(s.EntryOf(qh))
    ensures ok ==> SomeSlot(s.order, s.itds, s.uframeMax, qh) && Admitted(s.order, s.itds, s.uframeMax, s.EntryOf(qh))
    ensures ok <==> OldSlotFits(s.order, s.itds, s.uframeMax, s.EntryOf(qh))
  {
    ok := false;
    hide Admissible, Schedule.Valid;
    if qh.start < qh.period {
      ghost var u := ReusedSlot(qh, s.EntryOf(qh));
      OldSlot(s.order, s.itds, s.uframeMax, s.EntryOf(qh), u);
      var cmask;
      ok, cmask := CheckIntrSchedule(s, qh.start, FirstUframe(qh.smask), qh);
      assert ok ==> !NoneAt(s.order, s.itds, s.uframeMax, qh, qh.start);
    }
  }

  /** Scan the schedule for a slot. */
  method Search(s: Schedule, qh: Qh) returns (ok: bool, frame: nat, uframe: nat, cmask: set<nat>)
    requires s.Valid() && PeriodOk(qh, s.size)
    modifies s`randomFrame
    ensures s.Valid()
    ensures ok <==> SomeSlot(s.order, s.itds, s.uframeMax, qh)
    ensures ok ==>
      && frame < Stride(qh) && uframe < 8 && cmask == CMaskOf(qh, uframe)
      && (qh.period == 0 ==> frame == 0 && uframe == 0)
    ensures ok ==> Admissible(s.order, s.itds, s.uframeMax, qh, frame, uframe)
    ensures ok ==> NoneBelow(s.order, s.itds, s.uframeMax, qh, frame, uframe)
  {
    hide Admissible;
    frame, uframe := 0, 0;
    if qh.period != 0 {
      ok, frame, uframe, cmask := FirstFit(s, qh);
      assert ok ==> !NoneAt(s.order, s.itds, s.uframeMax, qh, frame);
    } else {
      ok, cmask := CheckIntrSchedule(s, 0, 0, qh);
    }
  }

  lemma PlacedMasks(order: seq<Entry>, itds: seq<seq<Itd>>, max: nat, qh: Qh, frame: nat, uframe: nat)
    requires uframe < 8 && frame < Stride(qh) && Admissible(order, itds, max, qh, frame, uframe)
      && (qh.period == 0 ==> uframe == 0)
    ensures MasksOk(Placed(qh, frame, uframe))
  {
  }

  /** The entry has the first microframe of its frame that can carry it. */
  ghost predicate FirstOfFrame(order: seq<Entry>, itds: seq<seq<Itd>>, max: nat, e: Entry)
  {
    e.qh.period != 0 ==> forall u :: e.smask == {u} ==> NoneBelow(order, itds, max, e.qh, e.start, u)
  }

  lemma PlacedFirst(order: seq<Entry>, itds: seq<seq<Itd>>, max: nat, qh: Qh, frame: nat, uframe: nat)
    requires NoneBelow(order, itds, max, qh, frame, uframe)
    ensures FirstOfFrame(order, itds, max, Placed(qh, frame, uframe))
  {
    hide NoneBelow;
    if qh.period != 0 {
      forall u | Placed(qh, frame, uframe).smask == {u}
        ensures u == uframe
      {
        assert u in {uframe};
      }
    }
  }

  /** The masks of a queue head that was admitted: one microframe for the start, or all of them for period
      0, and the two behind the gap for the complete split of a split transaction. */
  ghost predicate MasksOfSlot(e: Entry)
  {
    && (e.qh.period == 0 ==> e.smask == {0, 1, 2, 3, 4, 5, 6, 7})
    && (e.qh.period != 0 ==> exists u {:trigger {u}} :: 0 <= u < 8 && e.smask == {u})
    && (e.qh.cUsecs == 0 ==> e.cmask == {})
    && (e.qh.cUsecs != 0 ==> forall u :: e.smask == {u} ==>
          u + e.qh.gapUf + 1 < 8 && e.cmask == {u + e.qh.gapUf, u + e.qh.gapUf + 1})
  }

  lemma AdmittedMasks(order: seq<Entry>, itds: seq<seq<Itd>>, max: nat, e: Entry)
    requires Admitted(order, itds, max, e)
    ensures MasksOfSlot(e)
  {
    var v :| 0 <= v < 8 && e == Placed(e.qh, e.start, v) && Admissible(order, itds, max, e.qh, e.start, v);
    CompleteSplits(order, itds, max, e.qh, e.start, v);
    hide Admissible;
    if e.qh.period != 0 {
      assert e.smask == {v};
    }
    forall u | e.smask == {u}
      ensures u in e.smask && (e.qh.period != 0 ==> u == v)
    {
      assert u in e.smask;
    }
    if e.qh.period == 0 {
      assert 0 in e.smask && 1 in e.smask;
    }
  }

  /** Find a slot, its own previous one first. */
  method FindSlot(s: Schedule, qh: Qh) returns (ok: bool)
    requires s.Valid() && s.NotLinked(qh) && qh !in s.nodes && PeriodOk(qh, s.size) && MasksOk(s.EntryOf(qh))
    modifies s`randomFrame, qh`start, qh`smask, qh`cmask
    ensures s.Valid() && MasksOk(s.EntryOf(qh))
    ensures ok <==> SomeSlot(s.order, s.itds, s.uframeMax, qh)
    ensures OldSlotFits(s.order, s.itds, s.uframeMax, old(s.EntryOf(qh))) ==> ok
    ensures ok ==> Admitted(s.order, s.itds, s.uframeMax, s.EntryOf(qh))
    ensures !ok || OldSlotFits(s.order, s.itds, s.uframeMax, old(s.EntryOf(qh))) ==> s.EntryOf(qh) == old(s.EntryOf(qh))
    ensures ok && !OldSlotFits(s.order, s.itds, s.uframeMax, old(s.EntryOf(qh))) ==>
      FirstOfFrame(s.order, s.itds, s.uframeMax, s.EntryOf(qh))
  {
    hide Admissible, MasksOk, SomeSlot, OldSlotFits;
    ok := Reuse(s, qh);
    if ok {
      return;
    }
    var frame, uframe, cmask;
    ok, frame, uframe, cmask := Search(s, qh);
    if ok {
      PlacedMasks(s.order, s.itds, s.uframeMax, qh, frame, uframe);
      PlacedFirst(s.order, s.itds, s.uframeMax, qh, frame, uframe);
      qh.start := frame;
      qh.smask := if qh.period != 0 then {uframe} else AllUframes();
      qh.cmask := cmask;
      assert s.EntryOf(qh) == Placed(qh, frame, uframe);
    }
  }

  /** The queue head is linked exactly when some slot can carry it, into a slot that can: its old one if
      that still can, otherwise the first one found.  If there is none, nothing in the schedule changes. */
  method QhSchedule(s: Schedule, qh: Qh) returns (ok: bool)
    requires s.Valid() && s.NotLinked(qh) && qh !in s.nodes && PeriodOk(qh, s.size) && MasksOk(s.EntryOf(qh))
    modifies s`order, s`links, s`nodes, s`randomFrame, s.nodes, qh
    ensures s.Valid() && MasksOk(s.EntryOf(qh))
    ensures ok <==> SomeSlot(old(s.order), s.itds, s.uframeMax, qh)
    ensures ok ==> Admitted(old(s.order), s.itds, s.uframeMax, s.EntryOf(qh)) && MasksOfSlot(s.EntryOf(qh))
    ensures OldSlotFits(old(s.order), s.itds, s.uframeMax, old(s.EntryOf(qh))) ==>
      ok && s.EntryOf(qh) == old(s.EntryOf(qh))
    ensures ok && !OldSlotFits(old(s.order), s.itds, s.uframeMax, old(s.EntryOf(qh))) ==>
      FirstOfFrame(old(s.order), s.itds, s.uframeMax, s.EntryOf(qh))
    ensures ok ==> s.order == Inserted(old(s.order), s.EntryOf(qh)) && s.nodes == old(s.nodes) + {qh}
    ensures !ok ==> s.order == old(s.order) && s.nodes == old(s.nodes) && s.EntryOf(qh) == old(s.EntryOf(qh))
  {
    assert s !in s.nodes;
    qh.hwNext := ListEnd;
    assert s.Valid();
    hide Schedule.Valid, MasksOk, SomeSlot, Admissible, OldSlotFits, FirstOfFrame, MasksOfSlot, Admitted;
    ok := FindSlot(s, qh);
    if ok {
      AdmittedMasks(s.order, s.itds, s.uframeMax, s.EntryOf(qh));
      s.QhLinkPeriodic(qh);
    }
  }
}
