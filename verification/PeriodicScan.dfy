/** Reading the periodic schedule: what a walk through one frame meets, and how much of a
    microframe is claimed. */
module PeriodicScan {
  import opened PeriodicNodes
  import opened PeriodicTree

  /** The rest of a frame list starts with the next entry that fires in the frame. */
  lemma {:induction false} FrameListFrom(order: seq<Entry>, pos: nat, f: nat)
    requires pos <= |order|
    ensures var m := NextIdx(order, pos, f, |order|);
      FrameList(order[pos..], f) == if m == |order| then [] else [order[m].qh] + FrameList(order[m + 1..], f)
    decreases |order| - pos
  {
    if pos < |order| {
      assert order[pos..][1..] == order[pos + 1..];
      if !Fires(order[pos], f) {
        FrameListFrom(order, pos + 1, f);
        assert NextIdx(order, pos, f, |order|) == NextIdx(order, pos + 1, f, |order|);
      }
    }
  }

  /** The hardware links that name these nodes in turn. */
  function Mirrors(l: seq<Shadow>): seq<Link>
  {
    seq(|l|, x requires 0 <= x < |l| => Mirror(l[x]))
  }

  lemma MirrorsAppend(l: seq<Shadow>, p: Shadow)
    ensures Mirrors(l + [p]) == Mirrors(l) + [Mirror(p)]
  {
  }

  ghost function ItdRefs(l: seq<Itd>): seq<Shadow>
  {
    seq(|l|, x requires 0 <= x < |l| => ItdRef(l[x]))
  }

  ghost function QhRefs(l: seq<Qh>): seq<Shadow>
  {
    seq(|l|, x requires 0 <= x < |l| => QhRef(l[x]))
  }

  /** Everything frame `f` must lead to: its ITDs, then its frame list. */
  ghost function FrameNodes(s: Schedule, f: nat): seq<Shadow>
    requires f < |s.itds|
    reads s
  {
    ItdRefs(s.itds[f]) + QhRefs(FrameList(s.order, f))
  }

  /** What a reader that has passed `t` ITDs and the entries before `pos` still has to meet. */
  ghost function Ahead(s: Schedule, f: nat, t: nat, pos: nat): seq<Shadow>
    requires f < |s.itds| && t <= |s.itds[f]| && pos <= |s.order|
    reads s
  {
    ItdRefs(s.itds[f][t..]) + QhRefs(FrameList(s.order[pos..], f))
  }

  ghost function Prepend(p: Shadow, l: seq<Shadow>): seq<Shadow>
  {
    [p] + l
  }

  lemma ItdRefsFrom(l: seq<Itd>, t: nat)
    requires t < |l|
    ensures ItdRefs(l[t..]) == [ItdRef(l[t])] + ItdRefs(l[t + 1..])
  {
  }

  lemma QhRefsCons(q: Qh, l: seq<Qh>)
    ensures QhRefs([q] + l) == [QhRef(q)] + QhRefs(l)
  {
  }

  lemma AheadItd(s: Schedule, f: nat, t: nat)
    requires f < |s.itds| && t < |s.itds[f]|
    ensures Ahead(s, f, t, 0) == [ItdRef(s.itds[f][t])] + Ahead(s, f, t + 1, 0)
  {
    ItdRefsFrom(s.itds[f], t);
  }

  lemma AheadTree(s: Schedule, f: nat, pos: nat)
    requires f < |s.itds| && pos <= |s.order|
    ensures var m := NextIdx(s.order, pos, f, |s.order|);
      Ahead(s, f, |s.itds[f]|, pos) ==
        if m == |s.order| then [] else [QhRef(s.order[m].qh)] + Ahead(s, f, |s.itds[f]|, m + 1)
  {
    FrameListFrom(s.order, pos, f);
    var m := NextIdx(s.order, pos, f, |s.order|);
    if m < |s.order| {
      QhRefsCons(s.order[m].qh, FrameList(s.order[m + 1..], f));
    }
    var n := |s.itds[f]|;
    assert s.itds[f][n..] == [];
    assert Ahead(s, f, n, pos) == QhRefs(FrameList(s.order[pos..], f));
    assert m < |s.order| ==> Ahead(s, f, n, m + 1) == QhRefs(FrameList(s.order[m + 1..], f));
  }

  lemma MeetItd(s: Schedule, f: nat, t: nat, pos: nat, prev: Place, here: Shadow)
    requires s.Valid() && f < s.size && s.CursorAt(f, t, pos, prev, here) && t < |s.itds[f]|
    ensures pos == 0 && here.ItdRef? && s.LinkAt(prev) == Mirror(here)
    ensures Ahead(s, f, t, pos) == Prepend(here, Ahead(s, f, t + 1, 0))
    ensures s.CursorAt(f, t + 1, 0, InItd(here.itd), here.itd.itdNext)
  {
    s.CursorItd(f, t, pos, prev, here);
    hide Schedule.Valid, Schedule.CursorAt, Ahead;
    AheadItd(s, f, t);
  }

  lemma IndexBelow(order: seq<Entry>, pos: nat, f: nat)
    requires pos <= |order|
    ensures pos <= NextIdx(order, pos, f, |order|) <= |order|
  {
  }

  lemma MeetTree(s: Schedule, f: nat, t: nat, pos: nat, prev: Place, here: Shadow) returns (m: nat)
    requires s.Valid() && f < s.size && s.CursorAt(f, t, pos, prev, here) && t >= |s.itds[f]|
    ensures t == |s.itds[f]| && pos <= |s.order| && s.LinkAt(prev) == Mirror(here) && !here.ItdRef?
    ensures m == NextIdx(s.order, pos, f, |s.order|)
    ensures here == Null ==> m == |s.order| && Ahead(s, f, t, pos) == []
    ensures here != Null ==>
      && m < |s.order| && here == QhRef(s.order[m].qh) && Ahead(s, f, t, pos) == Prepend(here, Ahead(s, f, t, m + 1))
      && s.CursorAt(f, t, m + 1, InQh(here.qh), here.qh.qhNext)
  {
    hide Schedule.Valid, Schedule.CursorAt, Ahead, NextIdx, Mirror, Schedule.LinkAt, Schedule.ShadowAt;
    FrameItds(s);
    s.CursorTree(f, t, pos, prev, here);
    m := NextIdx(s.order, pos, f, |s.order|);
    IndexBelow(s.order, pos, f);
    AheadTree(s, f, pos);
  }

  lemma FrameItds(s: Schedule)
    requires s.Valid()
    ensures |s.itds| == s.size
  {
  }

  /** The tag in the link that names a node leads a reader to that node's own links. */
  lemma TagLeads(s: Schedule, here: Shadow)
    requires here != Null
    ensures var next := NextPlace(here, NextType(Mirror(here)));
      if here.ItdRef? then next == InItd(here.itd) && s.ShadowAt(next) == here.itd.itdNext
      else next == InQh(here.qh) && s.ShadowAt(next) == here.qh.qhNext
  {
  }

  /** A reader holds the first node ahead of it, with the tag that tells its kind, or the null
      pointer when nothing is ahead. */
  lemma Meet(s: Schedule, f: nat, t: nat, pos: nat, prev: Place, here: Shadow) returns (t': nat, pos': nat)
    requires s.Valid() && f < s.size && s.CursorAt(f, t, pos, prev, here)
    ensures f < |s.itds| && t <= |s.itds[f]| && pos <= |s.order| && s.LinkAt(prev) == Mirror(here)
    ensures here == Null ==> Ahead(s, f, t, pos) == []
    ensures here != Null ==>
      var next := NextPlace(here, NextType(s.LinkAt(prev)));
      && t' <= |s.itds[f]| && pos' <= |s.order| && Ahead(s, f, t, pos) == Prepend(here, Ahead(s, f, t', pos'))
      && s.CursorAt(f, t', pos', next, s.ShadowAt(next))
  {
    FrameItds(s);
    if here != Null { TagLeads(s, here); }
    hide Schedule.Valid, Schedule.CursorAt, Ahead, NextIdx, Prepend, NextPlace, NextType, Mirror, Schedule.LinkAt,
      Schedule.ShadowAt;
    if t < |s.itds[f]| {
      MeetItd(s, f, t, pos, prev, here);
      t', pos' := t + 1, 0;
    } else {
      var m := MeetTree(s, f, t, pos, prev, here);
      t', pos' := t, m + 1;
    }
  }

  lemma Shift(done: seq<Shadow>, here: Shadow, rest: seq<Shadow>)
    ensures done + Prepend(here, rest) == (done + [here]) + rest
  {
  }

  /** Walk frame `f`, choosing each union member by the tag in the hardware link: the walk ends,
      having met the ITDs of the frame and then its frame list, each node once; and the hardware
      links read on the way name the same nodes and close with the end marker. */
  method WalkFrame(s: Schedule, f: nat) returns (visited: seq<Shadow>, words: seq<Link>)
    requires s.Valid() && f < s.size
    ensures visited == FrameNodes(s, f)
    ensures words == Mirrors(visited) + [ListEnd]
  {
    visited, words := [], [];
    var prev := Slot(f);
    var here := s.pshadow[f];
    ghost var t: nat, pos: nat := 0, 0;
    s.CursorBegins(f);
    assert Ahead(s, f, 0, 0) == FrameNodes(s, f) && f < |s.itds| && Mirrors([]) == [];
    hide Schedule.Valid, Schedule.CursorAt, Ahead, FrameNodes, Mirrors;
    while here != Null
      invariant t <= |s.itds[f]| && pos <= |s.order| && s.CursorAt(f, t, pos, prev, here)
      invariant visited + Ahead(s, f, t, pos) == FrameNodes(s, f)
      invariant words == Mirrors(visited)
      decreases |Ahead(s, f, t, pos)|
    {
      t, pos := Meet(s, f, t, pos, prev, here);
      Shift(visited, here, Ahead(s, f, t, pos));
      var link := s.LinkAt(prev);
      MirrorsAppend(visited, here);
      visited, words := visited + [here], words + [link];
      prev := NextPlace(here, NextType(link));
      here := s.ShadowAt(prev);
    }
    t, pos := Meet(s, f, t, pos, prev, here);
    words := words + [s.LinkAt(prev)];
  }

  /** What one entry claims of microframe `u` of the frames it fires in. */
  function Claim(e: Entry, u: nat): nat
  {
    (if u in e.smask then e.qh.usecs else 0) + (if u in e.cmask then e.qh.cUsecs else 0)
  }

  function QhLoad(order: seq<Entry>, f: nat, u: nat): nat
  {
    if order == [] then 0
    else (if Fires(order[0], f) then Claim(order[0], u) else 0) + QhLoad(order[1..], f, u)
  }

  function ItdLoad(l: seq<Itd>, u: nat): nat
  {
    if l == [] then 0 else (if u in l[0].active then l[0].usecs else 0) + ItdLoad(l[1..], u)
  }

  /** Microseconds of microframe `u` of frame `f` that are spoken for. */
  ghost function Load(order: seq<Entry>, itds: seq<seq<Itd>>, f: nat, u: nat): nat
    requires f < |itds|
  {
    ItdLoad(itds[f], u) + QhLoad(order, f, u)
  }

  lemma {:induction false} QhLoadFrom(order: seq<Entry>, pos: nat, f: nat, u: nat)
    requires pos <= |order|
    ensures var m := NextIdx(order, pos, f, |order|);
      QhLoad(order[pos..], f, u) == if m == |order| then 0 else Claim(order[m], u) + QhLoad(order[m + 1..], f, u)
    decreases |order| - pos
  {
    if pos < |order| {
      assert order[pos..][1..] == order[pos + 1..];
      if !Fires(order[pos], f) {
        QhLoadFrom(order, pos + 1, f, u);
        assert NextIdx(order, pos, f, |order|) == NextIdx(order, pos + 1, f, |order|);
      }
    }
  }

  /** What the node at hand claims of microframe `u`. */
  function NodeClaim(here: Shadow, u: nat): nat
    reads if here.QhRef? then {here.qh} else {}
  {
    match here
    case Null => 0
    case QhRef(q) => (if u in q.smask then q.usecs else 0) + (if u in q.cmask then q.cUsecs else 0)
    case ItdRef(i) => if u in i.active then i.usecs else 0
  }

  /** The load that a reader that has passed `t` ITDs and the entries before `pos` has not counted. */
  ghost function LoadAhead(s: Schedule, f: nat, u: nat, t: nat, pos: nat): nat
    requires f < |s.itds| && t <= |s.itds[f]| && pos <= |s.order|
    reads s
  {
    ItdLoad(s.itds[f][t..], u) + QhLoad(s.order[pos..], f, u)
  }

  lemma CountItd(s: Schedule, f: nat, u: nat, t: nat, pos: nat, prev: Place, here: Shadow)
    requires s.Valid() && f < s.size && s.CursorAt(f, t, pos, prev, here) && t < |s.itds[f]|
    ensures pos == 0 && here.ItdRef? && s.LinkAt(prev) == Mirror(here)
    ensures LoadAhead(s, f, u, t, pos) == NodeClaim(here, u) + LoadAhead(s, f, u, t + 1, 0)
    ensures s.CursorAt(f, t + 1, 0, InItd(here.itd), here.itd.itdNext)
  {
    s.CursorItd(f, t, pos, prev, here);
    hide Schedule.Valid, Schedule.CursorAt;
    assert s.itds[f][t..][1..] == s.itds[f][t + 1..];
  }

  /** What an entry's node claims is what the entry says. */
  lemma NodeEntry(s: Schedule, m: nat)
    requires s.Valid() && m < |s.order|
    ensures s.order[m].qh.smask == s.order[m].smask && s.order[m].qh.cmask == s.order[m].cmask
  {
  }

  lemma LoadTree(s: Schedule, f: nat, u: nat, pos: nat, m: nat)
    requires f < |s.itds| && pos <= |s.order| && m == NextIdx(s.order, pos, f, |s.order|)
    requires m < |s.order| ==> s.order[m].qh.smask == s.order[m].smask && s.order[m].qh.cmask == s.order[m].cmask
    ensures pos <= m <= |s.order|
    ensures var n := |s.itds[f]|;
      LoadAhead(s, f, u, n, pos) ==
        if m == |s.order| then 0 else NodeClaim(QhRef(s.order[m].qh), u) + LoadAhead(s, f, u, n, m + 1)
  {
    QhLoadFrom(s.order, pos, f, u);
    assert s.itds[f][|s.itds[f]|..] == [];
  }

  lemma CountTree(s: Schedule, f: nat, u: nat, t: nat, pos: nat, prev: Place, here: Shadow) returns (m: nat)
    requires s.Valid() && f < s.size && s.CursorAt(f, t, pos, prev, here) && t >= |s.itds[f]|
    ensures t == |s.itds[f]| && pos <= |s.order| && s.LinkAt(prev) == Mirror(here) && !here.ItdRef?
    ensures m == NextIdx(s.order, pos, f, |s.order|) && pos <= m
    ensures here == Null ==> m == |s.order| && LoadAhead(s, f, u, t, pos) == 0
    ensures here != Null ==>
      && m < |s.order| && here == QhRef(s.order[m].qh) && s.CursorAt(f, t, m + 1, InQh(here.qh), here.qh.qhNext)
      && LoadAhead(s, f, u, t, pos) == NodeClaim(here, u) + LoadAhead(s, f, u, t, m + 1)
  {
    hide Schedule.Valid, Schedule.CursorAt, NextIdx, LoadAhead, NodeClaim, Mirror, Schedule.LinkAt, Schedule.ShadowAt;
    FrameItds(s);
    s.CursorTree(f, t, pos, prev, here);
    m := NextIdx(s.order, pos, f, |s.order|);
    if m < |s.order| { NodeEntry(s, m); }
    LoadTree(s, f, u, pos, m);
  }

  /** One step of a reader that counts. */
  lemma Count(s: Schedule, f: nat, u: nat, t: nat, pos: nat, prev: Place, here: Shadow) returns (t': nat, pos': nat)
    requires s.Valid() && f < s.size && s.CursorAt(f, t, pos, prev, here)
    ensures f < |s.itds| && t <= |s.itds[f]| && pos <= |s.order| && s.LinkAt(prev) == Mirror(here)
    ensures here == Null ==> LoadAhead(s, f, u, t, pos) == 0
    ensures here != Null ==>
      var next := NextPlace(here, NextType(s.LinkAt(prev)));
      && t <= t' <= |s.itds[f]| && pos' <= |s.order| && (t < t' || pos < pos')
      && LoadAhead(s, f, u, t, pos) == NodeClaim(here, u) + LoadAhead(s, f, u, t', pos')
      && s.CursorAt(f, t', pos', next, s.ShadowAt(next))
  {
    hide *;
    FrameItds(s);
    if here != Null { TagLeads(s, here); }
    if t < |s.itds[f]| {
      CountItd(s, f, u, t, pos, prev, here);
      t', pos' := t + 1, 0;
    } else {
      var m := CountTree(s, f, u, t, pos, prev, here);
      t', pos' := t, m + 1;
    }
  }

  /** How many of the microframe's 125 microseconds are allocated, as an unsigned short. */
  method PeriodicUsecs(s: Schedule, frame: nat, uframe: nat) returns (claimed: nat)
    requires s.Valid() && frame < s.size
    ensures claimed == Load(s.order, s.itds, frame, uframe) % 0x1_0000
  {
    var prev := Slot(frame);
    var q := s.pshadow[frame];
    var usecs := 0;
    ghost var t: nat, pos: nat := 0, 0;
    s.CursorBegins(frame);
    assert frame < |s.itds| && LoadAhead(s, frame, uframe, 0, 0) == Load(s.order, s.itds, frame, uframe);
    hide Schedule.Valid, Schedule.CursorAt, LoadAhead, Load;
    while q != Null
      invariant t <= |s.itds[frame]| && pos <= |s.order| && s.CursorAt(frame, t, pos, prev, q)
      invariant usecs + LoadAhead(s, frame, uframe, t, pos) == Load(s.order, s.itds, frame, uframe)
      decreases |s.itds[frame]| - t, |s.order| - pos
    {
      t, pos := Count(s, frame, uframe, t, pos, prev, q);
      if NextType(s.LinkAt(prev)) == TypeQh {
        // start split
        if uframe in q.qh.smask {
          usecs := usecs + q.qh.usecs;
        }
        // complete split
        if uframe in q.qh.cmask {
          usecs := usecs + q.qh.cUsecs;
        }
        prev := InQh(q.qh);
        q := q.qh.qhNext;
      } else {
        if uframe in q.itd.active {
          usecs := usecs + q.itd.usecs;
        }
        prev := InItd(q.itd);
        q := q.itd.itdNext;
      }
    }
    t, pos := Count(s, frame, uframe, t, pos, prev, q);
    claimed := usecs % 0x1_0000;
  }
}
