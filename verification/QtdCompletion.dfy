/** Completions: taking finished, faulted and cancelled descriptors off a queue, and giving requests
    back.  A transition system: each pass over the queue goes descriptor by descriptor, and while a
    request is given back the lock is dropped, so requests can be queued and cancelled meanwhile.  The
    controller finishes descriptors in queue order and stops for good at a halted one. */
module QtdCompletion {
  import opened Wrappers

  type Urb = nat

  datatype Pid = Out | In | Setup

  /** A queued descriptor: its address, its request, how many bytes it was to transfer, and whether its
      alternate link ends the list (otherwise a short read stops the queue). */
  datatype Td = Td(id: nat, urb: Urb, length: nat, pid: Pid, altEnd: bool)

  /** Status bits, retries and residue of a token. */
  datatype Token = Token(
    active: bool, halt: bool, babble: bool, mmf: bool, dbe: bool, xact: bool, cerr: nat, residue: nat)

  datatype Status = InProgress | RemoteIo | Overflow | Pipe | Proto | NoSr | Comm | Shutdown

  datatype Given = Given(urb: Urb, status: Status, actual: int)

  /** Where qh_completions is. */
  datatype Pc = Outside | Loop | Ended | After

  const XACTERR_MAX: nat := 32
  const TUNE_CERR: nat := 3

  /** The queue: entries this pass has skipped, the one it removed and has not freed, those it will look
      at, and those queued since the call began. */
  datatype Lists = Lists(kept: seq<Td>, last: Option<Td>, todo: seq<Td>, later: seq<Td>)

  /** What the controller sees: tokens, links, the overlay of the queue head, and the dummy. */
  datatype Hw = Hw(token: map<nat, Token>, hwNext: map<nat, nat>, overlay: Option<nat>, overlayToken: Token, dummy: nat)

  /** Requests: transfer_buffer_length, actual_length, which are cancelled, and what was given back. */
  datatype Requests = Requests(total: map<Urb, nat>, actual: map<Urb, int>, unlinked: set<Urb>, given: seq<Given>)

  /** Locals and flags of the call: `idle` if the queue head was idle when it began, `running` if
      rh_state is at least RUNNING, `dropped` while a giveback is in progress. */
  datatype Call = Call(
    idle: bool, running: bool, stopped: bool, needsRescan: bool, xacterrs: nat, status: Status, pc: Pc, dropped: bool,
    end: nat)

  datatype State = State(
    l: Lists,
    hw: Hw,
    rq: Requests,
    c: Call,
    freed: seq<nat>,
    start: seq<Td>,   // the queue when this pass began
    mark: nat)        // how many had been given back by then

  function Seq(o: Option<Td>): seq<Td>
  {
    if o.Some? then [o.value] else []
  }

  function Queue(l: Lists): seq<Td>
  {
    l.kept + l.todo + l.later
  }

  /** The queue with the entry that was just removed still in its place. */
  function Whole(l: Lists): seq<Td>
  {
    l.kept + Seq(l.last) + l.todo + l.later
  }

  /** qtd_copy_status, and what the caller makes of a short read that does not stop the queue. */
  function CopyStatus(td: Td, t: Token, unlinked: bool): Status
  {
    var status :=
      if unlinked then InProgress
      else if t.halt then
        if t.babble then Overflow
        else if t.cerr != 0 then Pipe
        else if t.mmf then Proto
        else if t.dbe then (if td.pid == In then NoSr else Comm)
        else Proto
      else if t.residue != 0 && td.pid == In then RemoteIo
      else InProgress;
    if status == RemoteIo && td.altEnd then InProgress else status
  }

  /** Bytes counted for a descriptor: not those of SETUP. */
  function Transferred(td: Td, t: Token): int
  {
    if td.pid == Setup then 0 else td.length - t.residue
  }

  function Actual(rq: Requests, u: Urb): int
  {
    if u in rq.actual then rq.actual[u] else 0
  }

  /** A transaction error that is retried. */
  predicate Retries(s: State, td: Td, t: Token)
  {
    CountsRetry(t) && s.c.xacterrs + 1 < XACTERR_MAX && td.urb !in s.rq.unlinked
  }

  predicate CountsRetry(t: Token)
  {
    !t.active && t.halt && t.xact && t.cerr == 0
  }

  /** The controller has gone on past a descriptor, or has stopped at it. */
  predicate Finished(t: Token)
  {
    !t.active && !t.halt
  }

  predicate Halted(t: Token)
  {
    !t.active && t.halt
  }

  function TokenOf(hw: Hw, id: nat): Token
  {
    if id in hw.token then hw.token[id] else Token(true, false, false, false, false, false, 0, 0)
  }

  /** The token is reset in the descriptor and in the overlay. */
  function Retry(s: State, td: Td): State
  {
    var t := TokenOf(s.hw, td.id);
    var again := t.(halt := false, active := true, cerr := TUNE_CERR);
    s.(c := s.c.(xacterrs := if CountsRetry(t) then s.c.xacterrs + 1 else s.c.xacterrs),
       hw := if Retries(s, td, t) then s.hw.(token := s.hw.token[td.id := again], overlayToken := again) else s.hw)
  }

  /** What one look decides about the entry under the cursor, given its token. */
  datatype Verdict = Stop | Skip | Take(token: Token, stops: bool, status: Status)

  function Judge(s: State, td: Td): Verdict
  {
    var t := TokenOf(s.hw, td.id);
    if !t.active then Take(t, t.halt || (t.residue != 0 && td.pid == In && !td.altEnd), s.c.status)
    else if !s.c.stopped && s.c.running then Stop
    else if s.c.running && s.c.status == InProgress && td.urb !in s.rq.unlinked then Skip
    else
      var latest := if s.c.idle && s.hw.overlay == Some(td.id) then s.hw.overlayToken else t;
      Take(latest, true, if s.c.running then s.c.status else Shutdown)
  }

  /** Collect the status of a descriptor, unless the request's is already known. */
  function Collect(rq: Requests, status: Status, td: Td, t: Token): (Requests, Status)
  {
    if status != InProgress then (rq, status)
    else
      (rq.(actual := rq.actual[td.urb := Actual(rq, td.urb) + Transferred(td, t)]),
       CopyStatus(td, t, td.urb in rq.unlinked))
  }

  function LinkOf(hw: Hw, id: nat): nat
  {
    if id in hw.hwNext then hw.hwNext[id] else 0
  }

  /** If the queue has stopped and the entry is not at its head, patch the link of the one before. */
  function Patch(hw: Hw, kept: seq<Td>, td: Td, stopped: bool): Hw
  {
    if stopped && kept != [] then hw.(hwNext := hw.hwNext[kept[|kept| - 1].id := LinkOf(hw, td.id)]) else hw
  }

  /** Take the entry under the cursor off the queue. */
  function Remove(s: State, t: Token, stops: bool, status: Status): State
    requires s.l.todo != []
  {
    var td := s.l.todo[0];
    var stopped := s.c.stopped || stops;
    var (rq, st) := Collect(s.rq, status, td, t);
    s.(l := s.l.(todo := s.l.todo[1..], last := Some(td)), hw := Patch(s.hw, s.l.kept, td, stopped), rq := rq,
       c := s.c.(stopped := stopped, status := st, xacterrs := 0))
  }

  /** One look at the entry under the cursor. */
  function Visit(s: State): State
    requires s.l.todo != []
  {
    var td := s.l.todo[0];
    var r := Retry(s, td);
    match Judge(r, td)
    case Stop => r.(c := r.c.(pc := Ended))
    case Skip => r.(c := r.c.(stopped := true), l := r.l.(kept := r.l.kept + [td], todo := r.l.todo[1..]))
    case Take(t, stops, status) => Remove(r, t, stops, status)
  }

  /** Hand the removed entry's request back, and free the entry. */
  function Done(s: State): State
    requires s.l.last.Some?
  {
    var td := s.l.last.value;
    s.(rq := s.rq.(given := s.rq.given + [Given(td.urb, s.c.status, Actual(s.rq, td.urb))]),
       c := s.c.(status := InProgress, dropped := true), freed := s.freed + [td.id], l := s.l.(last := None))
  }

  /** The top of the loop: clean up after the previous entry. */
  function CleanUp(s: State): State
    requires s.l.last.Some? && s.l.todo != []
  {
    if s.l.last.value.urb != s.l.todo[0].urb then Done(s)
    else s.(freed := s.freed + [s.l.last.value.id], l := s.l.(last := None))
  }

  /** A new request is queued: its first descriptor is the old dummy. */
  datatype Request = Request(urb: Urb, length: nat, tds: seq<Td>, dummy: nat)

  function AddTokens(token: map<nat, Token>, tds: seq<Td>): map<nat, Token>
    decreases |tds|
  {
    if tds == [] then token
    else
      var added := Token(true, false, false, false, false, false, TUNE_CERR, tds[0].length);
      AddTokens(token[tds[0].id := added], tds[1..])
  }

  function AddLinks(hwNext: map<nat, nat>, tds: seq<Td>, dummy: nat): map<nat, nat>
    decreases |tds|
  {
    if tds == [] then hwNext
    else AddLinks(hwNext[tds[0].id := if |tds| > 1 then tds[1].id else dummy], tds[1..], dummy)
  }

  function Submit(s: State, r: Request): State
  {
    s.(l := if s.c.pc == Outside then s.l.(todo := s.l.todo + r.tds) else s.l.(later := s.l.later + r.tds),
       hw := s.hw.(token := AddTokens(s.hw.token, r.tds), hwNext := AddLinks(s.hw.hwNext, r.tds, r.dummy),
                   dummy := r.dummy),
       rq := s.rq.(total := s.rq.total[r.urb := r.length], actual := s.rq.actual[r.urb := 0]))
  }

  datatype Step =
    // qh_completions
    | Begin(idle: bool, running: bool)
    | DoCleanUp
    | DoVisit
    | LoopDone
    | Finish
    | Rescan
    | Return
    | Resume            // the lock is taken again
    // other parts of the driver
    | DoSubmit(r: Request)
    | Relink            // the idle queue head is linked again
    | Dequeue(u: Urb)
    // the controller
    | Retire(i: nat, t: Token)
    | Overlay(id: nat, t: Token)

  /** The bytes of the entries of a request. */
  function Bytes(tds: seq<Td>, u: Urb): nat
  {
    if tds == [] then 0
    else (if tds[0].urb == u && tds[0].pid != Setup then tds[0].length else 0) + Bytes(tds[1..], u)
  }

  predicate DistinctIds(tds: seq<Td>)
  {
    forall i, j :: 0 <= i < j < |tds| ==> tds[i].id != tds[j].id
  }

  predicate HasId(tds: seq<Td>, id: nat)
  {
    exists i :: 0 <= i < |tds| && tds[i].id == id
  }

  predicate HasUrb(tds: seq<Td>, u: Urb)
  {
    exists i :: 0 <= i < |tds| && tds[i].urb == u
  }

  /** A request as qh_urb_transaction makes it: descriptors that carry its data, the first in the old
      dummy's place, none of them and not the new dummy in use. */
  predicate Acceptable(s: State, r: Request)
  {
    && r.tds != [] && r.tds[0].id == s.hw.dummy && r.urb !in s.rq.total
    && (forall i :: 0 <= i < |r.tds| ==> r.tds[i].urb == r.urb)
    && Bytes(r.tds, r.urb) <= r.length
    && DistinctIds(r.tds) && !HasId(r.tds, r.dummy)
    && (forall i :: 1 <= i < |r.tds| ==> Unused(s, r.tds[i].id)) && Unused(s, r.dummy)
  }

  predicate Unused(s: State, id: nat)
  {
    !HasId(Whole(s.l), id) && id != s.hw.dummy && id !in s.freed && id != s.c.end && s.hw.overlay != Some(id)
  }

  /** When a step can be taken.  Requests are queued and cancelled only while the lock is dropped.  The
      controller goes on in queue order, past descriptors that finished without a halt, as long as the
      queue head is linked and has not stopped; a residue is at most the length; and the overlay stays at
      a descriptor that halted. */
  predicate Enabled(s: State, step: Step)
  {
    match step
    case Begin(_, _) => s.c.pc == Outside && s.l.todo != []
    case DoCleanUp => s.c.pc == Loop && !s.c.dropped && s.l.last.Some? && s.l.todo != []
    case DoVisit => s.c.pc == Loop && !s.c.dropped && s.l.last.None? && s.l.todo != []
    case LoopDone => s.c.pc == Loop && !s.c.dropped && s.l.todo == []
    case Finish => s.c.pc == Ended && !s.c.dropped
    case Rescan => s.c.pc == After && !s.c.dropped && s.c.needsRescan && s.c.idle
    case Return => s.c.pc == After && !s.c.dropped && !(s.c.needsRescan && s.c.idle)
    case Resume => s.c.dropped
    case DoSubmit(r) => (s.c.dropped || s.c.pc == Outside) && Acceptable(s, r)
    case Relink => s.c.pc == Outside
    case Dequeue(u) => (s.c.dropped || s.c.pc == Outside) && HasUrb(Queue(s.l), u)
    case Retire(i, t) =>
      var queue := Queue(s.l);
      && (s.c.pc == Outside || (!s.c.idle && !s.c.stopped))
      && i < |queue| && TokenOf(s.hw, queue[i].id).active && !t.active && t.residue <= queue[i].length
      && (forall j :: 0 <= j < i ==> var p := TokenOf(s.hw, queue[j].id); Finished(p))
    case Overlay(id, t) =>
      && (s.c.pc == Outside || (!s.c.idle && !s.c.stopped))
      && (forall i :: 0 <= i < |Queue(s.l)| ==> !Halted(TokenOf(s.hw, Queue(s.l)[i].id)))
      && (forall i :: 0 <= i < |Queue(s.l)| && Queue(s.l)[i].id == id ==> t.residue <= Queue(s.l)[i].length)
      && (id == s.hw.dummy ==> t.residue == 0)
  }

  function Apply(s: State, step: Step): State
    requires Enabled(s, step)
  {
    match step
    case Begin(idle, running) =>
      s.(c := Call(idle, running, idle, false, s.c.xacterrs, InProgress, Loop, false, s.hw.dummy),
         start := s.l.todo, mark := |s.rq.given|)
    case DoCleanUp => CleanUp(s)
    case DoVisit => Visit(s)
    case LoopDone => s.(c := s.c.(pc := Ended))
    case Finish =>
      var s' := if s.l.last.Some? then Done(s) else s;
      s'.(c := s'.c.(pc := After))
    case Rescan =>
      s.(c := s.c.(needsRescan := false, status := InProgress, pc := Loop),
         l := Lists([], None, s.l.kept + s.l.todo, s.l.later),
         start := s.l.kept + s.l.todo, mark := |s.rq.given|)
    case Return => s.(c := s.c.(pc := Outside), l := Lists([], None, Queue(s.l), []))
    case Resume => s.(c := s.c.(dropped := false))
    case DoSubmit(r) => Submit(s, r)
    case Relink => s.(c := s.c.(xacterrs := 0))
    case Dequeue(u) => s.(rq := s.rq.(unlinked := s.rq.unlinked + {u}), c := s.c.(needsRescan := true))
    case Retire(i, t) =>
      var id := Queue(s.l)[i].id;
      s.(hw := s.hw.(token := s.hw.token[id := t], overlay := Some(id), overlayToken := t))
    case Overlay(id, t) => s.(hw := s.hw.(overlay := Some(id), overlayToken := t))
  }
}
