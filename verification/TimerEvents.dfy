/** What enables the timer's events: the driver's sections of code that hold the lock, as far as they count
    queue heads and turn schedules on and off, and the controller, whose status bits follow at leisure.
    Timer says how late an event can be at most; these runs decide which events are how late. */
module TimerEvents {
  import opened T = Timer

  datatype Hcd = Hcd(
    t: T.Timer,
    halted: bool,           // rh_state is HALTED; otherwise it is RUNNING or STOPPING
    // asynchronous queue heads: on the ring, waiting, in the present cycle, being ended
    ring: nat, waiting: nat, iaa: nat, ending: nat, asyncUnlinking: bool,
    ase: bool, ass: bool, assPolls: nat,      // CMD_ASE, STS_ASS, ASS_poll_count
    // interrupt queue heads: linked, unlinked, being ended; and isochronous requests
    linked: nat, listed: nat, endingIntr: nat, intrUnlinking: bool, isoc: nat,
    pse: bool, pss: bool, pssPolls: nat,
    emptySeen: bool)        // check_unlinks_later of the scan

  const MAX_POLLS: nat := 20

  function AsyncCount(h: Hcd): nat
  {
    h.ring + h.waiting + h.iaa + h.ending
  }

  function IntrCount(h: Hcd): nat
  {
    h.linked + h.listed + h.endingIntr
  }

  function PeriodicCount(h: Hcd): nat
  {
    IntrCount(h) + h.isoc
  }

  predicate Ok(h: Hcd)
  {
    |h.t.timeouts| == NUM_EVENTS
  }

  function Enable(h: Hcd, e: nat): (h': Hcd)
    requires Ok(h) && e < NUM_EVENTS
    ensures Ok(h') && h'.t.slack == h.t.slack && h'.t.func == h.t.func
  {
    h.(t := T.Enable(h.t, e, true))
  }

  function Clear(h: Hcd, e: nat): Hcd
  {
    h.(t := h.t.(enabled := h.t.enabled - {e}))
  }

  /** turn_on_io_watchdog. */
  function TurnOnIo(h: Hcd): (h': Hcd)
    requires Ok(h)
    ensures Ok(h') && h'.t.slack == h.t.slack && h'.t.func == h.t.func
  {
    if !h.t.running || IO_WATCHDOG in h.t.enabled then h
    else if h.isoc > 0 || AsyncCount(h) + IntrCount(h) > 0 then Enable(h, IO_WATCHDOG)
    else h
  }

  /** fotg210_poll_ASS. */
  function PollAss(h: Hcd): (h': Hcd)
    requires Ok(h)
    ensures Ok(h') && h'.t.slack == h.t.slack && h'.t.func == h.t.func
  {
    if !h.t.running then h
    else if h.ase != h.ass && h.assPolls < MAX_POLLS then Enable(h, POLL_ASS).(assPolls := h.assPolls + 1)
    else
      var g := h.(assPolls := 0);
      if !h.ase then (if AsyncCount(h) > 0 then g.(ase := true) else g)
      else if AsyncCount(h) == 0 then Enable(g, DISABLE_ASYNC)
      else g
  }

  /** fotg210_poll_PSS. */
  function PollPss(h: Hcd): (h': Hcd)
    requires Ok(h)
    ensures Ok(h') && h'.t.slack == h.t.slack && h'.t.func == h.t.func
  {
    if !h.t.running then h
    else if h.pse != h.pss && h.pssPolls < MAX_POLLS then Enable(h, POLL_PSS).(pssPolls := h.pssPolls + 1)
    else
      var g := h.(pssPolls := 0);
      if !h.pse then (if PeriodicCount(h) > 0 then g.(pse := true) else g)
      else if PeriodicCount(h) == 0 then Enable(g, DISABLE_PERIODIC)
      else g
  }

  /** enable_async, after the count went up. */
  function EnableAsync(h: Hcd): (h': Hcd)
    requires Ok(h)
    ensures Ok(h') && h'.t.slack == h.t.slack
  {
    if AsyncCount(h) != 1 then h else TurnOnIo(PollAss(Clear(h, DISABLE_ASYNC)))
  }

  /** disable_async, after the count went down. */
  function DisableAsync(h: Hcd): (h': Hcd)
    requires Ok(h)
    ensures Ok(h') && h'.t.slack == h.t.slack && h'.t.func == h.t.func
  {
    if AsyncCount(h) != 0 then h else PollAss(h)
  }

  function EnablePeriodic(h: Hcd): (h': Hcd)
    requires Ok(h)
    ensures Ok(h') && h'.t.slack == h.t.slack
  {
    if PeriodicCount(h) != 1 then h else TurnOnIo(PollPss(Clear(h, DISABLE_PERIODIC)))
  }

  function DisablePeriodic(h: Hcd): (h': Hcd)
    requires Ok(h)
    ensures Ok(h') && h'.t.slack == h.t.slack && h'.t.func == h.t.func
  {
    if PeriodicCount(h) != 0 then h else PollPss(h)
  }

  /** start_iaa_cycle: a doorbell while the root hub is running, the end at once when it has stopped. */
  function StartIaa(h: Hcd): (h': Hcd)
    requires Ok(h)
    ensures Ok(h') && h'.t.slack == h.t.slack && h'.t.func == h.t.func
  {
    if h.iaa > 0 || h.asyncUnlinking then h
    else
      var g := h.(iaa := h.waiting, waiting := 0);
      if h.t.running then Enable(g, IAA_WATCHDOG)
      else if h.halted then g.(asyncUnlinking := true)
      else g
  }

  /** start_unlink_intr of a linked queue head. */
  function UnlinkIntr(h: Hcd): (h': Hcd)
    requires Ok(h) && h.linked > 0
    ensures Ok(h') && h'.t.slack == h.t.slack && h'.t.func == h.t.func
  {
    var g := h.(linked := h.linked - 1, listed := h.listed + 1);
    if h.intrUnlinking then g
    else if h.halted then g.(intrUnlinking := true)
    else if h.listed == 0 then Enable(g, UNLINK_INTR)
    else g
  }

  /** start_free_itds. */
  function StartFreeItds(h: Hcd): (h': Hcd)
    requires Ok(h)
    ensures Ok(h') && h'.t.slack == h.t.slack && h'.t.func == h.t.func
  {
    if FREE_ITDS in h.t.enabled then h else Enable(h, FREE_ITDS)
  }

  /** unlink_empty_async: `gone` are unlinked, and some are `spared`. */
  function UnlinkEmpty(h: Hcd, gone: nat, spared: bool): (h': Hcd)
    requires Ok(h) && gone <= h.ring
    ensures Ok(h') && h'.t.slack == h.t.slack && h'.t.func == h.t.func
  {
    var h1 := h.(ring := h.ring - gone, waiting := h.waiting + gone);
    var h2 := if h1.waiting > 0 then StartIaa(h1) else h1;
    if spared then Enable(h2, ASYNC_UNLINKS) else h2
  }

  /** A fatal error, and fotg210_handle_controller_death: either the controller has not halted yet and is
      polled, or it is given up. */
  function Death(h: Hcd, poll: bool): (h': Hcd)
    requires Ok(h)
    ensures Ok(h') && h'.t.slack == h.t.slack && h'.t.func == h.t.func
  {
    if poll then Enable(h, POLL_DEAD) else h.(halted := true, asyncUnlinking := true)
  }

  datatype Step =
    // requests are queued and cancelled, and completed
    | DoLinkAsync
    | DoUnlinkAsync
    | DoLinkIntr
    | DoUnlinkIntr
    | DoLinkIsoc
    | IsocDone(ends: bool)  // `ends`: with the last request of its stream
    | ScanFindsEmpty
    | ScanEnd
    | WorkDone
    // interrupts
    | DoorbellAnswered
    | Fatal(poll: bool)
    // end_unlink_async and end_unlink_intr; `more`: requests were queued meanwhile
    | TakeAsync
    | FinishAsync(more: bool)
    | EndAsync
    | TakeIntr
    | FinishIntr(more: bool)
    // the timer function; parameters for the handlers that need them
    | GoOff
    | Look(poll: bool, gone: nat, more: bool)
    | HandlerDone
    | TimerDone
    // the controller
    | AssFollows
    | PssFollows
    | Wait(dt: nat)

  /** The handlers that give requests back, which drops the lock. */
  predicate Drops(h: Hcd, e: nat)
  {
    e == POLL_DEAD || e == UNLINK_INTR || e == IAA_WATCHDOG || e == IO_WATCHDOG || (e == ASYNC_UNLINKS && h.halted)
  }

  /** The lock can be taken: the timer function does not hold it. */
  predicate Free(h: Hcd)
  {
    h.t.func.Asleep? || (h.t.func.handling && Drops(h, h.t.func.e))
  }

  predicate Enabled(h: Hcd, step: Step)
    requires Ok(h)
  {
    match step
    case DoLinkAsync => Free(h)
    case DoUnlinkAsync => Free(h) && h.ring > 0
    case DoLinkIntr => Free(h)
    case DoUnlinkIntr => Free(h) && h.linked > 0
    case DoLinkIsoc => Free(h)
    case IsocDone(ends) => Free(h) && h.isoc > 0 && (h.isoc == 1 ==> ends)
    case ScanFindsEmpty => Free(h) && h.ring > 0
    case ScanEnd => Free(h) && h.emptySeen
    case WorkDone => Free(h)
    case DoorbellAnswered => Free(h) && !h.halted
    case Fatal(_) => Free(h)
    case TakeAsync => Free(h) && h.asyncUnlinking && h.iaa > 0
    case FinishAsync(more) => Free(h) && h.ending > 0 && (more ==> h.t.running)
    case EndAsync => Free(h) && h.asyncUnlinking && h.iaa == 0
    case TakeIntr => Free(h) && h.intrUnlinking && h.listed > 0
    case FinishIntr(more) => Free(h) && h.endingIntr > 0 && (more ==> h.t.running)
    case GoOff => T.Enabled(h.t, T.FuncBegin)
    case Look(_, gone, more) =>
      && T.Enabled(h.t, T.FuncNext) && gone <= h.ring
      && (h.t.func.e == ASYNC_UNLINKS && more ==> gone < h.ring && !h.halted)
    case HandlerDone => T.Enabled(h.t, T.HandlerEnd)
    case TimerDone => T.Enabled(h.t, T.FuncEnd)
    case AssFollows => true
    case PssFollows => true
    case Wait(dt) => T.Enabled(h.t, T.Tick(dt))
  }

  /** Handlers that leave the timer alone. */
  function Note(h: Hcd, e: nat): (h': Hcd)
    ensures h'.t == h.t
  {
    if e == UNLINK_INTR then h.(intrUnlinking := true)
    else if e == IAA_WATCHDOG then (if h.t.running && h.iaa > 0 then h.(asyncUnlinking := true) else h)
    else if e == DISABLE_PERIODIC then h.(pse := false)
    else if e == DISABLE_ASYNC then h.(ase := false)
    else h
  }

  /** What a handler does before it may drop the lock. */
  function Handler(h: Hcd, e: nat, poll: bool, gone: nat, more: bool): (h': Hcd)
    requires Ok(h) && gone <= h.ring
    ensures Ok(h') && h'.t.slack == h.t.slack && h'.t.func == h.t.func
  {
    if e == POLL_ASS then PollAss(h)
    else if e == POLL_PSS then PollPss(h)
    else if e == POLL_DEAD && !h.t.running then Death(h, poll)
    else if e == FREE_ITDS && more then StartFreeItds(h)
    else if e == ASYNC_UNLINKS then UnlinkEmpty(h, gone, more)
    else Note(h, e)
  }

  /** The end of fotg210_handle_intr_unlinks: back later for what is listed. */
  function EndIntr(h: Hcd): (h': Hcd)
    requires Ok(h)
    ensures Ok(h') && h'.t.slack == h.t.slack && h'.t.func == h.t.func
  {
    if h.listed > 0 then Enable(h.(intrUnlinking := false), UNLINK_INTR) else h.(intrUnlinking := false)
  }

  /** The end of a handler. */
  function EndHandler(h: Hcd): (h': Hcd)
    requires Ok(h) && h.t.func.Running?
    ensures Ok(h') && h'.t.slack == h.t.slack
  {
    var g := if h.t.func.e == UNLINK_INTR then EndIntr(h) else h;
    g.(t := g.t.(func := h.t.func.(e := h.t.func.e + 1, handling := false)))
  }

  /** One look of the timer function; a handler that keeps the lock also ends. */
  function LookAt(h: Hcd, poll: bool, gone: nat, more: bool): (h': Hcd)
    requires Ok(h) && T.Enabled(h.t, T.FuncNext) && gone <= h.ring
    ensures Ok(h') && h'.t.slack == h.t.slack
  {
    var e, h1 := h.t.func.e, h.(t := T.Next(h.t));
    if !h1.t.func.handling then h1
    else
      var h2 := Handler(h1, e, poll, gone, more);
      if Drops(h2, e) then h2 else EndHandler(h2)
  }

  /** qh_link_async. */
  function LinkAsync(h: Hcd): (h': Hcd)
    requires Ok(h)
    ensures Ok(h') && h'.t.slack == h.t.slack
  {
    EnableAsync(h.(ring := h.ring + 1))
  }

  /** start_unlink_async of a linked queue head. */
  function UnlinkAsync(h: Hcd): (h': Hcd)
    requires Ok(h) && h.ring > 0
    ensures Ok(h') && h'.t.slack == h.t.slack
  {
    StartIaa(h.(ring := h.ring - 1, waiting := h.waiting + 1))
  }

  /** qh_link_periodic. */
  function LinkIntr(h: Hcd): (h': Hcd)
    requires Ok(h)
    ensures Ok(h') && h'.t.slack == h.t.slack
  {
    EnablePeriodic(h.(linked := h.linked + 1))
  }

  /** itd_link_urb. */
  function LinkIsoc(h: Hcd): (h': Hcd)
    requires Ok(h)
    ensures Ok(h') && h'.t.slack == h.t.slack
  {
    EnablePeriodic(h.(isoc := h.isoc + 1))
  }

  /** The end of itd_complete. */
  function EndIsoc(h: Hcd): (h': Hcd)
    requires Ok(h) && h.isoc > 0
    ensures Ok(h') && h'.t.slack == h.t.slack
  {
    DisablePeriodic(h.(isoc := h.isoc - 1))
  }

  /** The end of a scan of the ring. */
  function EndScan(h: Hcd): (h': Hcd)
    requires Ok(h)
    ensures Ok(h') && h'.t.slack == h.t.slack
  {
    if h.t.running && ASYNC_UNLINKS !in h.t.enabled then Enable(h.(emptySeen := false), ASYNC_UNLINKS)
    else h.(emptySeen := false)
  }

  /** STS_IAA. */
  function Answered(h: Hcd): (h': Hcd)
    requires Ok(h)
    ensures Ok(h') && h'.t.slack == h.t.slack
  {
    h.(t := T.StopWatchdog(h.t), asyncUnlinking := h.asyncUnlinking || h.iaa > 0)
  }

  /** A fatal error. */
  function Die(h: Hcd, poll: bool): (h': Hcd)
    requires Ok(h)
    ensures Ok(h') && h'.t.slack == h.t.slack
  {
    Death(h.(t := h.t.(running := false), ase := false, pse := false, halted := false), poll)
  }

  /** One pass of end_unlink_async. */
  function FinishOne(h: Hcd, more: bool): (h': Hcd)
    requires Ok(h) && h.ending > 0
    ensures Ok(h') && h'.t.slack == h.t.slack
  {
    DisableAsync(h.(ending := h.ending - 1, ring := if more then h.ring + 1 else h.ring))
  }

  /** Its end. */
  function EndCycle(h: Hcd): (h': Hcd)
    requires Ok(h)
    ensures Ok(h') && h'.t.slack == h.t.slack
  {
    if h.waiting > 0 then StartIaa(h.(asyncUnlinking := false)) else h.(asyncUnlinking := false)
  }

  /** end_unlink_intr. */
  function FinishOneIntr(h: Hcd, more: bool): (h': Hcd)
    requires Ok(h) && h.endingIntr > 0
    ensures Ok(h') && h'.t.slack == h.t.slack
  {
    DisablePeriodic(h.(endingIntr := h.endingIntr - 1, linked := if more then h.linked + 1 else h.linked))
  }

  function Clock(h: Hcd, step: T.Step): (h': Hcd)
    requires Ok(h) && T.Enabled(h.t, step)
    ensures Ok(h') && h'.t.slack == h.t.slack
  {
    h.(t := T.Apply(h.t, step))
  }

  function Apply(h: Hcd, step: Step): (h': Hcd)
    requires Ok(h) && Enabled(h, step)
    ensures Ok(h') && h'.t.slack == h.t.slack
  {
    match step
    case DoLinkAsync => LinkAsync(h)
    case DoUnlinkAsync => UnlinkAsync(h)
    case DoLinkIntr => LinkIntr(h)
    case DoUnlinkIntr => UnlinkIntr(h)
    case DoLinkIsoc => LinkIsoc(h)
    case IsocDone(ends) => if ends then StartFreeItds(EndIsoc(h)) else EndIsoc(h)
    case ScanFindsEmpty => h.(emptySeen := true)
    case ScanEnd => EndScan(h)
    case WorkDone => TurnOnIo(h)
    case DoorbellAnswered => Answered(h)
    case Fatal(poll) => Die(h, poll)
    case TakeAsync => h.(iaa := h.iaa - 1, ending := h.ending + 1)
    case FinishAsync(more) => FinishOne(h, more)
    case EndAsync => EndCycle(h)
    case TakeIntr => h.(listed := h.listed - 1, endingIntr := h.endingIntr + 1)
    case FinishIntr(more) => FinishOneIntr(h, more)
    case GoOff => Clock(h, T.FuncBegin)
    case Look(poll, gone, more) => LookAt(h, poll, gone, more)
    case HandlerDone => EndHandler(h)
    case TimerDone => Clock(h, T.FuncEnd)
    case AssFollows => h.(ass := h.ase)
    case PssFollows => h.(pss := h.pse)
    case Wait(dt) => Clock(h, T.Tick(dt))
  }

  /** Before anything is queued. */
  function Start(slack: nat): Hcd
  {
    Hcd(T.Start(slack), false, 0, 0, 0, 0, false, false, false, 0, 0, 0, 0, false, 0, false, false, 0, false)
  }

  predicate Legal(h: Hcd, run: seq<Step>)
    requires Ok(h)
    decreases |run|
  {
    run == [] || (Enabled(h, run[0]) && Legal(Apply(h, run[0]), run[1..]))
  }

  function Exec(h: Hcd, run: seq<Step>): (h': Hcd)
    requires Ok(h) && Legal(h, run)
    ensures Ok(h') && h'.t.slack == h.t.slack
    decreases |run|
  {
    if run == [] then h else Exec(Apply(h, run[0]), run[1..])
  }

  // ---- no run is later than the timer allows ----

  predicate Timed(h: Hcd)
  {
    T.Inv(h.t, IAA_WATCHDOG)
  }

  /** What the sections do to the timer: they keep its invariant and the state of the root hub. */
  predicate Keeps(h: Hcd, h': Hcd)
  {
    (Timed(h) ==> Timed(h')) && h'.t.running == h.t.running && h'.t.func == h.t.func && h'.t.now == h.t.now
  }

  lemma EnableKeeps(h: Hcd, e: nat)
    requires Timed(h) && T.May(h.t, e)
    ensures Ok(h) && Keeps(h, Enable(h, e))
  {
    T.EnableInv(h.t, IAA_WATCHDOG, e);
    hide T.Inv;
  }

  lemma TimedOk(h: Hcd)
    requires Timed(h)
    ensures Ok(h)
  {
  }

  lemma ClearKeeps(h: Hcd, e: nat)
    requires Timed(h) && (e == DISABLE_PERIODIC || e == DISABLE_ASYNC)
    ensures Keeps(h, Clear(h, e))
  {
    T.StepInv(h.t, IAA_WATCHDOG, T.DoClear(e));
    hide T.Inv;
  }

  lemma TurnOnIoKeeps(h: Hcd)
    requires Timed(h)
    ensures Ok(h) && Keeps(h, TurnOnIo(h))
  {
    hide T.Inv, Enable;
    EnableKeeps(h, IO_WATCHDOG);
  }

  lemma PollAssKeeps(h: Hcd)
    requires Timed(h)
    ensures Ok(h) && Keeps(h, PollAss(h))
  {
    hide T.Inv, T.Enable;
    TimedOk(h);
    var g := h.(assPolls := 0);
    if h.t.running {
      EnableKeeps(h, POLL_ASS);
      EnableKeeps(g, DISABLE_ASYNC);
    }
  }

  lemma PollPssKeeps(h: Hcd)
    requires Timed(h)
    ensures Ok(h) && Keeps(h, PollPss(h))
  {
    hide T.Inv, T.Enable;
    TimedOk(h);
    var g := h.(pssPolls := 0);
    if h.t.running {
      EnableKeeps(h, POLL_PSS);
      EnableKeeps(g, DISABLE_PERIODIC);
    }
  }

  lemma CountsKeep(h: Hcd)
    requires Timed(h)
    ensures Ok(h) && Keeps(h, EnableAsync(h)) && Keeps(h, EnablePeriodic(h)) && Keeps(h, DisableAsync(h))
    ensures Keeps(h, DisablePeriodic(h))
  {
    hide T.Inv, T.Enable, PollAss, PollPss, TurnOnIo, Clear;
    var a, p := Clear(h, DISABLE_ASYNC), Clear(h, DISABLE_PERIODIC);
    ClearKeeps(h, DISABLE_ASYNC);
    ClearKeeps(h, DISABLE_PERIODIC);
    PollAssKeeps(a);
    PollPssKeeps(p);
    TurnOnIoKeeps(PollAss(a));
    TurnOnIoKeeps(PollPss(p));
    PollAssKeeps(h);
    PollPssKeeps(h);
  }

  lemma StartIaaKeeps(h: Hcd)
    requires Timed(h)
    ensures Ok(h) && Keeps(h, StartIaa(h))
  {
    hide T.Inv, T.Enable;
    TimedOk(h);
    EnableKeeps(h.(iaa := h.waiting, waiting := 0), IAA_WATCHDOG);
  }

  lemma UnlinkIntrKeeps(h: Hcd)
    requires Timed(h) && h.linked > 0
    ensures Ok(h) && Keeps(h, UnlinkIntr(h))
  {
    hide T.Inv, T.Enable;
    TimedOk(h);
    EnableKeeps(h.(linked := h.linked - 1, listed := h.listed + 1), UNLINK_INTR);
  }

  lemma EndIntrKeeps(h: Hcd)
    requires Timed(h)
    ensures Ok(h) && Keeps(h, EndIntr(h))
  {
    hide T.Inv, T.Enable;
    TimedOk(h);
    EnableKeeps(h.(intrUnlinking := false), UNLINK_INTR);
  }

  lemma FreeItdsKeeps(h: Hcd)
    requires Timed(h)
    ensures Ok(h) && Keeps(h, StartFreeItds(h))
  {
    hide T.Inv, T.Enable;
    TimedOk(h);
    EnableKeeps(h, FREE_ITDS);
  }

  lemma UnlinkEmptyKeeps(h: Hcd, gone: nat, spared: bool)
    requires Timed(h) && gone <= h.ring
    ensures Ok(h) && Keeps(h, UnlinkEmpty(h, gone, spared))
  {
    hide T.Inv, T.Enable, StartIaa, Enable;
    TimedOk(h);
    var h1 := h.(ring := h.ring - gone, waiting := h.waiting + gone);
    StartIaaKeeps(h1);
    var h2 := if h1.waiting > 0 then StartIaa(h1) else h1;
    EnableKeeps(h2, ASYNC_UNLINKS);
  }

  lemma DeathKeeps(h: Hcd, poll: bool)
    requires Timed(h) && !h.t.running
    ensures Ok(h) && Keeps(h, Death(h, poll))
  {
    hide T.Inv, T.Enable;
    TimedOk(h);
    EnableKeeps(h, POLL_DEAD);
  }

  lemma SameKeeps(h: Hcd, h': Hcd)
    requires h'.t == h.t
    ensures Keeps(h, h')
  {
  }

  lemma HandlerKeeps(h: Hcd, e: nat, poll: bool, gone: nat, more: bool)
    requires Timed(h) && gone <= h.ring
    ensures Ok(h) && Keeps(h, Handler(h, e, poll, gone, more))
  {
    hide T.Inv, Timed, Keeps, PollAss, PollPss, Death, StartFreeItds, UnlinkEmpty, Note, Ok;
    PollAssKeeps(h);
    if e == POLL_ASS {
    } else if e == POLL_PSS {
      PollPssKeeps(h);
    } else if e == POLL_DEAD && !h.t.running {
      DeathKeeps(h, poll);
    } else if e == FREE_ITDS && more {
      FreeItdsKeeps(h);
    } else if e == ASYNC_UNLINKS {
      UnlinkEmptyKeeps(h, gone, more);
    } else {
      SameKeeps(h, Note(h, e));
    }
  }

  lemma EndHandlerKeeps(h: Hcd)
    requires Timed(h) && h.t.func.Running? && h.t.func.handling
    ensures Ok(h) && Timed(EndHandler(h))
  {
    EndIntrKeeps(h);
    var g := if h.t.func.e == UNLINK_INTR then EndIntr(h) else h;
    assert Timed(g) && g.t.func == h.t.func;
    assert g.t.func.e < NUM_EVENTS;
    T.StepInv(g.t, IAA_WATCHDOG, T.HandlerEnd);
    hide T.Inv, EndIntr;
  }

  lemma LookKeeps(h: Hcd, poll: bool, gone: nat, more: bool)
    requires Timed(h) && T.Enabled(h.t, T.FuncNext) && gone <= h.ring
    ensures Ok(h) && Timed(LookAt(h, poll, gone, more))
  {
    T.StepInv(h.t, IAA_WATCHDOG, T.FuncNext);
    hide T.Inv, T.Next, Handler, EndHandler;
    TimedOk(h);
    var h1 := h.(t := T.Next(h.t));
    assert Timed(h1);
    if h1.t.func.handling {
      HandlerKeeps(h1, h.t.func.e, poll, gone, more);
      EndHandlerKeeps(Handler(h1, h.t.func.e, poll, gone, more));
    }
  }

  lemma DieKeeps(h: Hcd, poll: bool)
    requires Timed(h)
    ensures Ok(h) && Timed(Die(h, poll))
  {
    T.StepInv(h.t, IAA_WATCHDOG, T.Die);
    hide T.Inv, Death;
    TimedOk(h);
    DeathKeeps(h.(t := h.t.(running := false), ase := false, pse := false, halted := false), poll);
  }

  lemma LinkKeeps(h: Hcd, step: Step)
    requires Timed(h) && Ok(h) && Enabled(h, step)
    requires step.DoLinkAsync? || step.DoLinkIntr? || step.DoLinkIsoc? || step.IsocDone?
    ensures Timed(Apply(h, step))
  {
    hide T.Inv, AsyncCount, PeriodicCount, EnableAsync, EnablePeriodic, DisableAsync, DisablePeriodic;
    hide StartFreeItds, Ok;
    match step
    case DoLinkAsync => CountsKeep(h.(ring := h.ring + 1));
    case DoLinkIntr => CountsKeep(h.(linked := h.linked + 1));
    case DoLinkIsoc => CountsKeep(h.(isoc := h.isoc + 1));
    case IsocDone(ends) =>
      CountsKeep(h.(isoc := h.isoc - 1));
      FreeItdsKeeps(EndIsoc(h));
  }

  lemma FinishKeeps(h: Hcd, more: bool)
    requires Timed(h) && h.ending > 0
    ensures Ok(h) && Timed(FinishOne(h, more))
  {
    hide T.Inv, AsyncCount, DisableAsync, DisablePeriodic, EnableAsync, EnablePeriodic;
    CountsKeep(h.(ending := h.ending - 1, ring := if more then h.ring + 1 else h.ring));
  }

  lemma FinishIntrKeeps(h: Hcd, more: bool)
    requires Timed(h) && h.endingIntr > 0
    ensures Ok(h) && Timed(FinishOneIntr(h, more))
  {
    hide T.Inv, PeriodicCount, DisableAsync, DisablePeriodic, EnableAsync, EnablePeriodic;
    CountsKeep(h.(endingIntr := h.endingIntr - 1, linked := if more then h.linked + 1 else h.linked));
  }

  lemma RingKeeps(h: Hcd, step: Step)
    requires Timed(h) && Ok(h) && Enabled(h, step) && (step.DoUnlinkAsync? || step.EndAsync?)
    ensures Timed(Apply(h, step))
  {
    hide T.Inv, StartIaa, Ok;
    match step
    case DoUnlinkAsync => StartIaaKeeps(h.(ring := h.ring - 1, waiting := h.waiting + 1));
    case EndAsync => StartIaaKeeps(h.(asyncUnlinking := false));
  }

  lemma ClockKeeps(h: Hcd, step: T.Step)
    requires Timed(h) && T.Enabled(h.t, step)
    ensures Ok(h) && T.Inv(T.Apply(h.t, step), IAA_WATCHDOG)
  {
    T.StepInv(h.t, IAA_WATCHDOG, step);
    TimedOk(h);
    hide T.Inv, T.Apply;
  }

  /** The steps of the timer function, and time. */
  lemma FuncKeeps(h: Hcd, step: Step)
    requires Timed(h) && Ok(h) && Enabled(h, step)
    requires step.GoOff? || step.Look? || step.HandlerDone? || step.TimerDone? || step.Wait?
    ensures Timed(Apply(h, step))
  {
    hide T.Inv, T.Enabled, T.Apply, EndHandler, LookAt;
    match step
    case GoOff => ClockKeeps(h, T.FuncBegin);
    case Look(poll, gone, more) => LookKeeps(h, poll, gone, more);
    case HandlerDone => HandlerOn(h); EndHandlerKeeps(h);
    case TimerDone => ClockKeeps(h, T.FuncEnd);
    case Wait(dt) => ClockKeeps(h, T.Tick(dt));
  }

  /** Steps that leave the timer alone. */
  predicate Untimed(step: Step)
  {
    step.ScanFindsEmpty? || step.TakeAsync? || step.TakeIntr? || step.AssFollows? || step.PssFollows?
  }

  lemma UntimedKeeps(h: Hcd, step: Step)
    requires Timed(h) && Ok(h) && Enabled(h, step) && Untimed(step)
    ensures Timed(Apply(h, step))
  {
    hide T.Inv;
  }

  /** Every step keeps the timer's invariant. */
  lemma StepKeeps(h: Hcd, step: Step)
    requires Timed(h) && Ok(h) && Enabled(h, step)
    ensures Timed(Apply(h, step))
  {
    hide Timed, Ok, T.Enabled, UnlinkIntr, TurnOnIo, Die, FinishOne, FinishOneIntr, EndScan, Answered;
    hide LookAt, EndHandler, LinkAsync, UnlinkAsync, LinkIntr, LinkIsoc, EndIsoc, StartFreeItds, EndCycle, Clock;
    match step
    case DoUnlinkIntr => UnlinkIntrKeeps(h);
    case ScanEnd => EndScanKeeps(h);
    case WorkDone => TurnOnIoKeeps(h);
    case DoorbellAnswered => AnsweredKeeps(h);
    case Fatal(poll) => DieKeeps(h, poll);
    case DoUnlinkAsync => RingKeeps(h, step);
    case EndAsync => RingKeeps(h, step);
    case FinishAsync(more) => FinishKeeps(h, more);
    case FinishIntr(more) => FinishIntrKeeps(h, more);
    case DoLinkAsync => LinkKeeps(h, step);
    case DoLinkIntr => LinkKeeps(h, step);
    case DoLinkIsoc => LinkKeeps(h, step);
    case IsocDone(_) => LinkKeeps(h, step);
    case _ =>
      if Untimed(step) {
        UntimedKeeps(h, step);
      } else {
        FuncKeeps(h, step);
      }
  }

  lemma EndScanKeeps(h: Hcd)
    requires Timed(h)
    ensures Ok(h) && Timed(EndScan(h))
  {
    hide T.Inv;
    TimedOk(h);
    EnableKeeps(h.(emptySeen := false), ASYNC_UNLINKS);
  }

  lemma AnsweredKeeps(h: Hcd)
    requires Timed(h)
    ensures Ok(h) && Timed(Answered(h))
  {
    T.StepInv(h.t, IAA_WATCHDOG, T.DoStopWatchdog);
    hide T.Inv;
    TimedOk(h);
  }

  lemma HandlerOn(h: Hcd)
    requires T.Enabled(h.t, T.HandlerEnd)
    ensures h.t.func.Running? && h.t.func.handling
  {
  }

  lemma {:induction false} RunKeeps(h: Hcd, run: seq<Step>)
    requires Timed(h) && Ok(h) && Legal(h, run)
    ensures Timed(Exec(h, run)) && Exec(h, run).t.slack == h.t.slack
    decreases |run|
  {
    if run != [] {
      StepKeeps(h, run[0]);
      RunKeeps(Apply(h, run[0]), run[1..]);
    }
    hide Timed, Apply, Enabled;
  }

  lemma StartTimed(slack: nat)
    ensures Timed(Start(slack)) && Ok(Start(slack))
  {
    T.StartInv(slack, IAA_WATCHDOG);
  }

  /** Over any run of the driver, a pending event up to the watchdog is late by no more than Late. */
  lemma RunTimely(slack: nat, run: seq<Step>, e: nat)
    requires Legal(Start(slack), run) && e in T.Pending(Exec(Start(slack), run).t)
    ensures e < NUM_EVENTS
    ensures e <= IAA_WATCHDOG ==>
      Exec(Start(slack), run).t.now <= Exec(Start(slack), run).t.timeouts[e] + T.Late(e, slack) + 2 * slack
  {
    StartTimed(slack);
    RunKeeps(Start(slack), run);
    var t := Exec(Start(slack), run).t;
    assert T.Inv(t, IAA_WATCHDOG);
    if e <= IAA_WATCHDOG {
      T.Timely(t, IAA_WATCHDOG, e);
    }
    hide Legal, Exec;
  }

  // ---- runs that are late ----

  /** The timer is set for `next`, and the timer function is not running. */
  predicate IsSet(t: T.Timer, enabled: set<nat>, next: nat, expiry: int, now: int)
  {
    && |t.timeouts| == NUM_EVENTS && t.func.Asleep? && t.enabled == enabled && t.next == next && t.armed
    && t.expiry == expiry && t.now == now
  }

  /** `run` leads to `h`. */
  predicate Leads(slack: nat, run: seq<Step>, h: Hcd)
  {
    Legal(Start(slack), run) && h == Exec(Start(slack), run)
  }

  lemma NoSteps(slack: nat)
    ensures Leads(slack, [], Start(slack)) && Ok(Start(slack))
  {
  }

  /** A run goes on by one step. */
  lemma Go(slack: nat, run: seq<Step>, h: Hcd, step: Step) returns (longer: seq<Step>, h': Hcd)
    requires Ok(h) && Leads(slack, run, h) && Enabled(h, step)
    ensures Leads(slack, longer, h') && h' == Apply(h, step) && Ok(h')
  {
    Extend(Start(slack), run, step);
    longer, h' := run + [step], Apply(h, step);
  }

  lemma {:induction false} Extend(h: Hcd, run: seq<Step>, step: Step)
    requires Ok(h) && Legal(h, run) && Enabled(Exec(h, run), step)
    ensures Legal(h, run + [step]) && Exec(h, run + [step]) == Apply(Exec(h, run), step)
    decreases |run|
  {
    if run == [] {
      assert [step][1..] == [];
      assert run + [step] == [step];
    } else {
      assert (run + [step])[1..] == run[1..] + [step];
      Extend(Apply(h, run[0]), run[1..], step);
    }
    hide Enabled, Apply;
  }

  /** A look that needs no parameters. */
  const LOOK: Step := Look(false, 0, false)

  /** The timer function is about to look at event `e`. */
  predicate At(h: Hcd, e: nat)
  {
    Ok(h) && h.t.func.Running? && !h.t.func.handling && h.t.func.e == e < NUM_EVENTS
  }

  /** Where the timer function is afterwards. */
  function Past(t: T.Timer): T.Timer
    requires t.func.Running?
  {
    t.(func := t.func.(e := t.func.e + 1))
  }

  /** It passes over an event it did not find enabled. */
  lemma LookSkips(h: Hcd, e: nat)
    requires At(h, e) && e !in h.t.func.events
    ensures Enabled(h, LOOK) && Apply(h, LOOK) == h.(t := Past(h.t))
  {
    hide Handler, EndHandler;
  }

  /** It found nothing enabled from its event to `k`. */
  predicate Nothing(h: Hcd, k: nat)
  {
    && Ok(h) && h.t.func.Running? && !h.t.func.handling && h.t.func.e <= k <= NUM_EVENTS
    && forall e :: h.t.func.e <= e < k ==> e !in h.t.func.events
  }

  function Moved(h: Hcd, k: nat): Hcd
    requires h.t.func.Running?
  {
    h.(t := h.t.(func := h.t.func.(e := k)))
  }

  lemma MovesOn(h: Hcd, k: nat)
    requires Nothing(h, k)
    ensures h.t.func.Running? && h.t.func.e <= k && (h.t.func.e == k ==> Moved(h, k) == h)
    ensures h.t.func.e < k ==> At(h, h.t.func.e) && h.t.func.e !in h.t.func.events
  {
  }

  lemma MovedOn(h: Hcd, k: nat)
    requires Nothing(h, k) && h.t.func.Running? && At(h, h.t.func.e) && h.t.func.e < k
    ensures var h' := h.(t := Past(h.t)); h'.t.func.e == h.t.func.e + 1 && Nothing(h', k) && Moved(h', k) == Moved(h, k)
  {
  }

  lemma {:induction false} Skip(slack: nat, run0: seq<Step>, g: Hcd, k: nat) returns (run: seq<Step>, h: Hcd)
    requires Leads(slack, run0, g) && Nothing(g, k)
    ensures Leads(slack, run, h) && g.t.func.Running? && h == Moved(g, k)
    decreases if g.t.func.Running? then k - g.t.func.e else 0
  {
    MovesOn(g, k);
    if g.t.func.e == k {
      run, h := run0, g;
    } else {
      LookSkips(g, g.t.func.e);
      MovedOn(g, k);
      hide Leads, Apply, Enabled, Moved, Nothing;
      run, h := Go(slack, run0, g, LOOK);
      run, h := Skip(slack, run, h, k);
    }
  }

  /** It enables an event again whose time has not come. */
  lemma LookEnables(h: Hcd, e: nat)
    requires At(h, e) && e in h.t.func.events && h.t.func.start < h.t.timeouts[e]
    ensures Enabled(h, LOOK) && Apply(h, LOOK) == h.(t := Past(T.Enable(h.t, e, false)))
  {
    hide Handler, EndHandler;
  }

  lemma Again(slack: nat, run0: seq<Step>, g: Hcd, e: nat) returns (run: seq<Step>, h: Hcd)
    requires Leads(slack, run0, g) && At(g, e) && e in g.t.func.events && g.t.func.start < g.t.timeouts[e]
    ensures Leads(slack, run, h) && Ok(h) && h == g.(t := Past(T.Enable(g.t, e, false)))
  {
    LookEnables(g, e);
    hide Leads, Apply, Enabled;
    run, h := Go(slack, run0, g, LOOK);
  }

  /** It turns a schedule off. */
  lemma LookTurnsOff(h: Hcd, e: nat)
    requires At(h, e) && e in h.t.func.events && h.t.timeouts[e] <= h.t.func.start
    requires e == DISABLE_PERIODIC || e == DISABLE_ASYNC
    ensures Enabled(h, LOOK)
    ensures Apply(h, LOOK) ==
      h.(t := Past(h.t), pse := h.pse && e == DISABLE_ASYNC, ase := h.ase && e == DISABLE_PERIODIC)
  {
    hide PollAss, PollPss, Death, StartFreeItds, UnlinkEmpty;
  }

  lemma TurnsOne(run0: seq<Step>, g: Hcd, e: nat) returns (run: seq<Step>, h: Hcd)
    requires Leads(0, run0, g) && At(g, e) && e in g.t.func.events && g.t.timeouts[e] <= g.t.func.start
    requires e == DISABLE_PERIODIC || e == DISABLE_ASYNC
    ensures Leads(0, run, h) && Ok(h)
    ensures h == g.(t := Past(g.t), pse := g.pse && e == DISABLE_ASYNC, ase := g.ase && e == DISABLE_PERIODIC)
  {
    LookTurnsOff(g, e);
    hide Leads, Apply, Enabled;
    run, h := Go(0, run0, g, LOOK);
  }

  /** It polls the periodic status, which still differs. */
  lemma LookPolls(h: Hcd)
    requires At(h, POLL_PSS) && POLL_PSS in h.t.func.events && h.t.timeouts[POLL_PSS] <= h.t.func.start
    requires h.t.running && h.pse != h.pss && h.pssPolls < MAX_POLLS
    ensures Enabled(h, LOOK)
    ensures Apply(h, LOOK) == h.(t := Past(T.Enable(h.t, POLL_PSS, true)), pssPolls := h.pssPolls + 1)
  {
    hide PollAss, Death, StartFreeItds, UnlinkEmpty;
  }

  /** An enabled event has waited for more than twice its delay. */
  predicate TooLate(t: T.Timer, e: nat)
  {
    e < NUM_EVENTS == |t.timeouts| && e in t.enabled && t.now > t.timeouts[e] + Delay(e)
  }

  // ---- the watchdog: a queue head is found empty, a stream ends, an interrupt queue head is unlinked, and
  // the controller dies, each when the timer is about to go off ----

  /** Two bulk endpoints, an interrupt endpoint and an isochronous stream at work. */
  predicate Busy(h: Hcd, ring: nat, iaa: nat, isoc: nat)
  {
    && h.t.running && !h.halted && h.ring == ring && h.waiting == 0 && h.iaa == iaa && h.ending == 0
    && !h.asyncUnlinking
    && h.linked == 1 && h.listed == 0 && h.endingIntr == 0 && !h.intrUnlinking && h.isoc == isoc
  }

  lemma GetBusy() returns (run: seq<Step>, h: Hcd)
    ensures Leads(0, run, h) && Busy(h, 2, 0, 1) && IsSet(h.t, {IO_WATCHDOG}, IO_WATCHDOG, 100_000_000, 0)
    ensures h.t.slack == 0
  {
    hide Leads;
    NoSteps(0);
    run, h := Go(0, [], Start(0), DoLinkAsync);
    run, h := Go(0, run, h, DoLinkAsync);
    run, h := Go(0, run, h, DoLinkIntr);
    run, h := Go(0, run, h, DoLinkIsoc);
  }

  /** A doorbell that is not answered. */
  lemma DoorbellLost(run0: seq<Step>, g: Hcd) returns (run: seq<Step>, h: Hcd)
    requires Leads(0, run0, g) && Busy(g, 2, 0, 1) && IsSet(g.t, {IO_WATCHDOG}, IO_WATCHDOG, 100_000_000, 0)
    requires g.t.slack == 0
    ensures Leads(0, run, h) && Busy(h, 1, 1, 1) && h.t.slack == 0 && h.emptySeen
    ensures IsSet(h.t, {IAA_WATCHDOG, IO_WATCHDOG}, IAA_WATCHDOG, 10_000_000, 10_000_000)
    ensures h.t.timeouts[IAA_WATCHDOG] == 10_000_000
  {
    hide Leads;
    run, h := Go(0, run0, g, DoUnlinkAsync);
    run, h := Go(0, run, h, Wait(10_000_000));
    run, h := Go(0, run, h, ScanFindsEmpty);
  }

  lemma StreamEnds(run0: seq<Step>, g: Hcd) returns (run: seq<Step>, h: Hcd)
    requires Leads(0, run0, g) && Busy(g, 1, 1, 1) && g.t.slack == 0 && g.emptySeen
    requires IsSet(g.t, {IAA_WATCHDOG, IO_WATCHDOG}, IAA_WATCHDOG, 10_000_000, 10_000_000)
    requires g.t.timeouts[IAA_WATCHDOG] == 10_000_000
    ensures Leads(0, run, h) && Busy(h, 1, 1, 0) && h.t.slack == 0
    ensures IsSet(h.t, {FREE_ITDS, ASYNC_UNLINKS, IAA_WATCHDOG, IO_WATCHDOG}, FREE_ITDS, 18_000_000, 16_000_000)
    ensures h.t.timeouts[IAA_WATCHDOG] == 10_000_000
  {
    hide Leads;
    run, h := Go(0, run0, g, ScanEnd);
    run, h := Go(0, run, h, Wait(6_000_000));
    run, h := Go(0, run, h, IsocDone(true));
  }

  lemma UnlinksLast(run0: seq<Step>, g: Hcd) returns (run: seq<Step>, h: Hcd)
    requires Leads(0, run0, g) && Busy(g, 1, 1, 0) && g.t.slack == 0
    requires IsSet(g.t, {FREE_ITDS, ASYNC_UNLINKS, IAA_WATCHDOG, IO_WATCHDOG}, FREE_ITDS, 18_000_000, 16_000_000)
    requires g.t.timeouts[IAA_WATCHDOG] == 10_000_000
    ensures Leads(0, run, h) && Ok(h) && h.t.func.Asleep? && h.t.next == UNLINK_INTR && h.t.now == 19_125_000
    ensures h.t.timeouts[IAA_WATCHDOG] == 10_000_000 && IAA_WATCHDOG in h.t.enabled
  {
    hide Leads;
    run, h := Go(0, run0, g, Wait(2_000_000));
    run, h := Go(0, run, h, DoUnlinkIntr);
    run, h := Go(0, run, h, Wait(1_125_000));
  }

  lemma WatchdogLate() returns (run: seq<Step>, h: Hcd)
    ensures Leads(0, run, h) && TooLate(h.t, IAA_WATCHDOG)
  {
    hide Leads, Busy, IsSet;
    run, h := GetBusy();
    run, h := DoorbellLost(run, h);
    run, h := StreamEnds(run, h);
    run, h := UnlinksLast(run, h);
    run, h := Go(0, run, h, Fatal(true));
    run, h := Go(0, run, h, Wait(1_000_000));
  }

  // ---- both schedules have just been turned off, and the status bits lag behind ----

  /** Nothing is queued. */
  predicate Quiet(h: Hcd)
  {
    && h.t.running && !h.halted && h.ring == 0 && h.waiting == 0 && h.iaa == 0 && h.ending == 0 && !h.asyncUnlinking
    && h.linked == 0 && h.listed == 0 && h.endingIntr == 0 && !h.intrUnlinking && h.isoc == 0
    && h.assPolls == 0 && h.pssPolls == 0 && h.t.slack == 0
  }

  predicate On(h: Hcd)
  {
    h.ase && h.ass && h.pse && h.pss
  }

  lemma AsyncOn() returns (run: seq<Step>, h: Hcd)
    ensures Leads(0, run, h) && IsSet(h.t, {IO_WATCHDOG}, IO_WATCHDOG, 100_000_000, 0) && h.ase && h.ass && !h.pse
    ensures !h.pss
    ensures Quiet(h.(ring := 0)) && h.ring == 1 && h.t.timeouts[IO_WATCHDOG] == 100_000_000
  {
    hide Leads;
    NoSteps(0);
    run, h := Go(0, [], Start(0), DoLinkAsync);
    run, h := Go(0, run, h, AssFollows);
  }

  lemma TurnOn() returns (run: seq<Step>, h: Hcd)
    ensures Leads(0, run, h) && IsSet(h.t, {IO_WATCHDOG}, IO_WATCHDOG, 100_000_000, 0) && On(h)
    ensures Quiet(h.(ring := 0, linked := 0)) && h.ring == 1 && h.linked == 1
    ensures h.t.timeouts[IO_WATCHDOG] == 100_000_000
  {
    hide Leads;
    run, h := AsyncOn();
    run, h := Go(0, run, h, DoLinkIntr);
    run, h := Go(0, run, h, PssFollows);
  }

  /** A queue head is unlinked, its doorbell answered at once. */
  lemma OneDoorbell(slack: nat, run0: seq<Step>, g: Hcd) returns (run: seq<Step>, h: Hcd)
    requires Leads(slack, run0, g) && Ok(g) && g.t.func.Asleep? && g.t.running && !g.halted && g.ring > 0
    requires g.waiting == 0 && g.iaa == 0 && g.ending == 0 && !g.asyncUnlinking
    ensures Leads(slack, run, h) && Ok(h)
    ensures h == g.(ring := g.ring - 1, ending := 1, asyncUnlinking := true,
                    t := T.StopWatchdog(T.Enable(g.t, IAA_WATCHDOG, true)))
  {
    hide Leads;
    run, h := Go(slack, run0, g, DoUnlinkAsync);
    run, h := Go(slack, run, h, DoorbellAnswered);
    run, h := Go(slack, run, h, TakeAsync);
  }

  /** The queue head is unlinked, its doorbell answered at once. */
  lemma LastAsync(run0: seq<Step>, g: Hcd) returns (run: seq<Step>, h: Hcd)
    requires Leads(0, run0, g) && IsSet(g.t, {IO_WATCHDOG}, IO_WATCHDOG, 100_000_000, 0) && On(g)
    requires Quiet(g.(ring := 0, linked := 0)) && g.ring == 1 && g.linked == 1
    requires g.t.timeouts[IO_WATCHDOG] == 100_000_000
    ensures Leads(0, run, h) && On(h) && Quiet(h.(linked := 0)) && h.linked == 1
    ensures IsSet(h.t, {DISABLE_ASYNC, IO_WATCHDOG}, DISABLE_PERIODIC, 10_000_000, 0)
    ensures h.t.timeouts[DISABLE_ASYNC] == 15_000_000 && h.t.timeouts[IO_WATCHDOG] == 100_000_000
  {
    hide Leads;
    run, h := OneDoorbell(0, run0, g);
    run, h := Go(0, run, h, FinishAsync(false));
    run, h := Go(0, run, h, EndAsync);
  }

  /** After a while the interrupt queue head is unlinked as well; the timer goes off for it. */
  lemma LastIntr(run0: seq<Step>, g: Hcd) returns (run: seq<Step>, h: Hcd)
    requires Leads(0, run0, g) && On(g) && Quiet(g.(linked := 0)) && g.linked == 1
    requires IsSet(g.t, {DISABLE_ASYNC, IO_WATCHDOG}, DISABLE_PERIODIC, 10_000_000, 0)
    requires g.t.timeouts[DISABLE_ASYNC] == 15_000_000 && g.t.timeouts[IO_WATCHDOG] == 100_000_000
    ensures Leads(0, run, h) && On(h) && Quiet(h.(listed := 0)) && h.listed == 1 && At(h, 0)
    ensures h.t.func == T.Running({UNLINK_INTR, DISABLE_ASYNC, IO_WATCHDOG}, 5_000_000, 0, false)
    ensures h.t.now == 5_000_000
    ensures h.t.enabled == {} && h.t.next == NO_EVENT && h.t.timeouts[UNLINK_INTR] == 5_000_000
    ensures h.t.timeouts[DISABLE_ASYNC] == 15_000_000 && h.t.timeouts[IO_WATCHDOG] == 100_000_000
  {
    hide Leads;
    run, h := Go(0, run0, g, Wait(3_875_000));
    run, h := Go(0, run, h, DoUnlinkIntr);
    run, h := Go(0, run, h, Wait(1_125_000));
    run, h := Go(0, run, h, GoOff);
  }

  /** The only interrupt queue head that is listed is ended by the handler: nothing periodic is left, and the
      schedule is to be turned off. */
  lemma IntrGone(slack: nat, run0: seq<Step>, g: Hcd) returns (run: seq<Step>, h: Hcd)
    requires Leads(slack, run0, g) && At(g, UNLINK_INTR) && UNLINK_INTR in g.t.func.events
    requires g.t.timeouts[UNLINK_INTR] <= g.t.func.start && g.t.running && !g.halted && g.pse && g.pss
    requires g.pssPolls == 0
    requires g.linked == 0 && g.listed == 1 && g.endingIntr == 0 && g.isoc == 0
    ensures Leads(slack, run, h) && Ok(h)
    ensures h == g.(t := Past(T.Enable(g.t, DISABLE_PERIODIC, true)), listed := 0, intrUnlinking := false)
  {
    hide Leads;
    run, h := Served(slack, run0, g);
    run, h := Go(slack, run, h, FinishIntr(false));
    run, h := Go(slack, run, h, HandlerDone);
  }

  lemma Served(slack: nat, run0: seq<Step>, g: Hcd) returns (run: seq<Step>, h: Hcd)
    requires Leads(slack, run0, g) && At(g, UNLINK_INTR) && UNLINK_INTR in g.t.func.events
    requires g.t.timeouts[UNLINK_INTR] <= g.t.func.start && g.listed > 0
    ensures Leads(slack, run, h) && Ok(h)
    ensures h == g.(t := g.t.(func := g.t.func.(handling := true)), listed := g.listed - 1,
                    endingIntr := g.endingIntr + 1, intrUnlinking := true)
  {
    hide Leads;
    run, h := Go(slack, run0, g, LOOK);
    run, h := Go(slack, run, h, TakeIntr);
  }

  /** Both schedules are to be turned off at 15 milliseconds. */
  predicate TurnsOff(t: T.Timer)
  {
    && |t.timeouts| == NUM_EVENTS && t.timeouts[DISABLE_PERIODIC] == 15_000_000
    && t.timeouts[DISABLE_ASYNC] == 15_000_000
    && t.timeouts[IO_WATCHDOG] == 100_000_000
  }

  lemma NothingLeft(run0: seq<Step>, g: Hcd) returns (run: seq<Step>, h: Hcd)
    requires Leads(0, run0, g) && On(g) && Quiet(g.(listed := 0)) && g.listed == 1 && At(g, 0)
    requires g.t.func == T.Running({UNLINK_INTR, DISABLE_ASYNC, IO_WATCHDOG}, 5_000_000, 0, false)
    requires g.t.now == 5_000_000
    requires g.t.enabled == {} && g.t.next == NO_EVENT && g.t.timeouts[UNLINK_INTR] == 5_000_000
    requires g.t.timeouts[DISABLE_ASYNC] == 15_000_000 && g.t.timeouts[IO_WATCHDOG] == 100_000_000
    ensures Leads(0, run, h) && On(h) && Quiet(h) && TurnsOff(h.t)
    ensures IsSet(h.t, {DISABLE_PERIODIC, DISABLE_ASYNC, IO_WATCHDOG}, DISABLE_PERIODIC, 15_000_000, 5_000_000)
  {
    hide Leads, Handler, EndHandler, LookAt;
    run, h := Skip(0, run0, g, UNLINK_INTR);
    run, h := IntrGone(0, run, h);
    run, h := Skip(0, run, h, DISABLE_ASYNC);
    run, h := Again(0, run, h, DISABLE_ASYNC);
    run, h := Again(0, run, h, IO_WATCHDOG);
    run, h := Go(0, run, h, TimerDone);
  }

  /** Neither schedule is enabled, but both are still on. */
  predicate Lagging(h: Hcd)
  {
    !h.ase && h.ass && !h.pse && h.pss && Quiet(h) && IsSet(h.t, {IO_WATCHDOG}, IO_WATCHDOG, 100_000_000, 15_000_000)
  }

  /** Under the timer function of 15 milliseconds. */
  predicate TurningOff(h: Hcd, e: nat)
  {
    && At(h, e) && Quiet(h) && TurnsOff(h.t) && h.t.now == 15_000_000
    && h.t.func == T.Running({DISABLE_PERIODIC, DISABLE_ASYNC, IO_WATCHDOG}, 15_000_000, e, false)
    && h.t.enabled == {} && h.t.next == NO_EVENT
  }

  lemma TurnOffBegins(run0: seq<Step>, g: Hcd) returns (run: seq<Step>, h: Hcd)
    requires Leads(0, run0, g) && On(g) && Quiet(g) && TurnsOff(g.t)
    requires IsSet(g.t, {DISABLE_PERIODIC, DISABLE_ASYNC, IO_WATCHDOG}, DISABLE_PERIODIC, 15_000_000, 5_000_000)
    ensures Leads(0, run, h) && On(h) && TurningOff(h, DISABLE_PERIODIC)
  {
    hide Leads;
    run, h := Go(0, run0, g, Wait(10_000_000));
    run, h := Go(0, run, h, GoOff);
    hide Apply, Enabled;
    run, h := Skip(0, run, h, DISABLE_PERIODIC);
  }

  lemma TurnOff(run0: seq<Step>, g: Hcd) returns (run: seq<Step>, h: Hcd)
    requires Leads(0, run0, g) && On(g) && TurningOff(g, DISABLE_PERIODIC)
    ensures Leads(0, run, h) && Lagging(h) && h.t.timeouts[IO_WATCHDOG] == 100_000_000
  {
    hide Leads;
    run, h := TurnsOne(run0, g, DISABLE_PERIODIC);
    run, h := TurnsOne(run, h, DISABLE_ASYNC);
    run, h := Again(0, run, h, IO_WATCHDOG);
    run, h := Go(0, run, h, TimerDone);
  }

  lemma GetLagging() returns (run: seq<Step>, h: Hcd)
    ensures Leads(0, run, h) && Lagging(h) && h.t.timeouts[IO_WATCHDOG] == 100_000_000
  {
    hide Leads, IsSet, Quiet, On, TurnsOff, Lagging, TurningOff;
    run, h := TurnOn();
    run, h := LastAsync(run, h);
    run, h := LastIntr(run, h);
    run, h := NothingLeft(run, h);
    run, h := TurnOffBegins(run, h);
    run, h := TurnOff(run, h);
  }

  // ---- UNLINK_INTR: the periodic status is polled once more, and then the asynchronous one for the first
  // time ----

  lemma PollsTwice(run0: seq<Step>, g: Hcd) returns (run: seq<Step>, h: Hcd)
    requires Leads(0, run0, g) && Lagging(g) && g.t.timeouts[IO_WATCHDOG] == 100_000_000
    ensures Leads(0, run, h) && Quiet(h.(listed := 0, pssPolls := 0)) && h.listed == 1 && h.pssPolls == 1
    ensures !h.ase && h.ass && !h.pse && h.pss && h.t.timeouts[IO_WATCHDOG] == 100_000_000
    ensures IsSet(h.t, {POLL_PSS, UNLINK_INTR, IO_WATCHDOG}, POLL_PSS, 16_000_000, 16_000_000)
    ensures h.t.timeouts[UNLINK_INTR] == 16_125_000 && h.t.timeouts[POLL_PSS] == 16_000_000
  {
    hide Leads;
    run, h := Go(0, run0, g, DoLinkIntr);
    run, h := Go(0, run, h, DoUnlinkIntr);
    run, h := Go(0, run, h, Wait(1_000_000));
  }

  lemma PollsAgain(run0: seq<Step>, g: Hcd) returns (run: seq<Step>, h: Hcd)
    requires Leads(0, run0, g) && Quiet(g.(listed := 0, pssPolls := 0)) && g.listed == 1 && g.pssPolls == 1
    requires !g.ase && g.ass && !g.pse && g.pss && g.t.timeouts[IO_WATCHDOG] == 100_000_000
    requires IsSet(g.t, {POLL_PSS, UNLINK_INTR, IO_WATCHDOG}, POLL_PSS, 16_000_000, 16_000_000)
    requires g.t.timeouts[UNLINK_INTR] == 16_125_000 && g.t.timeouts[POLL_PSS] == 16_000_000
    ensures Leads(0, run, h) && Quiet(h.(listed := 0, pssPolls := 0)) && !h.ase && h.ass && h.listed == 1
    ensures PolledAgain(h.t) && At(h, POLL_DEAD)
  {
    hide Leads;
    run, h := Go(0, run0, g, GoOff);
    hide Apply, Enabled;
    run, h := Skip(0, run, h, POLL_PSS);
    LookPolls(h);
    run, h := Go(0, run, h, LOOK);
  }

  /** The periodic status is to be polled again, and the rest to be looked at. */
  predicate PolledAgain(t: T.Timer)
  {
    && |t.timeouts| == NUM_EVENTS && t.timeouts[UNLINK_INTR] == 16_125_000 && t.timeouts[IO_WATCHDOG] == 100_000_000
    && t.func == T.Running({POLL_PSS, UNLINK_INTR, IO_WATCHDOG}, 16_000_000, POLL_DEAD, false)
    && t.enabled == {POLL_PSS} && t.next == POLL_PSS && t.armed && t.expiry == 17_000_000 && t.now == 16_000_000
  }

  lemma PolledOn(run0: seq<Step>, g: Hcd) returns (run: seq<Step>, h: Hcd)
    requires Leads(0, run0, g) && Quiet(g.(listed := 0, pssPolls := 0)) && !g.ase && g.ass && g.listed == 1
    requires PolledAgain(g.t) && At(g, POLL_DEAD)
    ensures Leads(0, run, h) && Quiet(h.(listed := 0, pssPolls := 0)) && !h.ase && h.ass && h.listed == 1
    ensures IsSet(h.t, {POLL_PSS, UNLINK_INTR, IO_WATCHDOG}, POLL_PSS, 17_000_000, 16_000_000)
    ensures h.t.timeouts[UNLINK_INTR] == 16_125_000
  {
    hide Leads, Handler, EndHandler, LookAt;
    run, h := Skip(0, run0, g, UNLINK_INTR);
    run, h := Again(0, run, h, UNLINK_INTR);
    run, h := Skip(0, run, h, IO_WATCHDOG);
    run, h := Again(0, run, h, IO_WATCHDOG);
    run, h := Go(0, run, h, TimerDone);
  }

  lemma UnlinkLate() returns (run: seq<Step>, h: Hcd)
    ensures Leads(0, run, h) && TooLate(h.t, UNLINK_INTR)
  {
    hide Leads, Lagging;
    run, h := GetLagging();
    run, h := PollsTwice(run, h);
    run, h := PollsAgain(run, h);
    run, h := PolledOn(run, h);
    run, h := Go(0, run, h, Wait(1_000_000));
    run, h := Go(0, run, h, DoLinkAsync);
    run, h := Go(0, run, h, Wait(1_000_000));
  }

  // ---- FREE_ITDS: an interrupt queue head is unlinked, and then the asynchronous status polled ----

  lemma StreamThere(run0: seq<Step>, g: Hcd) returns (run: seq<Step>, h: Hcd)
    requires Leads(0, run0, g) && Lagging(g)
    ensures Leads(0, run, h) && Quiet(h.(linked := 0)) && h.linked == 1 && !h.ase && h.ass
    ensures IsSet(h.t, {FREE_ITDS, IO_WATCHDOG}, FREE_ITDS, 18_000_000, 16_000_000)
    ensures h.t.timeouts[FREE_ITDS] == 18_000_000
  {
    hide Leads;
    run, h := Go(0, run0, g, PssFollows);
    run, h := Go(0, run, h, DoLinkIsoc);
    run, h := Go(0, run, h, DoLinkIntr);
    run, h := StreamGone(run, h);
  }

  lemma StreamGone(run0: seq<Step>, g: Hcd) returns (run: seq<Step>, h: Hcd)
    requires Leads(0, run0, g) && Quiet(g.(linked := 0, isoc := 0)) && g.linked == 1 && g.isoc == 1 && !g.ase && g.ass
    requires IsSet(g.t, {IO_WATCHDOG}, IO_WATCHDOG, 100_000_000, 15_000_000)
    ensures Leads(0, run, h) && Quiet(h.(linked := 0)) && h.linked == 1 && !h.ase && h.ass
    ensures IsSet(h.t, {FREE_ITDS, IO_WATCHDOG}, FREE_ITDS, 18_000_000, 16_000_000)
    ensures h.t.timeouts[FREE_ITDS] == 18_000_000
  {
    hide Leads;
    run, h := Go(0, run0, g, Wait(1_000_000));
    run, h := Go(0, run, h, IsocDone(true));
  }

  lemma UnlinkedThen(run0: seq<Step>, g: Hcd) returns (run: seq<Step>, h: Hcd)
    requires Leads(0, run0, g) && Quiet(g.(linked := 0)) && g.linked == 1 && !g.ase && g.ass
    requires IsSet(g.t, {FREE_ITDS, IO_WATCHDOG}, FREE_ITDS, 18_000_000, 16_000_000)
    requires g.t.timeouts[FREE_ITDS] == 18_000_000
    ensures Leads(0, run, h) && Quiet(h.(listed := 0)) && !h.ase && h.ass && h.t.timeouts[FREE_ITDS] == 18_000_000
    ensures IsSet(h.t, {UNLINK_INTR, FREE_ITDS, IO_WATCHDOG}, UNLINK_INTR, 19_125_000, 19_125_000)
  {
    hide Leads;
    run, h := Go(0, run0, g, Wait(2_000_000));
    run, h := Go(0, run, h, DoUnlinkIntr);
    run, h := Go(0, run, h, Wait(1_125_000));
  }

  lemma FreeLate() returns (run: seq<Step>, h: Hcd)
    ensures Leads(0, run, h) && TooLate(h.t, FREE_ITDS)
  {
    hide Leads, Lagging;
    run, h := GetLagging();
    run, h := StreamThere(run, h);
    run, h := UnlinkedThen(run, h);
    run, h := Go(0, run, h, DoLinkAsync);
    run, h := Go(0, run, h, Wait(1_000_000));
  }

  // ---- the events after the watchdog: doorbells come and go ----

  /** A later event is pending, and there are queue heads for doorbells. */
  predicate Postponed(h: Hcd, e: nat)
  {
    && Ok(h) && h.t.func.Asleep? && h.t.running && !h.halted && IAA_WATCHDOG < e < NUM_EVENTS
    && e in h.t.enabled && IAA_WATCHDOG < h.t.next && (h.t.armed ==> h.t.now <= h.t.expiry)
    && h.ring >= 2 && h.waiting == 0 && h.iaa == 0 && h.ending == 0 && !h.asyncUnlinking
  }

  /** A queue head with further requests is unlinked, and the doorbell answered before the watchdog goes
      off. */
  lemma Rings(slack: nat, run0: seq<Step>, g: Hcd, e: nat) returns (run: seq<Step>, h: Hcd)
    requires Leads(slack, run0, g) && Postponed(g, e)
    ensures Leads(slack, run, h) && Ok(h) && h.t.func.Asleep? && h.t.running && !h.halted && e in h.t.enabled
    ensures IAA_WATCHDOG < h.t.next && h.t.armed && h.t.now == g.t.now + 9_000_000 && h.t.now <= h.t.expiry
    ensures h.ring == g.ring - 1 && h.waiting == 0 && h.iaa == 1 && h.ending == 0 && h.asyncUnlinking
    ensures h.t.timeouts[e] == g.t.timeouts[e]
  {
    hide Leads;
    run, h := Go(slack, run0, g, DoUnlinkAsync);
    run, h := Go(slack, run, h, Wait(9_000_000));
    run, h := Go(slack, run, h, DoorbellAnswered);
  }

  lemma OneRound(slack: nat, run0: seq<Step>, g: Hcd, e: nat) returns (run: seq<Step>, h: Hcd)
    requires Leads(slack, run0, g) && Postponed(g, e)
    ensures Leads(slack, run, h) && Postponed(h, e) && h.t.now == g.t.now + 9_000_000
    ensures h.t.timeouts[e] == g.t.timeouts[e]
  {
    hide Leads;
    run, h := Rings(slack, run0, g, e);
    run, h := Go(slack, run, h, TakeAsync);
    run, h := Go(slack, run, h, FinishAsync(true));
    run, h := Go(slack, run, h, EndAsync);
  }

  lemma {:induction false} Rounds(slack: nat, run0: seq<Step>, g: Hcd, e: nat, n: nat) returns (run: seq<Step>, h: Hcd)
    requires Leads(slack, run0, g) && Postponed(g, e)
    ensures Leads(slack, run, h) && Postponed(h, e) && h.t.now == g.t.now + n * 9_000_000
    ensures h.t.timeouts[e] == g.t.timeouts[e]
    decreases n
  {
    hide Leads, Postponed;
    if n == 0 {
      run, h := run0, g;
    } else {
      run, h := OneRound(slack, run0, g, e);
      run, h := Rounds(slack, run, h, e, n - 1);
    }
  }

  /** An interrupt endpoint has begun. */
  lemma IntrBegun(slack: nat) returns (run: seq<Step>, h: Hcd)
    ensures Leads(slack, run, h)
    ensures h == Start(slack).(t := h.t, linked := 1, pse := true, pss := true) && h.t.slack == slack
    ensures IsSet(h.t, {IO_WATCHDOG}, IO_WATCHDOG, 100_000_000, 0) && h.t.running
    ensures h.t.timeouts[IO_WATCHDOG] == 100_000_000
  {
    hide Leads;
    NoSteps(slack);
    run, h := Go(slack, [], Start(slack), DoLinkIntr);
    run, h := Go(slack, run, h, PssFollows);
  }

  /** And two bulk endpoints. */
  lemma Begun(slack: nat) returns (run: seq<Step>, h: Hcd)
    ensures Leads(slack, run, h) && h.t.slack == slack
    ensures h == Start(slack).(t := h.t, linked := 1, pse := true, pss := true, ring := 2, ase := true) && h.t.running
    ensures IsSet(h.t, {IO_WATCHDOG}, IO_WATCHDOG, 100_000_000, 0) && h.t.timeouts[IO_WATCHDOG] == 100_000_000
  {
    hide Leads;
    run, h := IntrBegun(slack);
    run, h := Go(slack, run, h, DoLinkAsync);
    run, h := Go(slack, run, h, DoLinkAsync);
  }

  /** Of them the interrupt endpoint is unlinked. */
  lemma IntrGoes(slack: nat) returns (run: seq<Step>, h: Hcd)
    ensures Leads(slack, run, h) && At(h, 0) && h.t.timeouts[UNLINK_INTR] == h.t.func.start && h.t.running
    ensures h == Start(slack).(t := h.t, listed := 1, pse := true, pss := true, ring := 2, ase := true)
    ensures h.t.func.events == {UNLINK_INTR, IO_WATCHDOG} && h.t.enabled == {} && h.t.next == NO_EVENT
    ensures h.t.now == h.t.func.start < h.t.timeouts[IO_WATCHDOG]
  {
    hide Leads;
    run, h := Begun(slack);
    run, h := Go(slack, run, h, DoUnlinkIntr);
    run, h := Go(slack, run, h, Wait(1_125_000));
    run, h := Go(slack, run, h, GoOff);
  }

  lemma PeriodicPending(slack: nat) returns (run: seq<Step>, h: Hcd)
    ensures Leads(slack, run, h) && Postponed(h, DISABLE_PERIODIC)
  {
    hide Leads, Handler, EndHandler, LookAt;
    run, h := IntrGoes(slack);
    run, h := Skip(slack, run, h, UNLINK_INTR);
    run, h := IntrGone(slack, run, h);
    run, h := Skip(slack, run, h, IO_WATCHDOG);
    run, h := Again(slack, run, h, IO_WATCHDOG);
    run, h := Go(slack, run, h, TimerDone);
  }

  lemma IoPending(slack: nat) returns (run: seq<Step>, h: Hcd)
    ensures Leads(slack, run, h) && Postponed(h, IO_WATCHDOG)
  {
    hide Leads;
    NoSteps(slack);
    run, h := Go(slack, [], Start(slack), DoLinkAsync);
    run, h := Go(slack, run, h, DoLinkAsync);
  }

  // ---- DISABLE_ASYNC is cleared when the first queue head is linked, but not where the timer function has
  // found it enabled ----

  /** Two interrupt queue heads; the asynchronous schedule is on and empty, and to be turned off. */
  predicate Emptied(h: Hcd)
  {
    && Ok(h) && h.t.func.Asleep? && h.t.running && !h.halted && h.ase && h.ass && h.assPolls == 0 && !h.asyncUnlinking
    && h.ring == 0 && h.waiting == 0 && h.iaa == 0 && h.ending == 0
    && h.linked == 2 && h.listed == 0 && h.endingIntr == 0 && !h.intrUnlinking && h.isoc == 0
    && h.t.enabled == {DISABLE_ASYNC, IO_WATCHDOG} && h.t.next == DISABLE_PERIODIC && h.t.armed
    && h.t.expiry == 10_000_000 && h.t.now == 0 && h.t.timeouts[DISABLE_ASYNC] == 15_000_000
  }

  lemma OneOfEach(slack: nat) returns (run: seq<Step>, h: Hcd)
    ensures Leads(slack, run, h) && Ok(h) && h.ase && h.ass && h.assPolls == 0
    ensures h.t.func.Asleep? && h.t.running && !h.halted && !h.asyncUnlinking && h.ring == 1 && h.waiting == 0
    ensures h.iaa == 0 && h.ending == 0 && h.linked == 2 && h.listed == 0 && h.endingIntr == 0 && !h.intrUnlinking
    ensures h.isoc == 0
    ensures h.t.enabled == {IO_WATCHDOG} && h.t.next == IO_WATCHDOG && h.t.now == 0
  {
    hide Leads;
    NoSteps(slack);
    run, h := Go(slack, [], Start(slack), DoLinkIntr);
    run, h := Go(slack, run, h, DoLinkIntr);
    run, h := Go(slack, run, h, DoLinkAsync);
    run, h := Go(slack, run, h, AssFollows);
  }

  lemma GetEmptied(slack: nat) returns (run: seq<Step>, h: Hcd)
    ensures Leads(slack, run, h) && Emptied(h)
  {
    hide Leads;
    run, h := OneOfEach(slack);
    run, h := OneDoorbell(slack, run, h);
    run, h := Go(slack, run, h, FinishAsync(false));
    run, h := Go(slack, run, h, EndAsync);
  }

  /** In the handler of UNLINK_INTR, which has found the event enabled. */
  predicate Caught(h: Hcd, ring: nat)
  {
    && Ok(h) && h.t.running && !h.halted && h.ase && h.ass && h.assPolls == 0 && !h.asyncUnlinking
    && h.ring == ring && h.waiting == 0 && h.iaa == 0 && h.ending == 0
    && h.linked == 1 && h.listed == 0 && h.endingIntr == 1 && h.intrUnlinking && h.isoc == 0
    && h.t.func == T.Running({UNLINK_INTR, DISABLE_ASYNC, IO_WATCHDOG}, 1_125_000, UNLINK_INTR, true)
    && h.t.timeouts[DISABLE_ASYNC] == 15_000_000 && h.t.now == 1_125_000
  }

  lemma GoesOff(slack: nat, run0: seq<Step>, g: Hcd) returns (run: seq<Step>, h: Hcd)
    requires Leads(slack, run0, g) && Emptied(g)
    ensures Leads(slack, run, h) && h.t.enabled == {} && h.t.next == NO_EVENT && At(h, 0) && h.linked == 1
    ensures h.listed == 1
    ensures Caught(h.(t := h.t.(func := h.t.func.(e := UNLINK_INTR, handling := true)),
                      listed := 0, endingIntr := 1, intrUnlinking := true), 0)
    ensures h.endingIntr == 0 && h.t.timeouts[UNLINK_INTR] == 1_125_000
  {
    hide Leads;
    run, h := Go(slack, run0, g, DoUnlinkIntr);
    run, h := Go(slack, run, h, Wait(1_125_000));
    run, h := Go(slack, run, h, GoOff);
  }

  lemma Catches(slack: nat, run0: seq<Step>, g: Hcd) returns (run: seq<Step>, h: Hcd)
    requires Leads(slack, run0, g) && Emptied(g)
    ensures Leads(slack, run, h) && Caught(h, 0) && h.t.enabled == {} && h.t.next == NO_EVENT
  {
    hide Leads;
    run, h := GoesOff(slack, run0, g);
    run, h := Skip(slack, run, h, UNLINK_INTR);
    run, h := Go(slack, run, h, LOOK);
    run, h := Go(slack, run, h, TakeIntr);
  }

  /** While its requests are given back, queue heads are linked. */
  lemma LinksTwo(slack: nat, run0: seq<Step>, g: Hcd) returns (run: seq<Step>, h: Hcd)
    requires Leads(slack, run0, g) && Caught(g, 0) && g.t.enabled == {} && g.t.next == NO_EVENT
    ensures Leads(slack, run, h) && Caught(h, 2) && h.t.enabled == {IO_WATCHDOG} && h.t.next == IO_WATCHDOG && h.t.armed
    ensures h.t.timeouts[IO_WATCHDOG] == 101_125_000
  {
    hide Leads;
    run, h := Go(slack, run0, g, DoLinkAsync);
    run, h := Go(slack, run, h, DoLinkAsync);
  }

  /** The event is enabled again. */
  lemma AsyncPending(slack: nat) returns (run: seq<Step>, h: Hcd)
    ensures Leads(slack, run, h) && Postponed(h, DISABLE_ASYNC)
  {
    hide Leads, Emptied;
    run, h := GetEmptied(slack);
    run, h := Catches(slack, run, h);
    run, h := LinksTwo(slack, run, h);
    run, h := HandlerLeaves(slack, run, h);
    run, h := Stale(slack, run, h);
  }

  /** After the handler. */
  predicate Missed(h: Hcd)
  {
    && At(h, FREE_ITDS) && h.t.running && !h.halted && !h.asyncUnlinking
    && h.ring == 2 && h.waiting == 0 && h.iaa == 0 && h.ending == 0
    && h.t.func == T.Running({UNLINK_INTR, DISABLE_ASYNC, IO_WATCHDOG}, 1_125_000, FREE_ITDS, false)
    && h.t.enabled == {IO_WATCHDOG} && h.t.next == IO_WATCHDOG && h.t.armed && h.t.now == 1_125_000
    && h.t.timeouts[DISABLE_ASYNC] == 15_000_000 && h.t.timeouts[IO_WATCHDOG] == 101_125_000
  }

  lemma HandlerLeaves(slack: nat, run0: seq<Step>, g: Hcd) returns (run: seq<Step>, h: Hcd)
    requires Leads(slack, run0, g) && Caught(g, 2) && g.t.enabled == {IO_WATCHDOG} && g.t.next == IO_WATCHDOG
    requires g.t.armed
    requires g.t.timeouts[IO_WATCHDOG] == 101_125_000
    ensures Leads(slack, run, h) && Missed(h)
  {
    hide Leads;
    run, h := Go(slack, run0, g, FinishIntr(false));
    run, h := Go(slack, run, h, HandlerDone);
  }

  lemma Stale(slack: nat, run0: seq<Step>, g: Hcd) returns (run: seq<Step>, h: Hcd)
    requires Leads(slack, run0, g) && Missed(g)
    ensures Leads(slack, run, h) && Postponed(h, DISABLE_ASYNC)
  {
    hide Leads, Handler, EndHandler, LookAt;
    run, h := Skip(slack, run0, g, DISABLE_ASYNC);
    run, h := Again(slack, run, h, DISABLE_ASYNC);
    run, h := Again(slack, run, h, IO_WATCHDOG);
    run, h := Go(slack, run, h, TimerDone);
  }

  /** Each event after the watchdog can be overdue by any amount: each doorbell answered while the watchdog
      is tracked lets the next one set the timer anew. */
  lemma LaterEventsStarve(slack: nat, e: nat, overdue: nat) returns (run: seq<Step>, h: Hcd)
    requires IAA_WATCHDOG < e < NUM_EVENTS
    ensures Leads(slack, run, h) && Ok(h) && e in h.t.enabled && h.t.now >= h.t.timeouts[e] + overdue
  {
    hide Leads;
    if e == DISABLE_PERIODIC {
      run, h := PeriodicPending(slack);
    } else if e == DISABLE_ASYNC {
      run, h := AsyncPending(slack);
    } else {
      run, h := IoPending(slack);
    }
    var wait := if h.t.timeouts[e] > h.t.now then h.t.timeouts[e] - h.t.now else 0;
    run, h := Rounds(slack, run, h, e, wait + overdue);
  }

  // ---- which events are how late ----

  /** In no run of the driver does `e` wait for more than `late` beyond its timeout. */
  ghost predicate NeverLater(slack: nat, e: nat, late: int)
    requires e < NUM_EVENTS
  {
    forall run :: Legal(Start(slack), run) && e in T.Pending(Exec(Start(slack), run).t) ==>
      Exec(Start(slack), run).t.now <= Exec(Start(slack), run).t.timeouts[e] + late
  }

  /** The events that are always handled within twice their delay: the status polls, the poll of a dead
      controller, and the unlinking of empty queue heads. */
  predicate Prompt(e: nat)
  {
    e == POLL_ASS || e == POLL_PSS || e == POLL_DEAD || e == ASYNC_UNLINKS
  }

  lemma LateValues()
    ensures T.Late(POLL_ASS, 0) == 0 && T.Late(POLL_PSS, 0) == 1_000_000 && T.Late(POLL_DEAD, 0) == 0
    ensures T.Late(ASYNC_UNLINKS, 0) == 5_125_000
  {
    assert T.Below(3, 0) == 2_000_000;
    assert T.Below(4, 0) == T.Below(3, 0) + 1_125_000;
    assert T.Below(5, 0) == T.Below(4, 0) + 2_000_000;
  }

  lemma TwiceIff(e: nat)
    requires e < NUM_EVENTS
    ensures NeverLater(0, e, Delay(e)) <==> Prompt(e)
  {
    hide Legal, Exec, T.Late;
    if Prompt(e) {
      forall run | Legal(Start(0), run) && e in T.Pending(Exec(Start(0), run).t)
        ensures Exec(Start(0), run).t.now <= Exec(Start(0), run).t.timeouts[e] + Delay(e)
      {
        LateValues();
        RunTimely(0, run, e);
      }
    } else {
      var run, h;
      if e == UNLINK_INTR {
        run, h := UnlinkLate();
      } else if e == FREE_ITDS {
        run, h := FreeLate();
      } else if e == IAA_WATCHDOG {
        run, h := WatchdogLate();
      } else {
        run, h := LaterEventsStarve(0, e, Delay(e) + 1);
      }
      assert e in T.Pending(Exec(Start(0), run).t);
    }
  }

  /** Exactly the events up to the watchdog have a bound at all. */
  lemma BoundIff(slack: nat, e: nat)
    requires e < NUM_EVENTS
    ensures (exists late :: NeverLater(slack, e, late)) <==> e <= IAA_WATCHDOG
  {
    hide Legal, Exec;
    if e <= IAA_WATCHDOG {
      forall run | Legal(Start(slack), run) && e in T.Pending(Exec(Start(slack), run).t)
        ensures Exec(Start(slack), run).t.now <= Exec(Start(slack), run).t.timeouts[e] + (T.Late(e, slack) + 2 * slack)
      {
        RunTimely(slack, run, e);
      }
      assert NeverLater(slack, e, T.Late(e, slack) + 2 * slack);
    } else {
      forall late
        ensures !NeverLater(slack, e, late)
      {
        var run, h := LaterEventsStarve(slack, e, if late < 0 then 0 else late + 1);
        assert e in T.Pending(Exec(Start(slack), run).t);
      }
    }
  }
}
