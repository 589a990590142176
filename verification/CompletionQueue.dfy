/** qh_completions in place: the loop over the queue, with what other parts of the driver and the
    controller do while a giveback has dropped the lock.  Each call is a run of the transition system. */
module CompletionQueue {
  import opened Wrappers
  import opened QtdCompletion
  import opened CompletionSafety
  import opened CompletionRuns

  /** What can happen while a giveback has dropped the lock. */
  predicate Outsider(step: Step)
  {
    step.DoSubmit? || step.Dequeue? || step.Retire? || step.Overlay?
  }

  class CompletionQueue {
    var l: Lists
    var hw: Hw
    var rq: Requests
    var c: Call
    var freed: seq<nat>
    var start: seq<Td>
    var mark: nat

    function View(): State
      reads this
    {
      State(l, hw, rq, c, freed, start, mark)
    }

    /** A queue head with nothing queued. */
    constructor (dummy: nat)
      ensures View() == Empty(dummy)
    {
      l := Lists([], None, [], []);
      hw := Hw(map[], map[], None, Token(false, true, false, false, false, false, 0, 0), dummy);
      rq := Requests(map[], map[], {}, []);
      c := Call(true, true, false, false, 0, InProgress, Outside, false, dummy);
      freed, start, mark := [], [], 0;
    }

    /** Hand a request back; the lock is dropped. */
    method UrbDone()
      requires l.last.Some?
      modifies this
      ensures View() == Done(old(View()))
    {
      var td := l.last.value;
      var actual := if td.urb in rq.actual then rq.actual[td.urb] else 0;
      rq := rq.(given := rq.given + [Given(td.urb, c.status, actual)]);
      c := c.(status := InProgress, dropped := true);
      freed := freed + [td.id];
      l := l.(last := None);
    }

    /** Clean up any state from the previous entry. */
    method CleanUpLast()
      requires l.last.Some? && l.todo != []
      modifies this
      ensures View() == CleanUp(old(View()))
    {
      if l.last.value.urb != l.todo[0].urb {
        UrbDone();
      } else {
        freed := freed + [l.last.value.id];
        l := l.(last := None);
      }
    }

    /** Unless we already know the request's status, collect it and count the bytes transferred. */
    method CollectStatus(td: Td, t: Token, known: Status) returns (status: Status)
      modifies this`rq
      ensures (rq, status) == Collect(old(rq), known, td, t)
    {
      status := known;
      if status == InProgress {
        var actual := if td.urb in rq.actual then rq.actual[td.urb] else 0;
        status := CopyStatus(td, t, td.urb in rq.unlinked);
        rq := rq.(actual := rq.actual[td.urb := actual + Transferred(td, t)]);
      }
    }

    /** The link of the entry before now leads past the one that is taken off; at the head there is none. */
    method PatchLink(td: Td, stopped: bool)
      modifies this`hw
      ensures hw == Patch(old(hw), l.kept, td, stopped)
    {
      if stopped && l.kept != [] {
        var prev := l.kept[|l.kept| - 1].id;
        hw := hw.(hwNext := hw.hwNext[prev := if td.id in hw.hwNext then hw.hwNext[td.id] else 0]);
      }
    }

    /** Take the entry under the cursor off the queue, with its status. */
    method TakeOff(t: Token, stops: bool, known: Status)
      requires l.todo != []
      modifies this
      ensures View() == Remove(old(View()), t, stops, known)
    {
      hide Collect, Patch;
      var td := l.todo[0];
      var stopped := c.stopped || stops;
      var status := CollectStatus(td, t, known);
      PatchLink(td, stopped);
      l := l.(todo := l.todo[1..], last := Some(td));
      c := c.(stopped := stopped, status := status, xacterrs := 0);
    }

    /** Retry a transaction error, up to the limit. */
    method RetryXactErr(td: Td)
      modifies this
      ensures View() == Retry(old(View()), td)
    {
      var t := TokenOf(hw, td.id);
      if !t.active && t.halt && t.xact && t.cerr == 0 {
        c := c.(xacterrs := c.xacterrs + 1);
        if c.xacterrs < XACTERR_MAX && td.urb !in rq.unlinked {
          t := t.(halt := false, active := true, cerr := TUNE_CERR);
          hw := hw.(token := hw.token[td.id := t], overlayToken := t);
        }
      }
    }

    /** One look at the entry under the cursor. */
    method LookAt()
      requires l.todo != []
      modifies this
      ensures View() == Visit(old(View()))
    {
      var td := l.todo[0];
      RetryXactErr(td);
      hide Remove, Retry;
      var t := TokenOf(hw, td.id);
      if !t.active {
        TakeOff(t, t.halt || (t.residue != 0 && td.pid == In && !td.altEnd), c.status);
      } else if !c.stopped && c.running {
        // from here on the controller is at work
        c := c.(pc := Ended);
      } else if c.running && c.status == InProgress && td.urb !in rq.unlinked {
        c := c.(stopped := true);
        l := l.(kept := l.kept + [td], todo := l.todo[1..]);
      } else {
        // of an idle queue head the overlay may have what the descriptor has not
        if c.idle && hw.overlay == Some(td.id) {
          t := hw.overlayToken;
        }
        TakeOff(t, true, if c.running then c.status else Shutdown);
      }
    }

    /** What happens elsewhere before the lock is taken again: each step of `work` that can be taken. */
    method Giveback(work: seq<Step>) returns (ghost run: seq<Step>)
      requires Inv(View()) && c.dropped && c.pc != Outside
      modifies this
      ensures Inv(View()) && !c.dropped && c.pc == old(c.pc)
      ensures l.kept == old(l.kept) && l.last == old(l.last) && l.todo == old(l.todo) && start == old(start)
      ensures Legal(old(View()), run) && View() == Exec(old(View()), run)
    {
      ghost var s := View();
      run := [];
      for i := 0 to |work|
        invariant Inv(View()) && c.dropped && c.pc == old(c.pc)
        invariant l.kept == old(l.kept) && l.last == old(l.last) && l.todo == old(l.todo) && start == old(start)
        invariant Legal(s, run) && View() == Exec(s, run)
      {
        ghost var more := Elsewhere(work[i]);
        Join(s, run, more);
        run := run + more;
      }
      Extend(s, run, Resume);
      StepInv(View(), Resume);
      run := run + [Resume];
      hide Inv, Legal, Exec;
      c := c.(dropped := false);
    }

    method Elsewhere(step: Step) returns (ghost run: seq<Step>)
      requires Inv(View()) && c.dropped && c.pc != Outside
      modifies this
      ensures Inv(View()) && c.dropped && c.pc == old(c.pc)
      ensures l.kept == old(l.kept) && l.last == old(l.last) && l.todo == old(l.todo) && start == old(start)
      ensures Legal(old(View()), run) && View() == Exec(old(View()), run)
    {
      hide Inv, Legal, Exec;
      NoSteps(View());
      run := [];
      if Outsider(step) && Enabled(View(), step) {
        Extend(View(), [], step);
        StepInv(View(), step);
        run := [] + [step];
        hide Enabled;
        if step.DoSubmit? {
          l := l.(later := l.later + step.r.tds);
          var hwNext := AddLinks(hw.hwNext, step.r.tds, step.r.dummy);
          hw := hw.(token := AddTokens(hw.token, step.r.tds), hwNext := hwNext, dummy := step.r.dummy);
          rq := rq.(total := rq.total[step.r.urb := step.r.length], actual := rq.actual[step.r.urb := 0]);
        } else if step.Dequeue? {
          rq := rq.(unlinked := rq.unlinked + {step.u});
          c := c.(needsRescan := true);
        } else if step.Retire? {
          var id := Queue(l)[step.i].id;
          hw := hw.(token := hw.token[id := step.t], overlay := Some(id), overlayToken := step.t);
        } else {
          hw := hw.(overlay := Some(step.id), overlayToken := step.t);
        }
      }
    }

    /** Entries of the pass that are still queued, or removed and not freed. */
    function Size(): nat
      reads this
    {
      |l.kept| + |Seq(l.last)| + |l.todo|
    }

    /** One turn of the loop: clean up after the previous entry, with a giveback if that was its request's
        last one, and look at the next. */
    method Turn(work: seq<Step>) returns (ghost run: seq<Step>)
      requires Inv(View()) && c.pc == Loop && !c.dropped && l.todo != []
      modifies this
      ensures Inv(View()) && !c.dropped && (c.pc == Ended || (c.pc == Loop && |l.todo| < |old(l.todo)|))
      ensures Size() <= old(Size()) && (c.needsRescan && !old(c.needsRescan) ==> Size() < old(Size()))
      ensures Legal(old(View()), run) && View() == Exec(old(View()), run)
    {
      ghost var s := View();
      run := [];
      hide Inv, Exec, Legal;
      if l.last.Some? {
        run := CleanedUp(work);
      } else {
        NoSteps(s);
      }
      ghost var s1 := View();
      StepInv(s1, DoVisit);
      Extend(s, run, DoVisit);
      run := run + [DoVisit];
      LookAt();
      VisitSizes(s1);
    }

    /** The end of a pass: the last request's completion might still need calling. */
    method Wind(work: seq<Step>) returns (ghost run: seq<Step>)
      requires Inv(View()) && c.pc == Ended && !c.dropped
      modifies this
      ensures Inv(View()) && c.pc == After && !c.dropped && l.last == None
      ensures Size() <= old(Size()) && (c.needsRescan && !old(c.needsRescan) ==> Size() < old(Size()))
      ensures Legal(old(View()), run) && View() == Exec(old(View()), run)
    {
      hide Inv, Exec, Legal, Outsider;
      ghost var s := View();
      StepInv(s, Finish);
      NoSteps(s);
      Extend(s, [], Finish);
      run := [] + [Finish];
      if l.last.Some? {
        UrbDone();
      }
      c := c.(pc := After);
      if c.dropped {
        ghost var inside := Giveback(work);
        Join(s, run, inside);
        run := run + inside;
      }
    }

    /** One pass over the entries queued before the call began. */
    method Pass(work: seq<seq<Step>>) returns (ghost run: seq<Step>)
      requires Inv(View()) && c.pc == Loop && !c.dropped && !c.needsRescan
      modifies this
      ensures Inv(View()) && c.pc == After && !c.dropped && l.last == None
      ensures Size() <= old(Size()) && (c.needsRescan ==> Size() < old(Size()))
      ensures Legal(old(View()), run) && View() == Exec(old(View()), run)
    {
      ghost var s := View();
      NoSteps(s);
      hide Inv, Exec, Legal;
      run := [];
      var i := 0;
      while c.pc == Loop && l.todo != []
        invariant Inv(View()) && !c.dropped && (c.pc == Loop || c.pc == Ended)
        invariant Size() <= old(Size()) && (c.needsRescan ==> Size() < old(Size()))
        invariant Legal(s, run) && View() == Exec(s, run)
        decreases c.pc == Loop, |l.todo|
      {
        ghost var more := Turn(if i < |work| then work[i] else []);
        Join(s, run, more);
        run := run + more;
        i := i + 1;
      }
      if c.pc == Loop {
        StepInv(View(), LoopDone);
        Extend(s, run, LoopDone);
        run := run + [LoopDone];
        c := c.(pc := Ended);
      }
      ghost var end := Wind(if i < |work| then work[i] else []);
      Join(s, run, end);
      run := run + end;
    }

    /** The first pass of a call. */
    method FirstPass(idle: bool, running: bool, work: seq<seq<Step>>) returns (ghost run: seq<Step>)
      requires Inv(View()) && c.pc == Outside && l.todo != []
      modifies this
      ensures Inv(View()) && c.pc == After && !c.dropped && l.last == None
      ensures Legal(old(View()), run) && View() == Exec(old(View()), run)
    {
      ghost var s := View();
      NoSteps(s);
      StepInv(s, Begin(idle, running));
      Extend(s, [], Begin(idle, running));
      ghost var begun := [] + [Begin(idle, running)];
      hide Inv, Exec, Legal;
      start, mark := l.todo, |rq.given|;
      c := Call(idle, running, idle, false, c.xacterrs, InProgress, Loop, false, hw.dummy);
      run := Pass(work);
      Join(s, begun, run);
      run := begun + run;
    }

    /** Another pass, for what was cancelled during the one before. */
    method NextPass(work: seq<seq<Step>>) returns (ghost run: seq<Step>)
      requires Inv(View()) && c.pc == After && !c.dropped && l.last == None && c.needsRescan && c.idle
      modifies this
      ensures Inv(View()) && c.pc == After && !c.dropped && l.last == None
      ensures Size() <= old(Size()) && (c.needsRescan ==> Size() < old(Size()))
      ensures Legal(old(View()), run) && View() == Exec(old(View()), run)
    {
      ghost var s := View();
      NoSteps(s);
      StepInv(s, Rescan);
      Extend(s, [], Rescan);
      ghost var begun := [] + [Rescan];
      hide Inv, Exec, Legal;
      start, mark := l.kept + l.todo, |rq.given|;
      l := Lists([], None, l.kept + l.todo, l.later);
      c := c.(needsRescan := false, status := InProgress, pc := Loop);
      run := Pass(work);
      Join(s, begun, run);
      run := begun + run;
    }

    method Leave() returns (ghost run: seq<Step>)
      requires Inv(View()) && c.pc == After && !c.dropped && !(c.needsRescan && c.idle)
      modifies this
      ensures Inv(View()) && c.pc == Outside
      ensures Legal(old(View()), run) && View() == Exec(old(View()), run)
    {
      ghost var s := View();
      NoSteps(s);
      StepInv(s, Return);
      Extend(s, [], Return);
      run := [] + [Return];
      hide Inv, Exec, Legal;
      l := Lists([], None, Queue(l), []);
      c := c.(pc := Outside);
    }

    /** qh_completions: passes over the queue until no request was cancelled during a giveback of an idle
        queue head.  Each further pass has less to look at, so the call ends whatever happens meanwhile. */
    method QhCompletions(idle: bool, running: bool, work: seq<seq<seq<Step>>>) returns (ghost run: seq<Step>)
      requires Inv(View()) && c.pc == Outside
      modifies this
      ensures Inv(View()) && c.pc == Outside
      ensures Legal(old(View()), run) && View() == Exec(old(View()), run)
    {
      ghost var s := View();
      NoSteps(s);
      hide Inv, Exec, Legal;
      run := [];
      if l.todo == [] {
        return;
      }
      run := FirstPass(idle, running, if |work| > 0 then work[0] else []);
      var i := 1;
      while c.needsRescan && c.idle
        invariant Inv(View()) && c.pc == After && !c.dropped && l.last == None
        invariant Legal(s, run) && View() == Exec(s, run)
        decreases c.needsRescan, Size()
      {
        ghost var again := NextPass(if i < |work| then work[i] else []);
        Join(s, run, again);
        run := run + again;
        i := i + 1;
      }
      ghost var end := Leave();
      Join(s, run, end);
      run := run + end;
    }

    /** The clean-up, and what happens while it has dropped the lock. */
    method CleanedUp(work: seq<Step>) returns (ghost run: seq<Step>)
      requires Inv(View()) && c.pc == Loop && !c.dropped && l.todo != [] && l.last.Some?
      modifies this
      ensures Inv(View()) && c.pc == Loop && !c.dropped && l.last == None && l.todo == old(l.todo)
        && l.kept == old(l.kept)
      ensures Legal(old(View()), run) && View() == Exec(old(View()), run)
    {
      ghost var s := View();
      StepInv(s, DoCleanUp);
      NoSteps(s);
      Extend(s, [], DoCleanUp);
      run := [] + [DoCleanUp];
      hide Inv, Exec, Legal;
      CleanUpLast();
      if c.dropped {
        ghost var inside := Giveback(work);
        Join(s, run, inside);
        run := run + inside;
      }
    }
  }

  lemma NoSteps(s: State)
    ensures Legal(s, []) && Exec(s, []) == s
  {
  }

  /** A look takes the entry under the cursor out of the rest of the pass, or ends the pass. */
  lemma VisitSizes(s: State)
    requires s.l.todo != [] && s.l.last == None && s.c.pc == Loop
    ensures var s' := Visit(s);
      && (s'.c.pc == Ended || (s'.c.pc == Loop && |s'.l.todo| < |s.l.todo|))
      && |s'.l.kept| + |Seq(s'.l.last)| + |s'.l.todo| == |s.l.kept| + |s.l.todo|
      && s'.c.needsRescan == s.c.needsRescan && s'.c.dropped == s.c.dropped && s'.start == s.start
  {
    hide Judge, Retries, CountsRetry, CopyStatus, Transferred, Actual, TokenOf, LinkOf;
  }
}
