/** The parent-side collector of one worker process: a bounded event loop over four
    descriptors. The operating system is an oracle that may answer every call in any
    way its type allows; the loop is proved against the trace of those calls. */
module Collector {
  import opened Wrappers
  import opened CollectorTrace

  /** An answer never exceeds its call: a longer one is cut to what was asked. */
  function FitRead(answer: ReadAnswer, size: nat): ReadAnswer {
    if answer.Data? && size < |answer.bytes| then Data(answer.bytes[..size]) else answer
  }

  function FitWrite(answer: WriteAnswer, data: seq<Byte>): WriteAnswer {
    if answer.Accepted? && |data| < answer.count then Accepted(|data|) else answer
  }

  function FitSelect(answer: SelectAnswer, registered: set<Pipe>): SelectAnswer {
    if answer.Ready? && exists i :: 0 <= i < |answer.keys| && answer.keys[i] !in registered then Ready([]) else answer
  }

  /** One operating system: its answers depend on how many calls came before. */
  class Os {
    const clockAt: nat -> int
    const ackAt: nat -> Ack
    const waitAt: nat -> WaitAnswer
    const readAt: (nat, Pipe, nat) -> ReadAnswer
    const writeAt: (nat, seq<Byte>) -> WriteAnswer
    const selectAt: (nat, set<Pipe>) -> SelectAnswer
    /** From the call horizon(t) on, the clock has reached t. */
    ghost const horizon: int -> nat
    /** What the calls are judged by: the communication deadline and the child's input. */
    ghost const job: Job
    var step: nat
    ghost var trace: Trace
    ghost var decisions: Decisions
    ghost var ends: Ends
    ghost var flow: Flow
    ghost var faults: Faults
    ghost var service: Service

    constructor (clockAt: nat -> int, ackAt: nat -> Ack, waitAt: nat -> WaitAnswer,
                 readAt: (nat, Pipe, nat) -> ReadAnswer, writeAt: (nat, seq<Byte>) -> WriteAnswer,
                 selectAt: (nat, set<Pipe>) -> SelectAnswer, ghost horizon: int -> nat, ghost job: Job)
      ensures trace == Start && Seen() == NOTHING && step == 0 && Consistent()
      ensures this.clockAt == clockAt && this.ackAt == ackAt && this.waitAt == waitAt
      ensures this.readAt == readAt && this.writeAt == writeAt && this.selectAt == selectAt
      ensures this.horizon == horizon && this.job == job
    {
      this.clockAt, this.ackAt, this.waitAt := clockAt, ackAt, waitAt;
      this.readAt, this.writeAt, this.selectAt := readAt, writeAt, selectAt;
      this.horizon, this.job := horizon, job;
      step, trace := 0, Start;
      decisions, ends, flow, faults := NOTHING.decisions, NOTHING.ends, NOTHING.flow, NOTHING.faults;
      service := NOTHING.service;
      new;
      assert Disciplined(trace, this.job);
    }

    /** A monotonic clock that passes every instant. */
    ghost predicate Ticks() {
      && (forall m: nat, n: nat :: m <= n ==> clockAt(m) <= clockAt(n))
      && (forall t: int, n: nat :: horizon(t) <= n ==> t <= clockAt(n))
    }

    ghost function Seen(): Summary
      reads this
    {
      Summary(decisions, ends, flow, faults, service)
    }

    /** The groups summarise the trace, and every call in it was allowed. The quantifier
        keeps this from being unfolded where it is only passed on. */
    ghost predicate Consistent()
      reads this
    {
      forall t {:trigger Disciplined(t, job)} :: t == trace ==> Disciplined(t, job) && Seen() == Summarise(t)
    }

    ghost method RecordTook(p: Pipe)
      requires Consistent() && MayFollow(Seen(), Took(p), job)
      modifies this`trace, this`ends
      ensures Consistent() && ends == old(ends).(took := old(ends).took + {p}, open := old(ends).open + {p})
    {
      assert Disciplined(trace, job);
      ends, trace := NextEnds(ends, Took(p)), Then(trace, Took(p));
      assert Disciplined(trace, job);
    }

    ghost method RecordLatched()
      requires Consistent() && MayFollow(Seen(), Latched, job)
      modifies this`trace, this`decisions
      ensures Consistent() && decisions == old(decisions).(latched := true)
    {
      assert Disciplined(trace, job);
      decisions, trace := NextDecisions(decisions, Latched), Then(trace, Latched);
      assert Disciplined(trace, job);
    }

    ghost method RecordAbort(reason: Reason, now: int)
      requires Consistent() && decisions.clock == Some(now) && ReasonHolds(Seen(), reason, now, job.deadline)
      modifies this`trace, this`decisions
      ensures Consistent()
      ensures decisions == old(decisions).(abort := if old(decisions).abort.None? then Some(reason)
              else old(decisions).abort,
                                           start := if old(decisions).start.None? then Some(now)
                                             else old(decisions).start)
    {
      assert Disciplined(trace, job);
      decisions, trace := NextDecisions(decisions, Aborted(reason, now)), Then(trace, Aborted(reason, now));
      assert Disciplined(trace, job);
    }

    method Clock() returns (now: int)
      requires Consistent()
      modifies this`step, this`trace, this`decisions, this`service
      ensures step == old(step) + 1 && Consistent()
      ensures service == old(service).(asked := false)
      ensures decisions == old(decisions).(clock := Some(now), latched := false,
              latchClock := if old(decisions).latched then Some(now) else old(decisions).latchClock)
      ensures now == clockAt(old(step))
    {
      now := clockAt(step);
      step := step + 1;
      assert Disciplined(trace, job);
      decisions, service, trace :=
        NextDecisions(decisions, Clocked(now)), NextService(service, Clocked(now)), Then(trace, Clocked(now));
      assert Disciplined(trace, job);
    }

    method Prepare() returns (ack: Ack)
      requires Consistent()
      modifies this`step, this`trace, this`faults
      ensures step == old(step) + 1 && Consistent()
      ensures faults == if ack.Raised? then old(faults).Add(ack.exn, false, false) else old(faults)
    {
      ack := ackAt(step);
      step := step + 1;
      assert Disciplined(trace, job);
      faults, trace := NextFaults(faults, Prepared(ack)), Then(trace, Prepared(ack));
      assert Disciplined(trace, job);
    }

    method Wait(now: int, patience: int) returns (answer: WaitAnswer)
      requires Consistent() && decisions.exit.None? && Signalled(Seen())
      requires 0 < patience ==> decisions.start.Some? && now + patience == decisions.start.value + CLEANUP_ALLOWANCE
      modifies this`step, this`trace, this`decisions, this`faults, this`service
      ensures service == old(service).(asked := true)
      ensures step == old(step) + 1 && Consistent()
      ensures decisions == if answer.Exited?
              then old(decisions).(exit := Some(answer.code), start := if old(decisions).start.None? then Some(now)
                else old(decisions).start) else old(decisions)
      ensures faults == if answer.WaitRaised? then old(faults).Add(answer.exn, false, true) else old(faults)
    {
      answer := waitAt(step);
      step := step + 1;
      assert Disciplined(trace, job);
      ghost var e := Waited(now, patience, answer);
      decisions, faults, service, trace :=
        NextDecisions(decisions, e), NextFaults(faults, e), NextService(service, e), Then(trace, e);
      assert Disciplined(trace, job);
    }

    method Kill() returns (ack: Ack)
      requires Consistent() && MayFollow(Seen(), Killed(Done), job)
      modifies this`step, this`trace, this`ends, this`faults
      ensures step == old(step) + 1 && Consistent()
      ensures ends == old(ends).(kills := old(ends).kills + 1)
      ensures faults == if ack.Raised? then old(faults).Add(ack.exn, false, false) else old(faults)
    {
      ack := ackAt(step);
      step := step + 1;
      assert Disciplined(trace, job);
      ends, faults, trace := NextEnds(ends, Killed(ack)), NextFaults(faults, Killed(ack)), Then(trace, Killed(ack));
      assert Disciplined(trace, job);
    }

    method Unregister(pipe: Pipe, closing: bool) returns (ack: Ack)
      requires Consistent()
      modifies this`step, this`trace, this`faults
      ensures step == old(step) + 1 && Consistent()
      ensures faults == if ack.Raised? then old(faults).Add(ack.exn, closing, false) else old(faults)
    {
      ack := ackAt(step);
      step := step + 1;
      assert Disciplined(trace, job);
      faults, trace := NextFaults(faults, Unregistered(pipe, closing, ack)),
        Then(trace, Unregistered(pipe, closing, ack));
      assert Disciplined(trace, job);
    }

    method Close(pipe: Pipe) returns (ack: Ack)
      requires Consistent() && MayFollow(Seen(), Closed(pipe, Done), job)
      modifies this`step, this`trace, this`ends, this`faults
      ensures step == old(step) + 1 && Consistent()
      ensures ends == old(ends).(open := old(ends).open - {pipe})
      ensures faults == if ack.Raised? then old(faults).Add(ack.exn, true, false) else old(faults)
    {
      ack := ackAt(step);
      step := step + 1;
      assert Disciplined(trace, job);
      ends, faults, trace := NextEnds(ends, Closed(pipe, ack)), NextFaults(faults, Closed(pipe, ack)),
        Then(trace, Closed(pipe, ack));
      assert Disciplined(trace, job);
    }

    method CloseSelector() returns (ack: Ack)
      requires Consistent()
      modifies this`step, this`trace, this`faults
      ensures step == old(step) + 1 && Consistent()
      ensures faults == if ack.Raised? then old(faults).Add(ack.exn, true, false) else old(faults)
    {
      ack := ackAt(step);
      step := step + 1;
      assert Disciplined(trace, job);
      faults, trace := NextFaults(faults, SelectorClosed(ack)), Then(trace, SelectorClosed(ack));
      assert Disciplined(trace, job);
    }

    method Select(now: int, timeout: int, registered: set<Pipe>) returns (answer: SelectAnswer)
      requires Consistent() && MayFollow(Seen(), Selected(now, timeout, Ready([])), job)
      modifies this`step, this`trace, this`faults, this`service
      ensures step == old(step) + 1 && Consistent()
      ensures service == if answer.Ready? then old(service).(due := PipesOf(answer.keys)) else old(service)
      ensures faults == if answer.SelectRaised? then old(faults).Add(answer.exn, false, false) else old(faults)
      ensures answer.Ready? ==> forall i :: 0 <= i < |answer.keys| ==> answer.keys[i] in registered
    {
      answer := FitSelect(selectAt(step, registered), registered);
      step := step + 1;
      assert Disciplined(trace, job);
      ghost var e := Selected(now, timeout, answer);
      faults, service, trace := NextFaults(faults, e), NextService(service, e), Then(trace, e);
      assert Disciplined(trace, job);
    }

    method Write(data: seq<Byte>) returns (answer: WriteAnswer)
      requires Consistent() && MayFollow(Seen(), Wrote(data, Accepted(0)), job)
      modifies this`step, this`trace, this`flow, this`faults, this`service
      ensures service
              == old(service).(due := old(service).due - {Stdin},
                               broken := old(service).broken || answer == WriteRaised(BrokenPipe))
      ensures step == old(step) + 1 && Consistent()
      ensures answer.Accepted? ==> answer.count <= |data|
      ensures flow == if answer.Accepted? then old(flow).(sent := old(flow).sent + data[..answer.count]) else old(flow)
      ensures faults == if answer.WriteRaised? then old(faults).Add(answer.exn, false, false) else old(faults)
    {
      answer := FitWrite(writeAt(step, data), data);
      step := step + 1;
      assert Disciplined(trace, job);
      ghost var e := Wrote(data, answer);
      flow, faults, service, trace :=
        NextFlow(flow, decisions, e), NextFaults(faults, e), NextService(service, e), Then(trace, e);
      assert Disciplined(trace, job);
    }

    method ReadPipe(pipe: Pipe, size: nat) returns (answer: ReadAnswer)
      requires Consistent() && MayFollow(Seen(), Read(pipe, size, Data([])), job)
      modifies this`step, this`trace, this`ends, this`flow, this`faults, this`service
      ensures service == old(service).(due := old(service).due - {pipe})
      ensures step == old(step) + 1 && Consistent()
      ensures ends == if answer == Data([]) then old(ends).(eof := old(ends).eof + {pipe}) else old(ends)
      ensures flow == NextFlow(old(flow), decisions, Read(pipe, size, answer))
      ensures faults == if answer.ReadRaised? then old(faults).Add(answer.exn, false, false) else old(faults)
      ensures answer.Data? ==> |answer.bytes| <= size
    {
      answer := FitRead(readAt(step, pipe, size), size);
      step := step + 1;
      assert Disciplined(trace, job);
      ghost var e := Read(pipe, size, answer);
      ends, flow, faults, service, trace :=
        NextEnds(ends, e), NextFlow(flow, decisions, e), NextFaults(faults, e), NextService(service, e), Then(trace, e);
      assert Disciplined(trace, job);
    }
  }

  class WorkerCollector {
    const os: Os
    const input: seq<Byte>
    const deadline: int
    var protocol: seq<Byte>
    var stdoutCount: nat
    var stderrCount: nat
    var diagnosticCount: nat
    var protocolHighWater: nat
    var readHighWater: nat
    var offset: nat
    var abortReason: Option<Reason>
    var interruption: Option<Signal>
    var cleanupDeadline: Option<int>
    var cleanupError: bool
    var reaped: bool
    var returncode: Option<int>
    var killAttempted: bool
    var eof: set<Pipe>
    var endpoints: set<Pipe>
    var registered: set<Pipe>
    var selectorOpen: bool

    constructor (os: Os, input: seq<Byte>, deadline: int)
      requires os.Consistent() && os.Seen() == NOTHING && os.job == Job(deadline, input)
      ensures this.os == os && this.input == input && this.deadline == deadline
      ensures Valid() && Idle()
    {
      this.os, this.input, this.deadline := os, input, deadline;
      protocol, stdoutCount, stderrCount, diagnosticCount := [], 0, 0, 0;
      protocolHighWater, readHighWater, offset := 0, 0, 0;
      abortReason, interruption, cleanupDeadline, cleanupError := None, None, None, false;
      reaped, returncode, killAttempted := false, None, false;
      eof, endpoints, registered, selectorOpen := {}, {}, {}, false;
    }

    /** Every field says exactly what the calls so far say. An exception on its way to the
        handler has been raised but not yet noted. */
    ghost predicate ValidUpTo(pending: Option<Exn>)
      reads this, os
    {
      && os.Consistent() && os.job == Job(deadline, input)
      && DecisionsMatch() && EndsMatch() && FlowMatches() && FaultsMatch(pending)
    }

    ghost predicate Valid()
      reads this, os
    {
      ValidUpTo(None)
    }

    ghost predicate DecisionsMatch()
      reads this`abortReason, this`returncode, this`reaped, this`cleanupDeadline, os`decisions
    {
      var d := os.decisions;
      && abortReason == d.abort && returncode == d.exit && reaped == d.exit.Some?
      && cleanupDeadline == (if d.start.Some? then Some(d.start.value + CLEANUP_ALLOWANCE) else None)
      && (d.start.Some? <==> d.abort.Some? || d.exit.Some?)
    }

    ghost predicate EndsMatch()
      reads this`killAttempted, this`eof, this`endpoints, this`registered, os`ends
    {
      && os.ends.kills == (if killAttempted then 1 else 0)
      && eof == os.ends.eof && Stdin !in eof
      && endpoints == os.ends.open
    }

    ghost predicate FlowMatches()
      reads this`stdoutCount, this`stderrCount, this`diagnosticCount, this`offset, os`flow
      reads this`protocolHighWater, this`readHighWater
    {
      && stdoutCount == os.flow.stdout && stderrCount == os.flow.stderr
      && diagnosticCount == stdoutCount + stderrCount
      && offset <= |input| && os.flow.sent == input[..offset]
      && protocolHighWater <= MAX_PROTOCOL && readHighWater <= QUANTUM
    }

    ghost predicate FaultsMatch(pending: Option<Exn>)
      reads this`cleanupError, this`interruption, os`faults
    {
      && cleanupError == os.faults.cleanupFailed && (cleanupError || pending.Some? ==> os.faults.faulted)
      && os.faults.interrupt
         == (if pending.Some? && SignalOf(pending.value).Some? then SignalOf(pending.value) else interruption)
    }

    /** Between whole actions: an abort has killed and closed the child's input, and
        while nothing is wrong the buffer holds exactly what was received. */
    ghost predicate Calm()
      reads this`abortReason, this`killAttempted, this`reaped, this`endpoints, this`protocol, this`offset
      reads os`flow, os`ends, os`service
    {
      && (abortReason.Some? ==> killAttempted || reaped)
      && (abortReason.Some? || reaped ==> Stdin !in endpoints)
      && (abortReason.None? ==> protocol == os.flow.received && os.flow.WithinCeilings())
      && Owning()
    }

    /** Nothing has been done yet. */
    ghost predicate Idle()
      reads this, os
    {
      && os.Seen() == NOTHING && Calm()
      && endpoints == registered == {} && abortReason.None? && !reaped && offset == 0
    }

    /** No output pipe has been given up, and an input that is still open is not all sent. */
    ghost predicate Owning()
      reads this`endpoints, this`offset, os`ends, os`service
    {
      OutputsOwned() && (Stdin in endpoints ==> offset < |input| && !os.service.broken)
    }

    ghost predicate OutputsOwned()
      reads this`endpoints, os`ends
    {
      os.ends.took - {Stdin} <= endpoints
    }

    /** The checks of this turn are done. */
    ghost predicate Checked()
      reads os
    {
      Arbitrated(os.Seen(), deadline)
    }

    /** The pipes reported and not served are all closed. */
    ghost predicate AllServed()
      reads this`endpoints, os`service
    {
      os.service.due !! endpoints
    }

    method StartCleanup(now: int)
      modifies this`cleanupDeadline
      ensures cleanupDeadline == if old(cleanupDeadline).None? then Some(now + CLEANUP_ALLOWANCE)
              else old(cleanupDeadline)
    {
      if cleanupDeadline.None? {
        cleanupDeadline := Some(now + CLEANUP_ALLOWANCE);
      }
    }

    method NoteException(exn: Exn)
      modifies this`interruption
      ensures interruption == if SignalOf(exn).Some? then SignalOf(exn) else old(interruption)
    {
      if SignalOf(exn).Some? {
        interruption := SignalOf(exn);
      }
    }

    method Deregister(p: Pipe)
      requires os.Consistent() && EndsMatch() && FaultsMatch(None) && p in registered
      modifies os`step, os`trace, os`faults, this`registered, this`cleanupError, this`interruption
      ensures os.Consistent() && EndsMatch() && FaultsMatch(None)
      ensures registered == old(registered) - {p} && os.step >= old(os.step)
              && FaultsOnlyGrow(old(os.faults), os.faults)
    {
      registered := registered - {p};
      var ack := os.Unregister(p, true);
      if ack.Raised? {
        NoteException(ack.exn);
        cleanupError := true;
      }
    }

    /** Closing is attempted once: the endpoint is given up before the call is made. */
    method CloseEndpoint(p: Pipe)
      requires os.job == Job(deadline, input) && (p == Stdin && Stdin in endpoints ==> InputMayEnd(os.Seen(), input))
      requires Signalled(os.Seen())
      requires os.Consistent() && EndsMatch() && FaultsMatch(None)
      modifies os`step, os`trace, os`ends, os`faults
      modifies this`endpoints, this`registered, this`cleanupError, this`interruption
      ensures os.Consistent() && EndsMatch() && FaultsMatch(None)
      ensures endpoints == old(endpoints) - {p} && os.step >= old(os.step)
      ensures os.ends.took == old(os.ends.took) && FaultsOnlyGrow(old(os.faults), os.faults)
    {
      if p !in endpoints { return; }
      if p in registered {
        Deregister(p);
      }
      endpoints := endpoints - {p};
      var ack := os.Close(p);
      if ack.Raised? {
        NoteException(ack.exn);
        cleanupError := true;
      }
    }

    method LatchReason(reason: Reason, now: int)
      requires os.Consistent() && os.job == Job(deadline, input) && DecisionsMatch()
      requires os.decisions.clock == Some(now) && ReasonHolds(os.Seen(), reason, now, deadline)
      modifies os`trace, os`decisions, this`abortReason, this`cleanupDeadline
      ensures os.Consistent() && DecisionsMatch()
      ensures abortReason == if old(abortReason).Some? then old(abortReason) else Some(reason)
      ensures old(cleanupDeadline).Some? ==> cleanupDeadline == old(cleanupDeadline)
      ensures os.decisions.clock == Some(now) && os.decisions.latchClock == old(os.decisions.latchClock)
      ensures os.decisions.exit == old(os.decisions.exit)
    {
      os.RecordAbort(reason, now);
      if abortReason.None? {
        abortReason := Some(reason);
      }
      StartCleanup(now);
    }

    /** A failed kill may race with an exit observed elsewhere: it is noted, not repeated. */
    method SignalChild()
      requires os.Consistent() && EndsMatch() && FaultsMatch(None)
      requires !reaped && !killAttempted ==> os.decisions.exit.None? && os.decisions.abort.Some?
      modifies os`step, os`trace, os`ends, os`faults, this`killAttempted, this`interruption
      ensures os.Consistent() && EndsMatch() && FaultsMatch(None)
      ensures killAttempted || reaped
      ensures os.step >= old(os.step) && os.ends.took == old(os.ends.took)
    {
      if !reaped && !killAttempted {
        killAttempted := true;
        var ack := os.Kill();
        if ack.Raised? {
          NoteException(ack.exn);
        }
      }
    }

    /** Signal before closing: cleanup must not postpone the cancellation. */
    method CutOff()
      requires os.Consistent() && EndsMatch() && FaultsMatch(None)
      requires (reaped ==> os.decisions.exit.Some?) && (!reaped && !killAttempted ==> os.decisions.exit.None?)
      requires os.job == Job(deadline, input) && os.decisions.abort.Some?
      modifies os`step, os`trace, os`ends, os`faults
      modifies this`killAttempted, this`endpoints, this`registered, this`cleanupError, this`interruption
      ensures os.Consistent() && EndsMatch() && FaultsMatch(None)
      ensures (killAttempted || reaped) && endpoints == old(endpoints) - {Stdin}
      ensures os.step >= old(os.step) && os.ends.took == old(os.ends.took)
    {
      SignalChild();
      CloseEndpoint(Stdin);
    }

    /** Latch the first reason, start the one allowance, kill at most once, close the input. */
    method Abort(reason: Reason, now: int)
      requires OutputsOwned()
      requires Valid() && os.decisions.clock == Some(now) && ReasonHolds(os.Seen(), reason, now, deadline)
      modifies this, os
      ensures Valid() && Calm() && endpoints == old(endpoints) - {Stdin}
      ensures abortReason == if old(abortReason).Some? then old(abortReason) else Some(reason)
      ensures os.decisions.clock == Some(now) && os.step >= old(os.step)
      ensures old(cleanupDeadline).Some? ==> cleanupDeadline == old(cleanupDeadline)
      ensures os.ends.took == old(os.ends.took) && os.decisions.latchClock == old(os.decisions.latchClock)
      ensures os.service == old(os.service) && os.decisions.exit == old(os.decisions.exit)
    {
      LatchReason(reason, now);
      protocol := [];
      CutOff();
    }

    method RecordExit(code: int, now: int)
      requires os.job == Job(deadline, input)
      requires os.Consistent() && EndsMatch() && FaultsMatch(None)
      requires os.decisions.exit == Some(code) && (cleanupDeadline.None? ==> os.decisions.start == Some(now))
      requires cleanupDeadline.Some?
               ==> os.decisions.start.Some? && cleanupDeadline.value == os.decisions.start.value + CLEANUP_ALLOWANCE
      requires abortReason == os.decisions.abort
      modifies os`step, os`trace, os`ends, os`faults
      modifies this`reaped, this`returncode, this`cleanupDeadline
      modifies this`endpoints, this`registered, this`cleanupError, this`interruption
      ensures os.Consistent() && DecisionsMatch() && EndsMatch() && FaultsMatch(None)
      ensures reaped && endpoints == old(endpoints) - {Stdin} && os.step >= old(os.step)
      ensures old(cleanupDeadline).Some? ==> cleanupDeadline == old(cleanupDeadline)
      ensures os.ends.took == old(os.ends.took)
    {
      returncode, reaped := Some(code), true;
      StartCleanup(now);
      CloseEndpoint(Stdin);
    }

    /** The child cannot be asked any more. */
    method AbortWait(exn: Exn, now: int)
      requires ValidUpTo(Some(exn)) && OutputsOwned() && os.decisions.clock == Some(now) && os.faults.waitFailed
      modifies this, os
      ensures Valid() && Calm() && endpoints == old(endpoints) - {Stdin}
      ensures os.decisions.clock == Some(now) && os.step >= old(os.step)
      ensures old(cleanupDeadline).Some? ==> cleanupDeadline == old(cleanupDeadline)
      ensures os.ends.took == old(os.ends.took) && os.service == old(os.service)
    {
      NoteException(exn);
      Abort(ProcessError, now);
    }

    /** Ask once, without waiting, whether the child has exited. */
    method ObserveExit(now: int)
      requires Valid() && Calm() && os.decisions.clock == Some(now)
      modifies this, os
      ensures Valid() && Calm()
      ensures os.decisions.clock == Some(now) && os.step >= old(os.step)
      ensures old(cleanupDeadline).Some? ==> cleanupDeadline == old(cleanupDeadline)
      ensures os.ends.took == old(os.ends.took)
      ensures LookedFirst(os.Seen()) && endpoints <= old(endpoints)
      ensures os.service.due == old(os.service.due) && os.service.broken == old(os.service.broken)
    {
      if reaped { return; }
      var answer := os.Wait(now, 0);
      if answer.WaitRaised? {
        AbortWait(answer.exn, now);
      } else if answer.Exited? {
        RecordExit(answer.code, now);
      }
    }

    /** Check exit, deadline and cleanup failures, in this order. */
    method Arbitrate() returns (now: int)
      requires Valid() && Calm()
      modifies this, os
      ensures Valid() && Calm() && os.decisions.clock == Some(now)
      ensures now == os.clockAt(old(os.step)) && os.step > old(os.step)
      ensures abortReason.None? ==> now < deadline && !cleanupError
      ensures old(cleanupDeadline).Some? ==> cleanupDeadline == old(cleanupDeadline)
      ensures os.ends.took == old(os.ends.took)
      ensures Checked() && endpoints <= old(endpoints)
      ensures os.service.due == old(os.service.due) && os.service.broken == old(os.service.broken)
    {
      now := os.Clock();
      ObserveExit(now);
      if abortReason.None? && now >= deadline {
        Abort(Deadline, now);
      }
      if cleanupError {
        Abort(IoError, now);
      }
    }

    method SendSome() returns (answer: WriteAnswer)
      requires Checked()
      requires Valid() && Calm() && Stdin in endpoints
      modifies os`step, os`trace, os`flow, os`faults, this`offset, os`service
      ensures os.Consistent() && os.step >= old(os.step)
      ensures FlowMatches() && os.flow.received == old(os.flow.received)
      ensures FaultsMatch(if answer.WriteRaised? then Some(answer.exn) else None)
      ensures os.service.due == old(os.service.due) - {Stdin}
      ensures os.service.broken == (old(os.service.broken) || answer == WriteRaised(BrokenPipe))
      ensures answer.WriteRaised? ==> offset == old(offset)
    {
      var end := if offset + QUANTUM <= |input| then offset + QUANTUM else |input|;
      answer := os.Write(input[offset..end]);
      if answer.Accepted? {
        assert input[..offset] + input[offset..end][..answer.count] == input[..offset + answer.count];
        offset := offset + answer.count;
      }
    }

    method ServiceStdin() returns (exn: Option<Exn>)
      requires Checked()
      requires Valid() && Calm() && Stdin in endpoints
      modifies this, os
      ensures ValidUpTo(exn) && Calm() && os.step >= old(os.step)
      ensures cleanupDeadline == old(cleanupDeadline)
      ensures os.ends.took == old(os.ends.took)
      ensures os.service.due == old(os.service.due) - {Stdin} && endpoints <= old(endpoints)
    {
      var answer := SendSome();
      if answer.WriteRaised? && answer.exn != WouldBlock && answer.exn != BrokenPipe {
        return Some(answer.exn);
      }
      exn := None;
      if answer == WriteRaised(BrokenPipe) || (answer.Accepted? && offset == |input|) {
        CloseEndpoint(Stdin);
      }
    }

    /** What the counters say was read. */
    ghost function Counted(): Flow
      reads this`protocol, this`stdoutCount, this`stderrCount, this`offset
      requires offset <= |input|
    {
      Flow(protocol, stdoutCount, stderrCount, input[..offset])
    }

    function RoomFor(p: Pipe): int
      reads this`protocol, this`stdoutCount, this`stderrCount, this`diagnosticCount
    {
      if p.Protocol? then MAX_PROTOCOL - |protocol|
      else
        var own := if p.Stdout? then MAX_STDOUT - stdoutCount else MAX_STDERR - stderrCount;
        if own <= MAX_DIAGNOSTIC - diagnosticCount then own else MAX_DIAGNOSTIC - diagnosticCount
    }

    method CountDiagnostic(p: Pipe, size: nat)
      requires p.Stdout? || p.Stderr?
      modifies this`stdoutCount, this`stderrCount, this`diagnosticCount
      ensures diagnosticCount == old(diagnosticCount) + size
      ensures stdoutCount == old(stdoutCount) + if p.Stdout? then size else 0
      ensures stderrCount == old(stderrCount) + if p.Stderr? then size else 0
    {
      if p.Stdout? {
        stdoutCount := stdoutCount + size;
      } else {
        stderrCount := stderrCount + size;
      }
      diagnosticCount := diagnosticCount + size;
    }

    method AbortOver(reason: Reason)
      requires OutputsOwned()
      requires Valid() && abortReason.None? && ReasonHolds(os.Seen(), reason, deadline, deadline)
      requires reason.ProtocolLimit? || reason.StdoutLimit? || reason.StderrLimit? || reason.DiagnosticLimit?
      modifies this, os
      ensures Valid() && Calm() && os.step >= old(os.step)
      ensures old(cleanupDeadline).Some? ==> cleanupDeadline == old(cleanupDeadline)
      ensures os.ends.took == old(os.ends.took)
      ensures os.service.due == old(os.service.due) && endpoints <= old(endpoints)
    {
      var now := os.Clock();
      Abort(reason, now);
    }

    /** A chunk has been read and everything but the counters says so. */
    ghost predicate Lagging()
      reads this, os
    {
      && os.Consistent() && os.job == Job(deadline, input)
      && DecisionsMatch() && EndsMatch() && FaultsMatch(None)
      && abortReason.None? && (reaped ==> Stdin !in endpoints)
      && offset <= |input| && diagnosticCount == stdoutCount + stderrCount
      && protocolHighWater <= MAX_PROTOCOL && readHighWater <= QUANTUM
      && Counted().WithinCeilings() && Owning()
    }

    /** Take one chunk into account; a chunk that crosses the ceiling aborts the collection. */
    method AbsorbProtocol(bytes: seq<Byte>)
      requires Lagging() && os.flow == Counted().(received := protocol + bytes)
      modifies this, os
      ensures Valid() && Calm() && os.step >= old(os.step)
      ensures old(cleanupDeadline).Some? ==> cleanupDeadline == old(cleanupDeadline)
      ensures os.ends.took == old(os.ends.took)
      ensures os.service.due == old(os.service.due) && endpoints <= old(endpoints)
    {
      if |protocol| + |bytes| > MAX_PROTOCOL {
        AbortOver(ProtocolLimit);
      } else {
        protocol := protocol + bytes;
        protocolHighWater := if protocolHighWater < |protocol| then |protocol| else protocolHighWater;
      }
    }

    method AbsorbDiagnostic(p: Pipe, size: nat)
      requires Lagging() && (p.Stdout? || p.Stderr?)
      requires os.flow == if p.Stdout? then Counted().(stdout := stdoutCount + size)
               else Counted().(stderr := stderrCount + size)
      modifies this, os
      ensures Valid() && Calm() && os.step >= old(os.step)
      ensures old(cleanupDeadline).Some? ==> cleanupDeadline == old(cleanupDeadline)
      ensures os.ends.took == old(os.ends.took)
      ensures os.service.due == old(os.service.due) && endpoints <= old(endpoints)
    {
      CountDiagnostic(p, size);
      if p.Stdout? && stdoutCount > MAX_STDOUT {
        AbortOver(StdoutLimit);
      } else if p.Stderr? && stderrCount > MAX_STDERR {
        AbortOver(StderrLimit);
      } else if diagnosticCount > MAX_DIAGNOSTIC {
        AbortOver(DiagnosticLimit);
      }
    }

    /** Stop polling a pipe at its end; its descriptor is closed only at the very end. */
    method ReachEof(p: Pipe) returns (exn: Option<Exn>)
      requires p != Stdin && os.Consistent() && os.job == Job(deadline, input)
      requires DecisionsMatch() && FlowMatches() && FaultsMatch(None) && Calm()
      requires Stdin !in eof
      requires os.ends == Ends(os.ends.took, endpoints, eof + {p}, if killAttempted then 1 else 0)
      modifies os`step, os`trace, os`faults, this`eof, this`registered
      ensures ValidUpTo(exn) && Calm() && os.step >= old(os.step)
    {
      eof := eof + {p};
      var ack := os.Unregister(p, false);
      match ack
      case Done =>
        registered := registered - {p};
        exn := None;
      case Raised(x) => exn := if x.WouldBlock? then None else Some(x);
    }

    method Absorb(p: Pipe, bytes: seq<Byte>)
      requires Lagging() && p != Stdin && os.flow == NextFlow(Counted(), os.decisions, Read(p, 0, Data(bytes)))
      modifies this, os
      ensures Valid() && Calm() && os.step >= old(os.step)
      ensures old(cleanupDeadline).Some? ==> cleanupDeadline == old(cleanupDeadline)
      ensures os.ends.took == old(os.ends.took)
      ensures os.service.due == old(os.service.due) && endpoints <= old(endpoints)
    {
      if p.Protocol? {
        AbsorbProtocol(bytes);
      } else {
        AbsorbDiagnostic(p, |bytes|);
      }
    }

    /** No more than a quantum, nor than what the ceilings still admit plus one byte. */
    method ChunkSize(p: Pipe) returns (size: nat)
      requires DecisionsMatch() && FlowMatches() && Calm() && p != Stdin
      ensures 1 <= size <= QUANTUM && (os.decisions.abort.None? ==> os.flow.WithinCeilings())
      ensures size == if os.decisions.abort.None? then Least(QUANTUM, os.flow.Room(p) + 1) else QUANTUM
    {
      size := QUANTUM;
      if abortReason.None? && RoomFor(p) + 1 < size {
        size := RoomFor(p) + 1;
      }
    }

    /** A chunk has been read; neither the end of the pipe nor the counters say so yet. */
    ghost predicate Fetched(p: Pipe, bytes: seq<Byte>)
      reads this, os
    {
      && os.Consistent() && os.job == Job(deadline, input) && DecisionsMatch() && FaultsMatch(None)
      && Stdin !in eof
      && os.ends == Ends(os.ends.took, endpoints, if bytes == [] then eof + {p} else eof, if killAttempted then 1
        else 0)
      && (abortReason.Some? ==> killAttempted || reaped) && (abortReason.Some? || reaped ==> Stdin !in endpoints)
      && offset <= |input| && diagnosticCount == stdoutCount + stderrCount
      && protocolHighWater <= MAX_PROTOCOL && readHighWater <= QUANTUM
      && os.flow.sent == input[..offset] && Owning()
      && (abortReason.None?
        ==> Counted().WithinCeilings() && os.flow == NextFlow(Counted(), os.decisions, Read(p, 0, Data(bytes))))
      && (abortReason.Some? ==> stdoutCount == os.flow.stdout && stderrCount == os.flow.stderr)
    }

    method ReadChunk(p: Pipe) returns (answer: ReadAnswer)
      requires Checked()
      requires Valid() && Calm() && p in endpoints && p != Stdin
      requires cleanupDeadline.Some? ==> os.decisions.clock.Some? && os.decisions.clock.value < cleanupDeadline.value
      modifies os`step, os`trace, os`ends, os`flow, os`faults, this`readHighWater, os`service
      ensures os.Consistent() && os.step >= old(os.step) && readHighWater <= QUANTUM
      ensures answer.ReadRaised? ==> os.flow == old(os.flow) && os.ends == old(os.ends) && FaultsMatch(Some(answer.exn))
      ensures answer.Data? ==> FaultsMatch(None) && os.flow == NextFlow(old(os.flow), os.decisions, Read(p, 0, answer))
      ensures os.ends.took == old(os.ends.took)
      ensures answer.Data? ==> os.ends == if answer.bytes == [] then old(os.ends).(eof := eof + {p}) else old(os.ends)
      ensures os.service == old(os.service).(due := old(os.service.due) - {p})
    {
      var size := ChunkSize(p);
      answer := os.ReadPipe(p, size);
      if answer.Data? && readHighWater < |answer.bytes| {
        readHighWater := |answer.bytes|;
      }
    }

    method TakeChunk(p: Pipe, bytes: seq<Byte>) returns (exn: Option<Exn>)
      requires Fetched(p, bytes) && p != Stdin
      modifies this, os
      ensures ValidUpTo(exn) && Calm() && os.step >= old(os.step)
      ensures old(cleanupDeadline).Some? ==> cleanupDeadline == old(cleanupDeadline)
      ensures os.ends.took == old(os.ends.took)
      ensures os.service.due == old(os.service.due) && endpoints <= old(endpoints)
    {
      exn := None;
      if bytes == [] {
        exn := ReachEof(p);
      } else if abortReason.None? {
        Absorb(p, bytes);
      }
    }

    method ServiceRead(p: Pipe) returns (exn: Option<Exn>)
      requires Checked()
      requires Valid() && Calm() && p in endpoints && p != Stdin
      requires cleanupDeadline.Some? ==> os.decisions.clock.Some? && os.decisions.clock.value < cleanupDeadline.value
      modifies this, os
      ensures ValidUpTo(exn) && Calm() && os.step >= old(os.step)
      ensures old(cleanupDeadline).Some? ==> cleanupDeadline == old(cleanupDeadline)
      ensures os.ends.took == old(os.ends.took)
      ensures os.service.due == old(os.service.due) - {p} && endpoints <= old(endpoints)
    {
      var answer := ReadChunk(p);
      match answer
      case ReadRaised(x) => exn := if x.WouldBlock? then None else Some(x);
      case Data(bytes) => exn := TakeChunk(p, bytes);
    }

    /** The clock has been seen at or past an instant. */
    ghost predicate Passed(limit: int)
      reads os`step
    {
      exists n: nat :: n < os.step && limit <= os.clockAt(n)
    }

    /** One operation per ready descriptor, arbitrating before each: every one of them is
        served or closed, unless the cleanup allowance is found to be spent. */
    method Sweep(ready: seq<Pipe>) returns (exn: Option<Exn>)
      requires Valid() && Calm() && os.service.due == PipesOf(ready)
      modifies this, os
      ensures ValidUpTo(exn) && Calm() && os.step >= old(os.step)
      ensures old(cleanupDeadline).Some? ==> cleanupDeadline == old(cleanupDeadline)
      ensures os.ends.took == old(os.ends.took)
      ensures exn.None? ==> AllServed() || (cleanupDeadline.Some? && Passed(cleanupDeadline.value))
    {
      exn := None;
      for i := 0 to |ready|
        invariant Valid() && Calm() && os.step >= old(os.step) && exn == None && os.ends.took == old(os.ends.took)
        invariant old(cleanupDeadline).Some? ==> cleanupDeadline == old(cleanupDeadline)
        invariant forall p :: p in os.service.due && p in endpoints ==> p in ready[i..]
      {
        ghost var before := os.step;
        var now := Arbitrate();
        if cleanupDeadline.Some? && now >= cleanupDeadline.value {
          assert before < os.step && cleanupDeadline.value <= os.clockAt(before);
          return;
        }
        exn := Serve(ready[i]);
        if exn.Some? { return; }
        assert ready[i..] == [ready[i]] + ready[i + 1..];
      }
    }

    /** A descriptor that is no longer owned is left alone. */
    method Serve(p: Pipe) returns (exn: Option<Exn>)
      requires Valid() && Calm() && Checked()
      requires cleanupDeadline.Some? ==> os.decisions.clock.Some? && os.decisions.clock.value < cleanupDeadline.value
      modifies this, os
      ensures ValidUpTo(exn) && Calm() && os.step >= old(os.step)
      ensures old(cleanupDeadline).Some? ==> cleanupDeadline == old(cleanupDeadline)
      ensures os.ends.took == old(os.ends.took) && endpoints <= old(endpoints)
      ensures os.service.due <= old(os.service.due) && (p in os.service.due ==> p !in endpoints)
    {
      exn := None;
      if p in endpoints {
        if p == Stdin {
          exn := ServiceStdin();
        } else {
          exn := ServiceRead(p);
        }
      }
    }

    function Patience(now: int): int
      reads this`abortReason, this`cleanupDeadline
    {
      var until :=
        if cleanupDeadline.Some?
          && (abortReason.Some? || cleanupDeadline.value < deadline) then cleanupDeadline.value else deadline;
      var left := if until < now then 0 else until - now;
      if left < POLL then left else POLL
    }

    /** The instant past which the loop may not go on, as far as is known now. */
    ghost function Bound(): int
      reads this`cleanupDeadline
    {
      if cleanupDeadline.Some? then cleanupDeadline.value else deadline
    }

    /** The child has exited, and its pipes are drained or the allowance for that is spent. */
    ghost predicate SawItThrough()
      reads this`reaped, this`eof, this`cleanupDeadline, os`decisions
    {
      reaped && (eof == {Stdout, Stderr, Protocol}
                 || (cleanupDeadline.Some? && os.decisions.clock.Some?
                     && cleanupDeadline.value <= os.decisions.clock.value))
    }

    /** So many turns have begun before the clock passed the deadline, or the one cleanup
        allowance where it has started; one turn more may notice it. */
    ghost predicate InTime(turns: nat)
      reads this`cleanupDeadline
    {
      turns <= os.horizon(deadline) + 1 || (cleanupDeadline.Some? && turns <= os.horizon(cleanupDeadline.value) + 1)
    }

    /** The event loop. It ends for every behaviour of the descriptors and of the child,
        because every turn reads a clock that passes every instant: the turns are bounded by
        the deadline and the one cleanup allowance. */
    method Communicate() returns (exn: Option<Exn>, ghost turns: nat)
      requires Valid() && Calm() && os.Ticks() && AllServed()
      modifies this, os
      ensures ValidUpTo(exn) && Calm() && InTime(turns)
      ensures exn.None? && abortReason.None? ==> SawItThrough()
      ensures os.ends.took == old(os.ends.took)
    {
      exn, turns := None, 0;
      while true
        invariant Valid() && Calm() && os.Ticks() && exn == None && os.ends.took == old(os.ends.took)
        invariant AllServed() || (cleanupDeadline.Some? && Passed(cleanupDeadline.value))
        invariant turns <= os.step
        invariant turns <= os.horizon(deadline) || (cleanupDeadline.Some? && turns <= os.horizon(cleanupDeadline.value))
        decreases if cleanupDeadline.None? then 1 else 0, os.horizon(Bound()) - os.step
      {
        turns := turns + 1;
        var now := Arbitrate();
        if reaped && eof == {Stdout, Stderr, Protocol} { break; }
        if cleanupDeadline.Some? && now >= cleanupDeadline.value { break; }
        exn := Turn(now);
        if exn.Some? { return; }
      }
    }

    /** One wait for the descriptors and one sweep over those that are ready. */
    method Turn(now: int) returns (exn: Option<Exn>)
      requires Valid() && Calm() && Checked() && AllServed() && os.decisions.clock == Some(now)
      requires (abortReason.None? ==> now < deadline) && (cleanupDeadline.Some? ==> now < cleanupDeadline.value)
      modifies this, os
      ensures ValidUpTo(exn) && Calm() && os.step >= old(os.step) && os.ends.took == old(os.ends.took)
      ensures old(cleanupDeadline).Some? ==> cleanupDeadline == old(cleanupDeadline)
      ensures exn.None? ==> AllServed() || (cleanupDeadline.Some? && Passed(cleanupDeadline.value))
    {
      var answer := os.Select(now, Patience(now), registered);
      if answer.SelectRaised? {
        return Some(answer.exn);
      }
      exn := Sweep(answer.keys);
    }

    method Take(p: Pipe)
      requires os.Consistent() && EndsMatch() && p !in os.ends.took && os.decisions.abort.None?
      modifies os`trace, os`ends, this`endpoints
      ensures os.Consistent() && EndsMatch() && endpoints == old(endpoints) + {p}
      ensures os.ends.took == old(os.ends.took) + {p}
    {
      endpoints := endpoints + {p};
      os.RecordTook(p);
    }

    /** Ask for a stream's descriptor, then own it. */
    method TakeStream(p: Pipe) returns (exn: Option<Exn>)
      requires os.Consistent() && EndsMatch() && FaultsMatch(None)
      requires p !in os.ends.took && os.decisions.abort.None?
      modifies os`step, os`trace, os`ends, os`faults, this`endpoints
      ensures os.Consistent() && EndsMatch() && FaultsMatch(exn)
      ensures os.ends.took == old(os.ends.took) + if exn.None? then {p} else {}
      ensures endpoints == old(endpoints) + if exn.None? then {p} else {}
    {
      var ack := os.Prepare();
      if ack.Raised? {
        return Some(ack.exn);
      }
      Take(p);
      exn := None;
    }

    /** Own every descriptor before anything that may fail is done with one of them. */
    method TakeAll() returns (exn: Option<Exn>)
      requires os.Consistent() && EndsMatch() && FaultsMatch(None)
      requires os.ends.took == {} && os.decisions.abort.None?
      modifies os`step, os`trace, os`ends, os`faults, this`endpoints
      ensures os.Consistent() && EndsMatch() && FaultsMatch(exn)
      ensures Protocol in os.ends.took && (exn.None? ==> os.ends.took == {Protocol, Stdin, Stdout, Stderr})
      ensures old(endpoints) == {} ==> os.ends.took == endpoints
    {
      Take(Protocol);
      exn := TakeStream(Stdin);
      if exn.Some? { return; }
      exn := TakeStream(Stdout);
      if exn.Some? { return; }
      exn := TakeStream(Stderr);
    }

    /** Make one descriptor non-blocking and watch it. */
    method Watch(p: Pipe) returns (exn: Option<Exn>)
      requires os.Consistent() && FaultsMatch(None)
      modifies os`step, os`trace, os`faults, this`registered
      ensures os.Consistent() && FaultsMatch(exn)
      ensures registered == old(registered) + if exn.None? then {p} else {}
    {
      var ack := os.Prepare();
      if ack.Raised? {
        return Some(ack.exn);
      }
      ack := os.Prepare();
      if ack.Raised? {
        return Some(ack.exn);
      }
      registered := registered + {p};
      exn := None;
    }

    method WatchAll() returns (exn: Option<Exn>)
      requires os.Consistent() && FaultsMatch(None) && registered == {}
      modifies os`step, os`trace, os`faults, this`registered, this`selectorOpen
      ensures os.Consistent() && FaultsMatch(exn)
      ensures exn.None? ==> registered == {Stdin, Stdout, Stderr, Protocol}
    {
      var ack := os.Prepare();
      if ack.Raised? {
        return Some(ack.exn);
      }
      selectorOpen := true;
      exn := None;
      var names := [Stdin, Stdout, Stderr, Protocol];
      for i := 0 to |names|
        invariant os.Consistent() && FaultsMatch(None) && exn == None
        invariant registered == PipesOf(names[..i])
      {
        exn := Watch(names[i]);
        if exn.Some? { return; }
        assert names[..i + 1] == names[..i] + [names[i]];
      }
      assert names[..|names|] == names;
    }

    /** Own every descriptor, then watch every one. */
    method OwnAndWatch() returns (exn: Option<Exn>)
      requires os.Consistent() && EndsMatch() && FaultsMatch(None) && os.decisions.abort.None?
      requires os.ends.took == endpoints == registered == {}
      modifies os`step, os`trace, os`ends, os`faults, this`endpoints, this`registered, this`selectorOpen
      ensures os.Consistent() && EndsMatch() && FaultsMatch(exn)
      ensures Protocol in os.ends.took && os.ends.took == endpoints
      ensures exn.None? ==> registered == endpoints == {Protocol, Stdin, Stdout, Stderr}
    {
      exn := TakeAll();
      if exn.None? {
        exn := WatchAll();
      }
    }

    /** Own and watch everything; an empty input is closed at once. */
    method Setup() returns (exn: Option<Exn>)
      requires Valid() && Idle()
      modifies os`step, os`trace, os`ends, os`faults, this`endpoints, this`registered, this`selectorOpen
      modifies this`cleanupError, this`interruption
      ensures ValidUpTo(exn) && OutputsOwned() && Protocol in os.ends.took
      ensures exn.None? ==> Calm() && AllServed() && os.ends.took == {Protocol, Stdin, Stdout, Stderr}
      ensures exn.None? && input != [] ==> registered == endpoints == {Protocol, Stdin, Stdout, Stderr}
    {
      exn := OwnAndWatch();
      if exn.None? && input == [] {
        CloseEndpoint(Stdin);
      }
    }

    /** Copy the accepted bytes, then read the clock once: the decision is taken before any
        descriptor is closed and the time cleanup takes cannot change it. */
    method Latch() returns (accepted: Option<seq<Byte>>)
      requires Valid() && Calm() && os.Ticks() && (abortReason.None? ==> SawItThrough())
      modifies this, os
      ensures Valid() && Decided(accepted) && os.ends.took == old(os.ends.took)
    {
      accepted := None;
      if reaped && eof == {Stdout, Stderr, Protocol} && abortReason.None? && !cleanupError
         && interruption.None? && returncode == Some(0) {
        accepted := TakeCopy();
        if accepted.None? {
          var at := os.Clock();
          Abort(Deadline, at);
        }
      }
      protocol := [];
    }

    method TakeCopy() returns (accepted: Option<seq<Byte>>)
      requires os.Consistent() && DecisionsMatch() && Finished(os.Seen()) && protocol == os.flow.received
      requires os.ends.took - {Stdin} <= os.ends.open
      modifies os`step, os`trace, os`decisions, os`service
      ensures os.Consistent() && DecisionsMatch() && !os.decisions.latched && os.step > 0
      ensures accepted.Some? ==>
                && accepted.value == os.flow.received
                && os.decisions.latchClock.Some? && os.decisions.latchClock.value < deadline
      ensures accepted.None? ==> deadline <= os.clockAt(os.step - 1)
    {
      accepted := Some(protocol);
      os.RecordLatched();
      var now := os.Clock();
      if now >= deadline {
        accepted := None;
      }
    }

    /** The input or output mechanism itself failed: cancel, and try once more to confirm
        the exit within the same allowance. */
    method Handle(exn: Exn)
      requires ValidUpTo(Some(exn)) && OutputsOwned()
      modifies this, os
      ensures Valid() && abortReason.Some? && (killAttempted || reaped) && os.ends.took == old(os.ends.took)
    {
      NoteException(exn);
      var now := os.Clock();
      Abort(if interruption.Some? then Interrupted else IoError, now);
      if !reaped {
        ConfirmExit();
      }
    }

    method ConfirmExit()
      requires Valid() && abortReason.Some? && !reaped && killAttempted
      modifies this, os
      ensures Valid() && abortReason.Some? && killAttempted && os.ends.took == old(os.ends.took)
    {
      var now := os.Clock();
      var answer := os.Wait(now, if cleanupDeadline.value < now then 0 else cleanupDeadline.value - now);
      if answer.WaitRaised? {
        NoteException(answer.exn);
      } else if answer.Exited? {
        returncode, reaped := Some(answer.code), true;
      }
    }

    method CloseEndpoints()
      requires os.job == Job(deadline, input) && (os.decisions.abort.Some? || os.decisions.exit.Some?)
      requires Signalled(os.Seen())
      requires os.Consistent() && EndsMatch() && FaultsMatch(None)
      modifies os`step, os`trace, os`ends, os`faults
      modifies this`endpoints, this`registered, this`cleanupError, this`interruption
      ensures os.Consistent() && EndsMatch() && FaultsMatch(None) && endpoints == {}
      ensures os.ends.took == old(os.ends.took) && FaultsOnlyGrow(old(os.faults), os.faults)
    {
      CloseEndpoint(Protocol);
      CloseEndpoint(Stdin);
      CloseEndpoint(Stdout);
      CloseEndpoint(Stderr);
      forall p | p in endpoints ensures false {
        match p
        case Protocol => case Stdin => case Stdout => case Stderr =>
      }
    }

    /** Close whatever is still owned, then the selector. */
    method CloseAll()
      requires os.job == Job(deadline, input) && (os.decisions.abort.Some? || os.decisions.exit.Some?)
      requires Signalled(os.Seen())
      requires os.Consistent() && EndsMatch() && FaultsMatch(None)
      modifies os`step, os`trace, os`ends, os`faults
      modifies this`endpoints, this`registered, this`cleanupError, this`interruption, this`selectorOpen
      ensures os.Consistent() && EndsMatch() && FaultsMatch(None) && endpoints == {}
      ensures os.ends.took == old(os.ends.took) && FaultsOnlyGrow(old(os.faults), os.faults)
    {
      CloseEndpoints();
      if selectorOpen {
        selectorOpen := false;
        var ack := os.CloseSelector();
        if ack.Raised? {
          NoteException(ack.exn);
          cleanupError := true;
        }
      }
    }

    /** Is the worker gone, drained and closed within the allowance? */
    method JudgeCleanup() returns (complete: bool)
      requires os.Consistent() && DecisionsMatch() && EndsMatch() && FaultsMatch(None)
      modifies os`step, os`trace, os`decisions, os`service
      ensures os.Consistent() && DecisionsMatch() && (complete <==> CleanedUpBy(os.Seen()))
      ensures !old(os.decisions.latched) ==> os.decisions.latchClock == old(os.decisions.latchClock)
    {
      complete := reaped && eof == {Stdout, Stderr, Protocol} && !cleanupError;
      if cleanupDeadline.Some? {
        var now := os.Clock();
        if now > cleanupDeadline.value {
          complete := false;
        }
      }
    }

    ghost predicate Decided(accepted: Option<seq<Byte>>)
      reads this, os
    {
      && (abortReason.Some? ==> killAttempted || reaped)
      && (abortReason.None? ==> SawItThrough())
      && (accepted.Some? ==>
            && accepted.value == os.flow.received && !os.decisions.latched
            && os.decisions.latchClock.Some? && os.decisions.latchClock.value < deadline)
      && (accepted.None? ==> abortReason.Some? || !Finished(os.Seen()))
    }

    method Report(accepted: Option<seq<Byte>>) returns (r: Collection)
      requires Valid() && Decided(accepted)
      modifies os`step, os`trace, os`decisions, os`service
      ensures os.Consistent() && Faithful(r, os.trace, deadline)
      ensures FirstAbort(os.trace).Some? ==> killAttempted || FirstExit(os.trace).Some?
      ensures FirstAbort(os.trace).None? ==> FirstExit(os.trace).Some?
    {
      var complete := JudgeCleanup();
      var failure :=
        if !complete then Some(CleanupUncertain)
        else if interruption.Some? then Some(Interrupted)
        else if abortReason.Some? then abortReason
        else if returncode != Some(0) then Some(WorkerExit)
        else None;
      r := Collection(if failure.Some? then None else accepted, failure, abortReason, returncode, reaped,
                      eof == {Stdout, Stderr, Protocol}, complete,
                      interruption, stdoutCount, stderrCount, diagnosticCount, protocolHighWater, readHighWater);
      assert Disciplined(os.trace, Job(deadline, input));
      SummaryDecisions(os.trace);
      SummaryFaults(os.trace);
      SummaryFlow(os.trace);
      CleanupMeans(os.trace);
    }

    /** Communicate, then take the one decision on what was communicated. */
    method Decide() returns (accepted: Option<seq<Byte>>)
      requires Valid() && Idle() && os.Ticks()
      modifies this, os
      ensures Valid() && Decided(accepted) && Protocol in os.ends.took
    {
      accepted := None;
      var exn := Setup();
      if exn.None? {
        ghost var turns;
        exn, turns := Communicate();
      }
      if exn.Some? {
        Handle(exn.value);
      } else {
        accepted := Latch();
      }
    }

    method CloseDecided(accepted: Option<seq<Byte>>)
      requires Valid() && Decided(accepted)
      modifies os`step, os`trace, os`ends, os`faults
      modifies this`endpoints, this`registered, this`cleanupError, this`interruption, this`selectorOpen
      ensures Valid() && Decided(accepted) && endpoints == {} && os.ends.took == old(os.ends.took)
    {
      CloseAll();
    }

    /** Run one collection from ownership transfer to report. */
    method Collect() returns (r: Collection)
      requires Valid() && Idle() && os.Ticks()
      modifies this, os
      ensures Disciplined(os.trace, Job(deadline, input)) && Faithful(r, os.trace, deadline)
      ensures TookPipe(os.trace, Protocol)
      ensures forall p :: Closes(os.trace, p) == if TookPipe(os.trace, p) then 1 else 0
      ensures Sent(os.trace) <= input && InputServed(os.trace, input) 
      ensures NoneStarved(os.trace) && TurnsChecked(os.trace, deadline) && DecidedOpen(os.trace)
      ensures FirstAbort(os.trace).Some? ==> Kills(os.trace) == 1 || FirstExit(os.trace).Some?
      ensures FirstAbort(os.trace).None? ==> FirstExit(os.trace).Some?
    {
      var accepted := Decide();
      CloseDecided(accepted);
      r := Report(accepted);
      assert Disciplined(os.trace, os.job);
      SummaryDecisions(os.trace);
      SummaryEnds(os.trace);
      DisciplineMeans(os.trace, Job(deadline, input));
      DisciplineServes(os.trace, Job(deadline, input));
      DisciplineChecks(os.trace, Job(deadline, input));
    }
  }

  /** Faults only accumulate. */
  ghost predicate FaultsOnlyGrow(before: Faults, after: Faults) {
    (before.cleanupFailed ==> after.cleanupFailed) && (before.interrupt.Some? ==> after.interrupt.Some?)
  }
}
