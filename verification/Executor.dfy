/** Launching one worker and deciding what may be attested about it: permission first,
    one collection, and a closure only on affirmative evidence that the worker is gone. */
module Executor {
  import opened Wrappers
  import CollectorTrace
  import Collector
  import opened Journal
  import opened Attempt

  type Byte = CollectorTrace.Byte
  type Collection = CollectorTrace.Collection

  datatype Status = Unstarted | Uncertain | Reaped

  /** Affirmative evidence about the worker, never inferred from an exception. */
  class WorkerReaping {
    var status: Status

    constructor ()
      ensures status == Unstarted
    {
      status := Unstarted;
    }

    method MarkUncertain()
      modifies this
      ensures status == Uncertain
    {
      status := Uncertain;
    }

    method MarkReaped()
      modifies this
      ensures status == Reaped
    {
      status := Reaped;
    }

    predicate MayAttest()
      reads this
    {
      status == Unstarted || status == Reaped
    }
  }

  datatype Failure =
    | ExitUncertain
    | Cancelled(signal: CollectorTrace.Signal)
    | DeadlinePassed
    | OverLimit
    | WorkerFailed(code: int, stderrObserved: nat)
    | CommunicationFailed(reason: CollectorTrace.Reason)
    | SystemError
    | Rejected

  datatype Launch =
    | Launched
    | LaunchCancelled
    | LaunchFailed(failure: Failure)
    /** The process started but the parent's copy of the protocol pipe would not close. */
    | HandoverFailed(failure: Failure)

  /** How a finished collection is reported; Ok only when the worker is attestably gone. */
  function Reported(r: Collection): Result<Collection, Failure> {
    if r.interruption.Some? then Err(Cancelled(r.interruption.value))
    else if !(r.reaped && r.cleanupComplete) then Err(ExitUncertain)
    else match r.failure
      case None => Ok(r)
      case Some(Deadline) => Err(DeadlinePassed)
      case Some(ProtocolLimit) => Err(OverLimit)
      case Some(WorkerExit) => Err(WorkerFailed(if r.returncode.Some? then r.returncode.value else 0, r.stderrObserved))
      case Some(reason) => Err(CommunicationFailed(reason))
  }

  /** What a collection that made these calls is reported as: an interruption before
      anything else, then an uncertain exit, then the first reason it was aborted for, then
      a worker that exited by itself with another status than 0. */
  ghost predicate Tells(t: CollectorTrace.Trace, r: Result<Collection, Failure>) {
    var interrupt, abort := CollectorTrace.Interrupt(t), CollectorTrace.FirstAbort(t);
    var exit, clean := CollectorTrace.FirstExit(t), CollectorTrace.CleanedUp(t);
    && (r.Ok? <==> clean && interrupt.None? && abort.None? && exit == Some(0))
    && (interrupt.Some? ==> r == Err(Cancelled(interrupt.value)))
    && (interrupt.None? && !clean ==> r == Err(ExitUncertain))
    && (interrupt.None? && clean && abort.Some? ==>
          r == Err(if abort == Some(CollectorTrace.Deadline) then DeadlinePassed
                   else if abort == Some(CollectorTrace.ProtocolLimit) then OverLimit
                   else CommunicationFailed(abort.value)))
    && (interrupt.None? && clean && abort.None? && exit != Some(0) ==>
          r == Err(WorkerFailed(exit.value, CollectorTrace.Observed(t, CollectorTrace.Stderr))))
  }

  ghost predicate Succeeded(t: CollectorTrace.Trace) {
    && CollectorTrace.CleanedUp(t) && CollectorTrace.Interrupt(t).None? && CollectorTrace.FirstAbort(t).None?
    && CollectorTrace.FirstExit(t) == Some(0)
  }

  /** The reason a collection gives for closing its attempt. */
  ghost function ReasonOf(t: CollectorTrace.Trace): ClosureReason {
    if CollectorTrace.Interrupt(t).Some? then Interrupted
    else if CollectorTrace.FirstAbort(t) == Some(CollectorTrace.Deadline) then TimedOut
    else if CollectorTrace.FirstAbort(t).None? && CollectorTrace.FirstExit(t) == Some(0) then Returned
    else Infrastructure
  }

  lemma ReasonsAgree(t: CollectorTrace.Trace, failure: Failure)
    requires Tells(t, Err(failure)) && CollectorTrace.CleanedUp(t)
    ensures ReasonFor(failure) == ReasonOf(t)
  {
  }

  lemma ReportTells(seen: Collection, t: CollectorTrace.Trace, job: CollectorTrace.Job)
    requires CollectorTrace.Disciplined(t, job) && CollectorTrace.Faithful(seen, t, job.deadline)
    ensures Tells(t, Reported(seen))
  {
    CollectorTrace.AbortReasons(t, job);
  }

  ghost predicate FreshOs(os: Collector.Os, input: seq<Byte>, deadline: int)
    reads os
  {
    && os.Consistent() && os.Seen() == CollectorTrace.NOTHING && os.job == CollectorTrace.Job(deadline, input)
    && os.Ticks() && os.trace == CollectorTrace.Start
  }

  /** A collection made the calls on the trace, as a collector may, and this is its report. */
  ghost predicate CollectedAs(os: Collector.Os, r: Result<Collection, Failure>)
    reads os
  {
    && CollectorTrace.Disciplined(os.trace, os.job) && Tells(os.trace, r)
    && exists seen: Collection :: CollectorTrace.Faithful(seen, os.trace, os.job.deadline) && r == Reported(seen)
  }

  /** Launch once; from a successful hand-over on, the collector owns everything. */
  method RunWorker(reaping: WorkerReaping, os: Collector.Os, input: seq<Byte>, deadline: int, launch: Launch)
    returns (r: Result<Collection, Failure>)
    requires FreshOs(os, input, deadline)
    modifies reaping, os
    ensures reaping.status == Reaped ==> launch.Launched? && CollectorTrace.CleanedUp(os.trace)
    ensures reaping.status != Unstarted
    ensures launch.Launched? ==>
      (reaping.status == Reaped <==> CollectorTrace.CleanedUp(os.trace)) && CollectedAs(os, r)
    ensures r.Ok? ==>
      && reaping.status == Reaped && r.value.returncode == Some(0)
      && r.value.protocol == Some(CollectorTrace.Received(os.trace, CollectorTrace.Protocol))
    ensures !launch.Launched? ==> os.trace == old(os.trace)
    ensures launch.LaunchCancelled? ==> r == Err(ExitUncertain)
    ensures launch.LaunchFailed? || launch.HandoverFailed? ==> r == Err(launch.failure)
  {
    reaping.MarkUncertain();
    match launch
    case LaunchCancelled => return Err(ExitUncertain);
    case LaunchFailed(failure) => return Err(failure);
    case HandoverFailed(failure) => return Err(failure);
    case Launched =>
      var collector := new Collector.WorkerCollector(os, input, deadline);
      var seen := collector.Collect();
      if seen.reaped && seen.cleanupComplete {
        reaping.MarkReaped();
      }
      r := Reported(seen);
      ReportTells(seen, os.trace, os.job);
  }

  /** The closing reason each way out of the launch asks for. */
  function ReasonFor(f: Failure): ClosureReason {
    match f
    case DeadlinePassed => TimedOut
    case Cancelled(_) => Interrupted
    case _ => Infrastructure
  }

  /** Everything outside this code that decides how an invocation goes. */
  datatype Circumstance = Circumstance(
    setup: Option<Failure>, launch: Launch, appended: string, scratchRemoval: Option<Failure>)

  /** Nothing but its files can keep this attempt from being closed after its permission. */
  predicate Closable(c: Codec, isOwner: bool, memory: Memory, journal: string) {
    && isOwner && !memory.failed && Decoded(c, journal).Some?
    && memory.prepared == Some(Decoded(c, journal).value[0].digest) && Permitted(Decoded(c, journal).value)
  }

  ghost predicate FilesWilling(attempt: AttemptJournal, file: File) { attempt.journal.Willing() && file.Willing() }

  /** A closure on the way out, only on evidence. */
  method CloseOnFailure(c: Codec, attempt: AttemptJournal, reaping: WorkerReaping, failure: Failure, file: File)
    requires file != attempt.journal && (attempt.closed == Some(file) || (file.data == "" && file.synced == ""))
    modifies attempt, attempt.journal, file
    ensures attempt.journal.data == old(attempt.journal.data)
            && attempt.permissionGranted == old(attempt.permissionGranted)
    ensures attempt.closed != old(attempt.closed) ==>
              old(attempt.closed).None? && reaping.MayAttest() && attempt.Published(c, file, ReasonFor(failure))
    ensures attempt.closed != old(attempt.closed) ==>
              Closable(c, attempt.isOwner, old(attempt.Recalls()), attempt.journal.data)
    ensures attempt.closed == old(attempt.closed) ==> file.data == old(file.data) && file.synced == old(file.synced)
    ensures attempt.journal.synced == old(attempt.journal.synced) || attempt.journal.synced == attempt.journal.data
    ensures attempt.isOwner == old(attempt.isOwner) && attempt.preparedDigest == old(attempt.preparedDigest)
    ensures && reaping.MayAttest() && old(attempt.closed).None? && FilesWilling(attempt, file)
            && Closable(c, attempt.isOwner, old(attempt.Recalls()), attempt.journal.data)
            ==> attempt.Whole(c, file, ReasonFor(failure))
  {
    if !reaping.MayAttest() { return; }
    if failure.DeadlinePassed? || (!attempt.persistenceFailed && attempt.closed.None?) {
      var _ := attempt.Close(c, ReasonFor(failure), true, file);
    }
  }

  /** The guarded part: setup, the run, the closure of a run that returned, and the removal
      of the scratch directory. `k.appended` is what the worker added to the journal. */
  method RunAndClose(c: Codec, attempt: AttemptJournal, reaping: WorkerReaping, os: Collector.Os, input: seq<Byte>,
                     deadline: int, k: Circumstance, file: File)
    returns (r: Result<Collection, Failure>)
    requires FreshOs(os, input, deadline) && reaping.status == Unstarted
    requires file.data == "" && file.synced == "" && file != attempt.journal && attempt.closed.None?
    modifies attempt, attempt.journal, file, os, reaping
    ensures attempt.permissionGranted == old(attempt.permissionGranted)
    ensures reaping.status == Unstarted
            ==> os.trace == CollectorTrace.Start && attempt.journal.data == old(attempt.journal.data)
    ensures reaping.status == Reaped ==> CollectorTrace.CleanedUp(os.trace)
    ensures attempt.closed.Some? ==> reaping.status == Reaped && attempt.Published(c, file, Returned)
    ensures attempt.closed.None? ==> file.data == "" && file.synced == ""
    ensures attempt.journal.synced == old(attempt.journal.synced) || attempt.journal.synced == attempt.journal.data
    ensures attempt.journal.data == old(attempt.journal.data)
            || attempt.journal.data == old(attempt.journal.data) + k.appended
    ensures r.Ok? ==>
      && reaping.status == Reaped && attempt.Whole(c, file, Returned)
      && r.value.protocol == Some(CollectorTrace.Received(os.trace, CollectorTrace.Protocol))
    ensures attempt.isOwner == old(attempt.isOwner) && attempt.preparedDigest == old(attempt.preparedDigest)
    ensures k.setup.Some? ==> r == Err(k.setup.value) && reaping.status == Unstarted && attempt.closed.None?
                              && attempt.Recalls() == old(attempt.Recalls())
    ensures k.setup.None? ==> reaping.status != Unstarted
    ensures k.setup.None? && k.launch.Launched? ==>
      && (reaping.status == Reaped <==> CollectorTrace.CleanedUp(os.trace))
      && (k.scratchRemoval.None? ==> Tells(os.trace, r) || (Succeeded(os.trace) && r == Err(SystemError)))
      && (Succeeded(os.trace) && attempt.closed.None? ==>
            !Closable(c, attempt.isOwner, attempt.Recalls(), attempt.journal.data))
      && (!Succeeded(os.trace) ==> attempt.closed.None? && attempt.Recalls() == old(attempt.Recalls()))
      && (Succeeded(os.trace) && k.scratchRemoval.None? && FilesWilling(attempt, file) ==>
            Closable(c, attempt.isOwner, old(attempt.Recalls()), attempt.journal.data) ==> r.Ok?)
  {
    if k.setup.Some? { return Err(k.setup.value); }
    r := RunWorker(reaping, os, input, deadline, k.launch);
    if k.launch.Launched? || k.launch.HandoverFailed? {
      attempt.journal.data := attempt.journal.data + k.appended;
    }
    if r.Ok? {
      var ok := attempt.Close(c, if r.value.returncode == Some(0) then Returned else Infrastructure, true, file);
      if !ok { r := Err(SystemError); }
    }
    if k.scratchRemoval.Some? { r := Err(k.scratchRemoval.value); }
  }

  /** The worker is started, collected, and its scratch directory removed. */
  predicate Collects(timeout: int, k: Circumstance) {
    timeout > 0 && k.setup.None? && k.launch.Launched? && k.scratchRemoval.None?
  }

  /** Run the worker, and close the attempt or leave it open: it is closed only if the
      worker was never started or is attestably gone, and returns only closed. */
  method SpawnWorker(c: Codec, attempt: AttemptJournal, os: Collector.Os, input: seq<Byte>, deadline: int,
                     timeout: int, k: Circumstance, file: File)
    returns (r: Result<Collection, Failure>, reaping: WorkerReaping)
    requires FreshOs(os, input, deadline)
    requires file.data == "" && file.synced == "" && file != attempt.journal && attempt.closed.None?
    modifies attempt, attempt.journal, file, os
    ensures fresh(reaping) && attempt.permissionGranted == old(attempt.permissionGranted)
    ensures reaping.status == Unstarted
            ==> os.trace == CollectorTrace.Start && attempt.journal.data == old(attempt.journal.data)
    ensures reaping.status == Reaped ==> CollectorTrace.CleanedUp(os.trace)
    ensures attempt.closed.Some? ==> reaping.MayAttest()
    ensures attempt.closed.Some? ==>
      || (reaping.status == Reaped && attempt.Published(c, file, Returned))
      || (r.Err? && attempt.Published(c, file, ReasonFor(r.error)))
    ensures attempt.journal.synced == old(attempt.journal.synced) || attempt.journal.synced == attempt.journal.data
    ensures attempt.journal.data == old(attempt.journal.data)
            || attempt.journal.data == old(attempt.journal.data) + k.appended
    ensures r.Ok? ==>
      && reaping.status == Reaped && attempt.Whole(c, file, Returned)
      && r.value.protocol == Some(CollectorTrace.Received(os.trace, CollectorTrace.Protocol))
    ensures attempt.isOwner == old(attempt.isOwner)
    ensures timeout <= 0 ==>
      && r == Err(DeadlinePassed) && reaping.status == Unstarted && attempt.closed.None?
      && attempt.journal.synced == old(attempt.journal.synced)
    ensures timeout > 0 && k.setup.Some? ==> r == Err(k.setup.value) && reaping.status == Unstarted
    ensures Collects(timeout, k) && attempt.closed.Some? ==> attempt.Published(c, file, ReasonOf(os.trace))
    ensures && Collects(timeout, k) && CollectorTrace.CleanedUp(os.trace) && FilesWilling(attempt, file)
            && Closable(c, attempt.isOwner, old(attempt.Recalls()), attempt.journal.data)
            ==> Tells(os.trace, r) && attempt.Whole(c, file, ReasonOf(os.trace))
    ensures Collects(timeout, k) && !CollectorTrace.CleanedUp(os.trace) ==> Tells(os.trace, r) && attempt.closed.None?
  {
    reaping := new WorkerReaping();
    if timeout <= 0 { return Err(DeadlinePassed), reaping; }
    r := RunAndClose(c, attempt, reaping, os, input, deadline, k, file);
    if r.Err? {
      if Collects(timeout, k) && CollectorTrace.CleanedUp(os.trace) && Tells(os.trace, r) {
        ReasonsAgree(os.trace, r.error);
      }
      CloseOnFailure(c, attempt, reaping, r.error, file);
    }
  }

  datatype Request = Request(
    requestDigest: Digest, inputDigest: Digest, parameterDigest: Digest, role: string,
    configuredIdentity: string, model: string, timeout: int)

  /** The prepared attempt and the request agree on the digest and the role. */
  predicate Bound(binding: Payload, request: Request) {
    binding.Prepared? && binding.binding.requestDigest == request.requestDigest && binding.binding.role == request.role
  }

  predicate PreparedFor(binding: Payload, request: Request) {
    && Bound(binding, request)
    && binding.binding.configuredIdentity == request.configuredIdentity && binding.binding.wireModel == request.model
    && binding.binding.inputDigest == request.inputDigest && binding.binding.parameterDigest == request.parameterDigest
  }

  /** The attempt is open, holds only its preparation, and was prepared for this request. */
  method ValidatePrepared(c: Codec, attempt: AttemptJournal, request: Request) returns (ok: bool)
    ensures ok <==>
      var snapshot := Inspected(c, attempt.journal.data, attempt.ClosedText(), attempt.Recalls(), false);
      && snapshot.Some? && attempt.closed.None? && |snapshot.value.events| == 1
      && PreparedFor(snapshot.value.events[0].body.data, request)
    ensures ok ==>
      var events := Decoded(c, attempt.journal.data).value;
      && |events| == 1 && events[0].body.data.Prepared?
      && var b := events[0].body.data.binding;
         && b.requestDigest == request.requestDigest && b.inputDigest == request.inputDigest
         && b.parameterDigest == request.parameterDigest && b.role == request.role
         && b.configuredIdentity == request.configuredIdentity && b.wireModel == request.model
  {
    var snapshot := attempt.Inspect(c, false);
    ok := snapshot.Some? && attempt.closed.None? && |snapshot.value.events| == 1
          && PreparedFor(snapshot.value.events[0].body.data, request);
  }

  /** The last event is an unused permission for exactly this request and time. */
  method ValidateWorker(c: Codec, writer: JournalWriter, request: Request) returns (ok: bool)
    ensures ok <==> Decoded(c, writer.file.data).Some? &&
                    var events := Decoded(c, writer.file.data).value;
                    && events[0].body.attemptId == writer.attemptId
                    && events[|events| - 1].body.kind == DispatchPermitted
                    && Bound(events[0].body.data, request)
                    && events[|events| - 1].body.data == Grant(request.timeout)
    ensures ok ==>
      var events := Decoded(c, writer.file.data).value;
      && |events| == 2 && events[0].body.data.Prepared? && events[1].body.data == Grant(request.timeout)
      && events[0].body.data.binding.requestDigest == request.requestDigest
      && events[0].body.data.binding.role == request.role
  {
    var decoded := Decode(c, writer.file.data);
    if decoded.None? { return false; }
    ChainKinds(c, decoded.value);
    var first, last := decoded.value[0].body, decoded.value[|decoded.value| - 1].body;
    ok := first.attemptId == writer.attemptId && last.kind == DispatchPermitted
          && Bound(first.data, request) && last.data == Grant(request.timeout);
  }

  /** The permission frame this invocation would append. */
  function GrantFrame(c: Codec, journal: string, request: Request, stamp: Stamp): string
    requires Decoded(c, journal).Some?
  {
    var events := Decoded(c, journal).value;
    c.Frame(NextEvent(c, events, events[0].body.attemptId, DispatchPermitted, Grant(request.timeout), stamp))
  }

  /** The attempt is open for exactly this request, and a permission for it fits the journal. */
  ghost predicate Invitable(c: Codec, attempt: AttemptJournal, request: Request, stamp: Stamp)
    reads attempt, attempt.journal
  {
    var events := Decoded(c, attempt.journal.data);
    && attempt.MayOpen(c) && attempt.closureDigest.None?
    && |events.value| == 1 && PreparedFor(events.value[0].body.data, request)
    && MayAppend(c, attempt.journal.data, events.value[0].body.attemptId, DispatchPermitted, Grant(request.timeout),
                 stamp)
  }

  /** The granted journal: the preparation, then a permission of exactly this time. */
  lemma GrantDecodes(c: Codec, journal: string, request: Request, stamp: Stamp)
    requires c.Lawful() && Decoded(c, journal).Some? && |Decoded(c, journal).value| == 1
    requires MayAppend(c, journal, Decoded(c, journal).value[0].body.attemptId, DispatchPermitted,
             Grant(request.timeout), stamp)
    ensures var after := Decoded(c, journal + GrantFrame(c, journal, request, stamp));
            && after.Some? && |after.value| == 2 && after.value[0] == Decoded(c, journal).value[0]
            && after.value[1].body.kind == DispatchPermitted && after.value[1].body.data == Grant(request.timeout)
  {
    var events := Decoded(c, journal).value;
    AppendDecodes(c, journal,
      NextEvent(c, events, events[0].body.attemptId, DispatchPermitted, Grant(request.timeout), stamp));
  }

  /** A journal that starts with a granted one can be closed if it decodes. */
  lemma GrantedClosable(c: Codec, granted: string, after: string, memory: Memory)
    requires c.Lawful() && Decoded(c, granted).Some? && 2 <= |Decoded(c, granted).value| && granted <= after
    requires !memory.failed && memory.prepared == Some(Decoded(c, granted).value[0].digest)
    ensures Decoded(c, after).Some? ==> Closable(c, true, memory, after)
  {
    if Decoded(c, after).Some? {
      assert after == granted + after[|granted|..];
      LongerDecodes(c, granted, after[|granted|..]);
      PermittedMeans(c, Decoded(c, after).value);
    }
  }

  /** The permission this invocation asks for is on disk, and nothing else has changed. */
  ghost predicate Invited(c: Codec, before: string, request: Request, stamp: Stamp, after: string, safe: string) {
    && Decoded(c, before).Some? && |Decoded(c, before).value| == 1
    && PreparedFor(Decoded(c, before).value[0].body.data, request)
    && after == safe == before + GrantFrame(c, before, request, stamp)
  }

  /** Everything that comes before the worker: the attempt must have been prepared for this
      request and never permitted; then permission, asked for once, and checked again. */
  method Invite(c: Codec, attempt: AttemptJournal, request: Request, stamp: Stamp) returns (ok: bool)
    modifies attempt, attempt.journal
    ensures attempt.closed == old(attempt.closed) && attempt.isOwner == old(attempt.isOwner)
    ensures attempt.preparedDigest == old(attempt.preparedDigest)
    ensures ok ==>
      && old(Invitable(c, attempt, request, stamp)) && attempt.permissionGranted && attempt.closed.None?
      && attempt.Recalls() == old(attempt.Recalls())
      && Invited(c, old(attempt.journal.data), request, stamp, attempt.journal.data, attempt.journal.synced)
    ensures ok ==>
      && Decoded(c, attempt.journal.data).Some?
      && var events := Decoded(c, attempt.journal.data).value;
         && |events| == 2 && Bound(events[0].body.data, request) && events[1].body.data == Grant(request.timeout)
    ensures !old(Invitable(c, attempt, request, stamp)) ==> attempt.journal.data == old(attempt.journal.data)
    ensures c.Lawful() && old(Invitable(c, attempt, request, stamp)) && attempt.journal.Willing() ==> ok
  {
    ok := ValidatePrepared(c, attempt, request);
    if !ok { return; }
    ok := attempt.Permit(c, request.timeout, stamp);
    if !ok { return; }
    if c.Lawful() {
      GrantDecodes(c, old(attempt.journal.data), request, stamp);
    }
    var writer := attempt.OpenWriter(c);
    if writer.None? { return false; }
    ok := ValidateWorker(c, writer.value, request);
  }

  /** One live invocation. A worker runs only after its permission, the first and only one
      of the attempt, is known to be safe on disk. */
  method InvokeLive(c: Codec, attempt: AttemptJournal, os: Collector.Os, input: seq<Byte>, deadline: int,
                    request: Request, stamp: Stamp, k: Circumstance, file: File)
    returns (r: Result<Collection, Failure>)
    requires FreshOs(os, input, deadline)
    requires file.data == "" && file.synced == "" && file != attempt.journal && attempt.closed != Some(file)
    modifies attempt, attempt.journal, file, os
    ensures os.trace != CollectorTrace.Start ==>
      && attempt.permissionGranted && Decoded(c, old(attempt.journal.data)).Some?
      && |Decoded(c, old(attempt.journal.data)).value| == 1
      && PreparedFor(Decoded(c, old(attempt.journal.data)).value[0].body.data, request)
      && var granted := old(attempt.journal.data) + GrantFrame(c, old(attempt.journal.data), request, stamp);
         granted <= attempt.journal.synced && granted <= attempt.journal.data
    ensures attempt.closed != old(attempt.closed) ==>
      && attempt.permissionGranted && (os.trace == CollectorTrace.Start || CollectorTrace.CleanedUp(os.trace))
      && (attempt.Published(c, file, Returned) || (r.Err? && attempt.Published(c, file, ReasonFor(r.error))))
    ensures r.Ok? ==> attempt.Whole(c, file, Returned) && CollectorTrace.CleanedUp(os.trace)
    ensures !old(Invitable(c, attempt, request, stamp))
            ==> && r == Err(Rejected) && os.trace == CollectorTrace.Start
                && attempt.journal.data == old(attempt.journal.data)
    ensures && c.Lawful() && old(Invitable(c, attempt, request, stamp)) && FilesWilling(attempt, file)
            && Collects(request.timeout, k)
            ==> if CollectorTrace.CleanedUp(os.trace)
                then Decoded(c, attempt.journal.data).Some?
                     ==> Tells(os.trace, r) && attempt.Whole(c, file, ReasonOf(os.trace))
                else Tells(os.trace, r) && attempt.closed.None?
  {
    var invited := Invite(c, attempt, request, stamp);
    if !invited { return Err(Rejected); }
    ghost var granted, memory := attempt.journal.data, attempt.Recalls();
    var reaping;
    r, reaping := SpawnWorker(c, attempt, os, input, deadline, request.timeout, k, file);
    assert granted <= attempt.journal.data;
    if c.Lawful() {
      GrantDecodes(c, old(attempt.journal.data), request, stamp);
      GrantedClosable(c, granted, attempt.journal.data, memory);
    }
  }

  /** On the way out of a stage: an attempt whose journal shows no permission is closed as
      never started; any other journal is left as it is. */
  method CloseUnused(c: Codec, attempt: AttemptJournal, file: File)
    requires file.data == "" && file.synced == "" && file != attempt.journal && attempt.closed != Some(file)
    modifies attempt, attempt.journal, file
    ensures attempt.journal.data == old(attempt.journal.data)
    ensures attempt.closed != old(attempt.closed) ==>
      && attempt.Published(c, file, NotStarted) && !attempt.permissionGranted
      && |Decoded(c, attempt.journal.data).value| == 1
    ensures && old(attempt.MayOpen(c)) && old(attempt.closureDigest).None? && !old(attempt.permissionGranted)
            && |Decoded(c, attempt.journal.data).value| == 1 && FilesWilling(attempt, file)
            ==> attempt.Whole(c, file, NotStarted)
  {
    if attempt.persistenceFailed || attempt.permissionGranted || attempt.closed.Some? { return; }
    var snapshot := attempt.Inspect(c, false);
    if snapshot.Some? && |snapshot.value.events| == 1 {
      PermittedMeans(c, snapshot.value.events);
      var _ := attempt.Close(c, NotStarted, true, file);
    }
  }
}
