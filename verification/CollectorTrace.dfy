/** What the operating system did to one worker collection, as a list of calls and
    answers, newest last, and what such a list means. Everything here speaks of the
    calls only: no field of the collector is mentioned. Times are milliseconds. */
module CollectorTrace {
  import opened Wrappers

  type Byte = bv8

  datatype Pipe = Stdin | Stdout | Stderr | Protocol

  const MAX_PROTOCOL := 8_000_000
  const MAX_STDOUT := 64 * 1024
  const MAX_STDERR := 64 * 1024
  const MAX_DIAGNOSTIC := 96 * 1024
  const QUANTUM := 64 * 1024
  const POLL := 50
  const CLEANUP_ALLOWANCE := 5000

  /** WouldBlock covers BlockingIOError and InterruptedError. */
  datatype Exn = WouldBlock | BrokenPipe | OsError | KeyboardInterrupt | SystemExit | OtherBase

  datatype Signal = Keyboard | Exit | Base

  function SignalOf(exn: Exn): Option<Signal> {
    match exn
    case KeyboardInterrupt => Some(Keyboard)
    case SystemExit => Some(Exit)
    case OtherBase => Some(Base)
    case _ => None
  }

  datatype Ack = Done | Raised(exn: Exn)
  datatype WaitAnswer = Exited(code: int) | StillRunning | WaitRaised(exn: Exn)
  datatype ReadAnswer = Data(bytes: seq<Byte>) | ReadRaised(exn: Exn)
  datatype WriteAnswer = Accepted(count: nat) | WriteRaised(exn: Exn)
  datatype SelectAnswer = Ready(keys: seq<Pipe>) | SelectRaised(exn: Exn)

  datatype Reason =
    | Deadline | IoError | ProcessError | Interrupted
    | ProtocolLimit | StdoutLimit | StderrLimit | DiagnosticLimit
    | CleanupUncertain | WorkerExit

  /** Aborted and Latched are the collector's own decisions, written down at the
      moment they are taken; every other event is a call and its answer. */
  datatype Event =
    | Clocked(at: int)
    | Took(pipe: Pipe)
    | Prepared(ack: Ack)
    | Waited(at: int, patience: int, wait: WaitAnswer)
    | Killed(ack: Ack)
    | Unregistered(pipe: Pipe, closing: bool, ack: Ack)
    | Closed(pipe: Pipe, ack: Ack)
    | SelectorClosed(ack: Ack)
    | Selected(at: int, timeout: int, select: SelectAnswer)
    | Wrote(data: seq<Byte>, write: WriteAnswer)
    | Read(pipe: Pipe, size: int, read: ReadAnswer)
    | Aborted(reason: Reason, at: int)
    | Latched

  datatype Trace = Start | Then(past: Trace, last: Event)

  function Raises(e: Event): Option<Exn> {
    match e
    case Prepared(Raised(x)) => Some(x)
    case Waited(_, _, WaitRaised(x)) => Some(x)
    case Killed(Raised(x)) => Some(x)
    case Unregistered(_, _, Raised(x)) => Some(x)
    case Closed(_, Raised(x)) => Some(x)
    case SelectorClosed(Raised(x)) => Some(x)
    case Selected(_, _, SelectRaised(x)) => Some(x)
    case Wrote(_, WriteRaised(x)) => Some(x)
    case Read(_, _, ReadRaised(x)) => Some(x)
    case _ => None
  }

  /** The last keyboard interrupt, exit request or other base exception raised by any call. */
  function Interrupt(t: Trace): Option<Signal> {
    if t.Start? then None
    else
      var x := Raises(t.last);
      if x.Some? && SignalOf(x.value).Some? then SignalOf(x.value) else Interrupt(t.past)
  }

  predicate Faulted(t: Trace) {
    t.Then? && (Raises(t.last).Some? || Faulted(t.past))
  }

  function FirstAbort(t: Trace): Option<Reason> {
    if t.Start? then None
    else if FirstAbort(t.past).Some? then FirstAbort(t.past)
    else if t.last.Aborted? then Some(t.last.reason) else None
  }

  function FirstExit(t: Trace): Option<int> {
    if t.Start? then None
    else if FirstExit(t.past).Some? then FirstExit(t.past)
    else if t.last.Waited? && t.last.wait.Exited? then Some(t.last.wait.code) else None
  }

  /** When the one cleanup allowance began: the first abort or observed exit. */
  function CleanupStart(t: Trace): Option<int> {
    if t.Start? then None
    else if CleanupStart(t.past).Some? then CleanupStart(t.past)
    else if t.last.Aborted? || (t.last.Waited? && t.last.wait.Exited?) then Some(t.last.at) else None
  }

  function LastClock(t: Trace): Option<int> {
    if t.Start? then None else if t.last.Clocked? then Some(t.last.at) else LastClock(t.past)
  }

  function Kills(t: Trace): nat {
    if t.Start? then 0 else Kills(t.past) + if t.last.Killed? then 1 else 0
  }

  predicate TookPipe(t: Trace, p: Pipe) {
    t.Then? && (t.last == Took(p) || TookPipe(t.past, p))
  }

  function Closes(t: Trace, p: Pipe): nat {
    if t.Start? then 0
    else Closes(t.past, p) + if t.last.Closed? && t.last.pipe == p then 1 else 0
  }

  predicate CleanupFailed(t: Trace) {
    t.Then? && (CleanupFailed(t.past)
                || (t.last.Closed? && t.last.ack.Raised?)
                || (t.last.Unregistered? && t.last.closing && t.last.ack.Raised?)
                || (t.last.SelectorClosed? && t.last.ack.Raised?))
  }

  predicate AtEof(t: Trace, p: Pipe) {
    t.Then? && (AtEof(t.past, p) || (t.last.Read? && t.last.pipe == p && t.last.read == Data([])))
  }

  /** Everything ever read from a pipe, in order. */
  function Received(t: Trace, p: Pipe): seq<Byte> {
    if t.Start? then []
    else Received(t.past, p) + if t.last.Read? && t.last.pipe == p && t.last.read.Data? then t.last.read.bytes else []
  }

  /** How many bytes were read from a pipe before the first abort. */
  function Observed(t: Trace, p: Pipe): nat {
    if t.Start? then 0
    else Observed(t.past, p)
         + if t.last.Read? && t.last.pipe == p && t.last.read.Data? && FirstAbort(t.past).None?
           then |t.last.read.bytes| else 0
  }

  function Diagnostic(t: Trace): nat { Observed(t, Stdout) + Observed(t, Stderr) }

  /** The bytes the child's standard input accepted. */
  function Sent(t: Trace): seq<Byte> {
    if t.Start? then []
    else Sent(t.past)
         + if t.last.Wrote? && t.last.write.Accepted? && t.last.write.count <= |t.last.data|
           then t.last.data[..t.last.write.count] else []
  }

  /** The final copy has been taken and no clock read since. */
  predicate CopyPending(t: Trace) {
    t.Then? && (t.last.Latched? || (!t.last.Clocked? && CopyPending(t.past)))
  }

  /** The first clock reading after the final copy of the protocol bytes. */
  function LatchClock(t: Trace): Option<int> {
    if t.Start? then None
    else if t.last.Clocked? && CopyPending(t.past) then Some(t.last.at) else LatchClock(t.past)
  }

  predicate WaitFailed(t: Trace) {
    t.Then? && (WaitFailed(t.past) || (t.last.Waited? && t.last.wait.WaitRaised?))
  }

  /** A write was answered with a broken pipe. */
  predicate InputBroken(t: Trace) {
    t.Then? && (InputBroken(t.past) || (t.last.Wrote? && t.last.write == WriteRaised(BrokenPipe)))
  }

  function PipesOf(keys: seq<Pipe>): set<Pipe> { set p | p in keys }

  /** The pipes that the selector last reported and that were not served since. */
  function Unserved(t: Trace): set<Pipe> {
    if t.Start? then {}
    else match t.last
      case Selected(_, _, Ready(keys)) => PipesOf(keys)
      case Wrote(_, _) => Unserved(t.past) - {Stdin}
      case Read(p, _, _) => Unserved(t.past) - {p}
      case _ => Unserved(t.past)
  }

  /** The child was asked for its exit since the clock was last read. */
  predicate AskedSince(t: Trace) {
    t.Then? && (t.last.Waited? || (!t.last.Clocked? && AskedSince(t.past)))
  }

  /** Everything above, computed in one pass over the calls, in five groups. */
  datatype Decisions = Decisions(
    abort: Option<Reason>, exit: Option<int>, start: Option<int>, clock: Option<int>,
    latched: bool, latchClock: Option<int>)
  {
    /** The instant by which the collector must stop waiting for the descriptors. */
    function Limit(deadline: int): int {
      match start
      case Some(at) => if abort.None? && deadline < at + CLEANUP_ALLOWANCE then deadline else at + CLEANUP_ALLOWANCE
      case None => deadline
    }
  }

  datatype Ends = Ends(took: set<Pipe>, open: set<Pipe>, eof: set<Pipe>, kills: nat)

  datatype Flow = Flow(received: seq<Byte>, stdout: nat, stderr: nat, sent: seq<Byte>)
  {
    /** How many more bytes a pipe may deliver before a ceiling is crossed. */
    function Room(p: Pipe): int {
      if p.Protocol? then MAX_PROTOCOL - |received|
      else
        var own := if p.Stdout? then MAX_STDOUT - stdout else MAX_STDERR - stderr;
        if own <= MAX_DIAGNOSTIC - stdout - stderr then own else MAX_DIAGNOSTIC - stdout - stderr
    }

    predicate WithinCeilings() {
      && |received| <= MAX_PROTOCOL
      && stdout <= MAX_STDOUT && stderr <= MAX_STDERR && stdout + stderr <= MAX_DIAGNOSTIC
    }
  }

  datatype Faults = Faults(cleanupFailed: bool, interrupt: Option<Signal>, faulted: bool, waitFailed: bool)
  {
    function Add(exn: Exn, cleanup: bool, waiting: bool): Faults {
      Faults(cleanupFailed || cleanup, if SignalOf(exn).Some? then SignalOf(exn) else interrupt, true, waitFailed
        || waiting)
    }
  }

  datatype Service = Service(asked: bool, broken: bool, due: set<Pipe>)

  datatype Summary = Summary(decisions: Decisions, ends: Ends, flow: Flow, faults: Faults, service: Service)

  const NOTHING :=
    Summary(Decisions(None, None, None, None, false, None), Ends({}, {}, {}, 0), Flow([], 0, 0, []),
      Faults(false, None, false, false), Service(false, false, {}))

  /** What one collection is for. */
  datatype Job = Job(deadline: int, input: seq<Byte>)

  function NextDecisions(d: Decisions, e: Event): Decisions {
    match e
    case Clocked(at) => d.(clock := Some(at), latched := false, latchClock := if d.latched then Some(at)
      else d.latchClock)
    case Waited(at, _, Exited(code)) =>
      d.(exit := if d.exit.None? then Some(code) else d.exit, start := if d.start.None? then Some(at) else d.start)
    case Aborted(reason, at) =>
      d.(abort := if d.abort.None? then Some(reason) else d.abort, start := if d.start.None? then Some(at) else d.start)
    case Latched => d.(latched := true)
    case _ => d
  }

  function NextEnds(ends: Ends, e: Event): Ends {
    match e
    case Took(p) => ends.(took := ends.took + {p}, open := ends.open + {p})
    case Closed(p, _) => ends.(open := ends.open - {p})
    case Killed(_) => ends.(kills := ends.kills + 1)
    case Read(p, _, Data(bytes)) => if bytes == [] then ends.(eof := ends.eof + {p}) else ends
    case _ => ends
  }

  function NextFlow(flow: Flow, d: Decisions, e: Event): Flow {
    match e
    case Wrote(data, Accepted(n)) => if n <= |data| then flow.(sent := flow.sent + data[..n]) else flow
    case Read(Protocol, _, Data(bytes)) => flow.(received := flow.received + bytes)
    case Read(Stdout, _, Data(bytes)) => if d.abort.None? then flow.(stdout := flow.stdout + |bytes|) else flow
    case Read(Stderr, _, Data(bytes)) => if d.abort.None? then flow.(stderr := flow.stderr + |bytes|) else flow
    case _ => flow
  }

  function NextFaults(f: Faults, e: Event): Faults {
    if Raises(e).None? then f
    else f.Add(Raises(e).value, e.Closed? || e.SelectorClosed? || (e.Unregistered? && e.closing), e.Waited?)
  }

  function NextService(v: Service, e: Event): Service {
    match e
    case Clocked(_) => v.(asked := false)
    case Waited(_, _, _) => v.(asked := true)
    case Selected(_, _, Ready(keys)) => v.(due := PipesOf(keys))
    case Wrote(_, write) => v.(due := v.due - {Stdin}, broken := v.broken || write == WriteRaised(BrokenPipe))
    case Read(p, _, _) => v.(due := v.due - {p})
    case _ => v
  }

  function Next(s: Summary, e: Event): Summary {
    Summary(NextDecisions(s.decisions, e), NextEnds(s.ends, e), NextFlow(s.flow, s.decisions, e),
      NextFaults(s.faults, e), NextService(s.service, e))
  }

  function Summarise(t: Trace): Summary {
    if t.Start? then NOTHING else Next(Summarise(t.past), t.last)
  }

  /** The facts an abort reason asserts about the calls before it. */
  predicate ReasonHolds(s: Summary, reason: Reason, at: int, deadline: int) {
    var first, flow := s.decisions.abort.None?, s.flow;
    match reason
    case Deadline => first && deadline <= at && LookedFirst(s)
    case ProtocolLimit => first && MAX_PROTOCOL < |flow.received|
    case StdoutLimit => first && MAX_STDOUT < flow.stdout
    case StderrLimit => first && MAX_STDERR < flow.stderr
    case DiagnosticLimit =>
      first && MAX_DIAGNOSTIC < flow.stdout + flow.stderr && flow.stdout <= MAX_STDOUT && flow.stderr <= MAX_STDERR
    case Interrupted => s.faults.interrupt.Some?
    case ProcessError => s.faults.waitFailed
    case IoError => s.faults.faulted && (s.faults.interrupt.Some? ==> s.faults.cleanupFailed)
    case CleanupUncertain => false
    case WorkerExit => false
  }

  /** Nothing is missing and nothing went wrong. */
  predicate Finished(s: Summary) {
    && s.ends.eof == {Stdout, Stderr, Protocol} && s.decisions.exit == Some(0) && s.decisions.abort.None?
    && !s.faults.cleanupFailed && s.faults.interrupt.None?
  }

  function Least(a: int, b: int): int { if a <= b then a else b }

  /** The next quantum of what is still to be sent. */
  function NextChunk(input: seq<Byte>, sent: nat): seq<Byte>
    requires sent <= |input|
  {
    input[sent..Least(sent + QUANTUM, |input|)]
  }

  /** The child's input is closed only when it is all sent, broken, or no longer wanted. */
  predicate InputMayEnd(s: Summary, input: seq<Byte>) {
    s.flow.sent == input || s.service.broken || s.decisions.abort.Some? || s.decisions.exit.Some?
  }

  /** No descriptor but the input has been given up. */
  predicate OutputsOpen(ends: Ends) { ends.took - {Stdin} <= ends.open }

  /** Since the clock was read the child has been asked for its exit, unless it is known. */
  predicate LookedFirst(s: Summary) { s.decisions.exit.Some? || s.service.asked }

  /** The checks of one turn are done: exit, deadline and failed cleanup. */
  predicate Arbitrated(s: Summary, deadline: int) {
    && LookedFirst(s) && s.decisions.clock.Some?
    && (s.decisions.abort.None? ==> s.decisions.clock.value < deadline && !s.faults.cleanupFailed)
  }

  /** An abort is followed by the kill before anything else. */
  predicate Signalled(s: Summary) { s.decisions.abort.Some? && s.decisions.exit.None? ==> s.ends.kills == 1 }

  /** What the collector may do next, given everything that happened so far. */
  predicate MayFollow(s: Summary, e: Event, job: Job) {
    var d, ends := s.decisions, s.ends;
    match e
    case Took(p) => p !in ends.took && d.abort.None?
    case Waited(at, patience, _) =>
      && d.exit.None? && Signalled(s)
      && (0 < patience ==> d.start.Some? && at + patience == d.start.value + CLEANUP_ALLOWANCE)
    case Killed(_) => ends.kills == 0 && d.exit.None? && d.abort.Some?
    case Closed(p, _) => p in ends.open && Signalled(s) && (p == Stdin ==> InputMayEnd(s, job.input))
    case Selected(at, timeout, _) =>
      && d.clock == Some(at) && at < d.Limit(job.deadline) && timeout == Least(POLL, d.Limit(job.deadline) - at)
      && Arbitrated(s, job.deadline) && Signalled(s) && OutputsOpen(ends) && s.service.due !! ends.open
    case Wrote(data, _) =>
      && Stdin in ends.open && d.abort.None? && d.exit.None? && Arbitrated(s, job.deadline) && !s.service.broken
      && |s.flow.sent| <= |job.input| && data == NextChunk(job.input, |s.flow.sent|) && data != []
    case Read(p, size, _) =>
      && p != Stdin && p in ends.open && Arbitrated(s, job.deadline) && Signalled(s) && OutputsOpen(ends)
      && (d.abort.None? ==> s.flow.WithinCeilings())
      && size == (if d.abort.None? then Least(QUANTUM, s.flow.Room(p) + 1) else QUANTUM)
      && (d.start.Some? ==> d.clock.Some? && d.clock.value < d.start.value + CLEANUP_ALLOWANCE)
    case Aborted(reason, at) => d.clock == Some(at) && ReasonHolds(s, reason, at, job.deadline)
    case Latched => Finished(s) && OutputsOpen(ends)
    case _ => true
  }

  /** Every answer fits its call: reads and writes never exceed what was asked. */
  predicate Fits(e: Event) {
    match e
    case Read(_, size, Data(bytes)) => |bytes| <= size
    case Wrote(data, Accepted(n)) => n <= |data|
    case _ => true
  }

  predicate Disciplined(t: Trace, job: Job) {
    t.Then? ==> Disciplined(t.past, job) && MayFollow(Summarise(t.past), t.last, job) && Fits(t.last)
  }

  /** The one-pass summary says what the separate definitions say. */
  lemma {:induction false} SummaryDecisions(t: Trace)
    ensures var d := Summarise(t).decisions;
      && d.abort == FirstAbort(t) && d.exit == FirstExit(t) && d.start == CleanupStart(t)
      && d.clock == LastClock(t) && d.latched == CopyPending(t) && d.latchClock == LatchClock(t)
  {
    if t.Then? {
      SummaryDecisions(t.past);
    }
  }

  lemma {:induction false} SummaryFaults(t: Trace)
    ensures Summarise(t).faults == Faults(CleanupFailed(t), Interrupt(t), Faulted(t), WaitFailed(t))
  {
    if t.Then? {
      SummaryFaults(t.past);
    }
  }

  lemma {:induction false} SummaryFlow(t: Trace)
    ensures Summarise(t).flow == Flow(Received(t, Protocol), Observed(t, Stdout), Observed(t, Stderr), Sent(t))
  {
    if t.Then? {
      SummaryFlow(t.past);
      SummaryDecisions(t.past);
    }
  }

  lemma {:induction false} SummaryService(t: Trace)
    ensures Summarise(t).service == Service(AskedSince(t), InputBroken(t), Unserved(t))
  {
    if t.Then? {
      SummaryService(t.past);
    }
  }

  lemma {:induction false} SummaryEnds(t: Trace)
    ensures Summarise(t).ends.kills == Kills(t)
    ensures forall p :: p in Summarise(t).ends.took <==> TookPipe(t, p)
    ensures forall p :: p in Summarise(t).ends.eof <==> AtEof(t, p)
  {
    if t.Then? {
      SummaryEnds(t.past);
    }
  }

  /** Every kill came after an abort and before any exit was observed. */
  predicate KillsTheLiving(t: Trace) {
    t.Then? ==> KillsTheLiving(t.past) && (t.last.Killed? ==> FirstAbort(t.past).Some? && FirstExit(t.past).None?)
  }

  /** A disciplined collector kills at most once, only after an abort and never after an
      exit, and closes no endpoint twice nor one it never took; what is still open is what it
      took and never closed. */
  lemma {:induction false} DisciplineMeans(t: Trace, job: Job)
    requires Disciplined(t, job)
    ensures Kills(t) <= 1 && (Kills(t) > 0 ==> FirstAbort(t).Some?) && KillsTheLiving(t)
    ensures forall p :: Closes(t, p) <= 1 && (Closes(t, p) > 0 ==> TookPipe(t, p))
    ensures forall p :: p in Summarise(t).ends.open <==> TookPipe(t, p) && Closes(t, p) == 0
  {
    if t.Then? {
      DisciplineMeans(t.past, job);
      SummaryEnds(t.past);
      SummaryDecisions(t.past);
    }
  }

  /** Ceilings: no diagnostic pipe, nor both together, is read more than one byte past its
      ceiling before the first abort, and every counter is frozen from then on. */
  lemma {:induction false} CeilingsHold(t: Trace, job: Job)
    requires Disciplined(t, job)
    ensures Observed(t, Stdout) <= MAX_STDOUT + 1 && Observed(t, Stderr) <= MAX_STDERR + 1
    ensures Diagnostic(t) <= MAX_DIAGNOSTIC + 1
    ensures FirstAbort(t).None? ==> |Received(t, Protocol)| <= MAX_PROTOCOL + 1
  {
    if t.Then? {
      CeilingsHold(t.past, job);
      SummaryFlow(t.past);
      SummaryDecisions(t.past);
    }
  }

  /** Every wait, for the descriptors or for the child, ends by the given instant. */
  predicate WaitsEndBy(t: Trace, limit: int) {
    t.Then? ==>
      && WaitsEndBy(t.past, limit)
      && (t.last.Selected? ==> t.last.at + t.last.timeout <= limit)
      && (t.last.Waited? && 0 < t.last.patience ==> t.last.at + t.last.patience <= limit)
  }

  lemma {:induction false} WaitsEndLater(t: Trace, limit: int, later: int)
    requires WaitsEndBy(t, limit) && limit <= later
    ensures WaitsEndBy(t, later)
  {
    if t.Then? {
      WaitsEndLater(t.past, limit, later);
    }
  }

  /** One cleanup allowance for the whole collection: no wait runs past the deadline
      until the first abort or exit, and none runs past that instant plus the allowance
      or the deadline, whatever happens afterwards. */
  lemma {:induction false} WaitsAreBounded(t: Trace, job: Job)
    requires Disciplined(t, job)
    ensures match CleanupStart(t)
            case None => WaitsEndBy(t, job.deadline)
            case Some(at) => WaitsEndBy(t, if job.deadline < at + CLEANUP_ALLOWANCE then at + CLEANUP_ALLOWANCE
              else job.deadline)
  {
    if t.Then? {
      WaitsAreBounded(t.past, job);
      SummaryDecisions(t.past);
      if CleanupStart(t.past).None? && CleanupStart(t).Some? {
        var at := CleanupStart(t).value;
        WaitsEndLater(t.past, job.deadline,
          if job.deadline < at + CLEANUP_ALLOWANCE then at + CLEANUP_ALLOWANCE else job.deadline);
      }
    }
  }

  /** The child is sent its input in order, each time the next quantum of it, and nothing
      more once it is all sent; its input is closed only when it is all sent, when the pipe
      is broken, or after an abort or an observed exit. */
  predicate InputServed(t: Trace, input: seq<Byte>) {
    t.Then? ==>
      && InputServed(t.past, input)
      && (t.last.Wrote? ==>
            && !InputBroken(t.past) && FirstAbort(t.past).None? && FirstExit(t.past).None?
            && Sent(t.past) <= input && t.last.data == input[|Sent(t.past)|..Least(|Sent(t.past)| + QUANTUM, |input|)]
            && Sent(t.past) != input)
      && (t.last.Closed? && t.last.pipe == Stdin ==>
            Sent(t.past) == input || InputBroken(t.past) || FirstAbort(t.past).Some? || FirstExit(t.past).Some?)
  }

  /** The selector is not asked again before every pipe it reported was served or closed. */
  predicate NoneStarved(t: Trace) {
    t.Then? ==>
      && NoneStarved(t.past)
      && (t.last.Selected? ==> forall p :: p in Unserved(t.past) && TookPipe(t.past, p) ==> Closes(t.past, p) == 1)
  }

  /** Every wait for the descriptors, write and read comes after a turn's checks: the child
      was asked since the clock was read, and without an abort the deadline has not passed
      and no close has failed. Nothing but the kill comes between an abort and the kill. */
  predicate TurnsChecked(t: Trace, deadline: int) {
    t.Then? ==>
      && TurnsChecked(t.past, deadline)
      && (t.last.Selected? || t.last.Wrote? || t.last.Read? ==>
            && (FirstExit(t.past).Some? || AskedSince(t.past)) && LastClock(t.past).Some?
            && (FirstAbort(t.past).None? ==> LastClock(t.past).value < deadline && !CleanupFailed(t.past)))
      && (t.last.Selected? || t.last.Read? || t.last.Closed? || t.last.Waited? ==>
            FirstAbort(t.past).None? || FirstExit(t.past).Some? || Kills(t.past) == 1)
  }

  /** The decision to accept is taken before any output pipe is closed. */
  predicate DecidedOpen(t: Trace) {
    t.Then? ==>
      DecidedOpen(t.past)
      && (t.last.Latched? ==> forall p :: p != Stdin && TookPipe(t.past, p) ==> Closes(t.past, p) == 0)
  }

  lemma {:induction false} DisciplineServes(t: Trace, job: Job)
    requires Disciplined(t, job)
    ensures InputServed(t, job.input) && Sent(t) <= job.input
  {
    if t.Then? {
      DisciplineServes(t.past, job);
      SummaryFlow(t.past);
      SummaryService(t.past);
      SummaryDecisions(t.past);
      if t.last.Wrote? {
        var sent := Sent(t.past);
        assert sent == job.input[..|sent|];
        assert sent + t.last.data == job.input[..|sent| + |t.last.data|];
      }
    }
  }

  lemma {:induction false} DisciplineChecks(t: Trace, job: Job)
    requires Disciplined(t, job)
    ensures NoneStarved(t) && TurnsChecked(t, job.deadline) && DecidedOpen(t)
  {
    if t.Then? {
      DisciplineChecks(t.past, job);
      DisciplineMeans(t.past, job);
      SummaryService(t.past);
      SummaryDecisions(t.past);
      SummaryFaults(t.past);
      SummaryEnds(t.past);
    }
  }

  /** The two reasons of the final verdict are never those of an abort. */
  lemma {:induction false} AbortReasons(t: Trace, job: Job)
    requires Disciplined(t, job)
    ensures FirstAbort(t) != Some(CleanupUncertain) && FirstAbort(t) != Some(WorkerExit)
  {
    if t.Then? {
      AbortReasons(t.past, job);
    }
  }

  /** What a collection reports. It is evidence, not permission to retry. */
  datatype Collection = Collection(
    protocol: Option<seq<Byte>>, failure: Option<Reason>, abortReason: Option<Reason>,
    returncode: Option<int>, reaped: bool, pipesEof: bool, cleanupComplete: bool,
    interruption: Option<Signal>, stdoutObserved: nat, stderrObserved: nat,
    diagnosticObserved: nat, protocolHighWater: nat, readHighWater: nat)

  predicate AllEof(t: Trace) {
    AtEof(t, Stdout) && AtEof(t, Stderr) && AtEof(t, Protocol)
  }

  /** The worker is gone, its pipes are drained, and cleanup neither failed nor overran. */
  predicate CleanedUp(t: Trace) {
    && FirstExit(t).Some? && AllEof(t) && !CleanupFailed(t)
    && CleanupStart(t).Some? && LastClock(t).Some? && LastClock(t).value <= CleanupStart(t).value + CLEANUP_ALLOWANCE
  }

  /** The verdict, by decreasing precedence. */
  function Verdict(t: Trace): Option<Reason> {
    if !CleanedUp(t) then Some(CleanupUncertain)
    else if Interrupt(t).Some? then Some(Interrupted)
    else if FirstAbort(t).Some? then FirstAbort(t)
    else if FirstExit(t) != Some(0) then Some(WorkerExit)
    else None
  }

  /** A report says what happened, no more and no less. */
  predicate Faithful(r: Collection, t: Trace, deadline: int) {
    && r.abortReason == FirstAbort(t) && r.interruption == Interrupt(t)
    && r.returncode == FirstExit(t) && (r.reaped <==> FirstExit(t).Some?)
    && (r.pipesEof <==> AllEof(t)) && (r.cleanupComplete <==> CleanedUp(t))
    && r.failure == Verdict(t)
    && r.stdoutObserved == Observed(t, Stdout) && r.stderrObserved == Observed(t, Stderr)
    && r.diagnosticObserved == Diagnostic(t) && r.protocolHighWater <= MAX_PROTOCOL && r.readHighWater <= QUANTUM
    && (r.protocol.Some? <==> r.failure.None?)
    && (r.protocol.Some? ==>
          && r.protocol.value == Received(t, Protocol)
          && LatchClock(t).Some? && LatchClock(t).value < deadline)
  }

  /** The same, read off the one-pass summary. */
  predicate CleanedUpBy(s: Summary) {
    && s.decisions.exit.Some? && s.ends.eof == {Stdout, Stderr, Protocol} && !s.faults.cleanupFailed
    && s.decisions.start.Some? && s.decisions.clock.Some?
    && s.decisions.clock.value <= s.decisions.start.value + CLEANUP_ALLOWANCE
  }

  lemma CleanupMeans(t: Trace)
    requires Stdin !in Summarise(t).ends.eof
    ensures AllEof(t) <==> Summarise(t).ends.eof == {Stdout, Stderr, Protocol}
    ensures CleanedUp(t) <==> CleanedUpBy(Summarise(t))
  {
    SummaryDecisions(t);
    SummaryFaults(t);
    SummaryEnds(t);
    if AllEof(t) {
      forall p ensures p in Summarise(t).ends.eof <==> p in {Stdout, Stderr, Protocol} {
        match p
        case Stdin => case Stdout => case Stderr => case Protocol =>
      }
    }
  }
}
