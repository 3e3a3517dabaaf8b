/** Parent, worker and power loss as interleaved steps over one attempt's files. A write
    lands a few bytes at a time and either side may stop between any two of them. */
module Lifecycle {
  import opened Wrappers
  import opened Journal
  import opened Attempt

  /** Where the owning parent stands; `left` is what it still has to write. */
  datatype Phase =
    | Holding | Permitting(left: string) | Granted | Collecting | Attested
    | Closing(left: string) | Finished | Failed | Dead

  datatype Worker = NotStarted | Ready | Writing(event: Event, left: string) | MayCall | Gone

  datatype World = World(
    journal: string, synced: string,
    closure: Option<string>, closureSafe: bool, payload: Option<Closure>,
    phase: Phase, worker: Worker, calls: nat, prepared: Digest)

  datatype Step =
    | PermitBegin(timeout: int, stamp: Stamp)
    | CloseBegin(reason: ClosureReason, syncs: bool)
    | ParentWrite(n: nat)
    | ParentSync(ok: bool)
    | ParentGivesUp
    | ParentDies
    | Launch(started: bool)
    | Reap
    | WorkerBegin(kind: Kind, data: Payload, stamp: Stamp)
    | WorkerWrite(n: nat)
    | WorkerSync(ok: bool)
    | WorkerGivesUp
    | Call
    | WorkerExits
    | PowerLoss(kept: string, closureKept: Option<string>)

  predicate Starts(c: Codec, w: World) {
    && Decoded(c, w.journal).Some? && |Decoded(c, w.journal).value| == 1
    && w == World(w.journal, w.journal, None, false, None, Holding, Worker.NotStarted, 0,
      Decoded(c, w.journal).value[0].digest)
    && w.journal == Encode(c, Decoded(c, w.journal).value)
  }

  predicate Begins(c: Codec, journal: string, kind: Kind, data: Payload, stamp: Stamp) {
    Decoded(c, journal).Some? && MayAppend(c, journal, Decoded(c, journal).value[0].body.attemptId, kind, data, stamp)
  }

  function Begun(c: Codec, journal: string, kind: Kind, data: Payload, stamp: Stamp): Event
    requires Begins(c, journal, kind, data, stamp)
  {
    var events := Decoded(c, journal).value;
    NextEvent(c, events, events[0].body.attemptId, kind, data, stamp)
  }

  predicate Holds(c: Codec, w: World) {
    Decoded(c, w.journal).Some? && Decoded(c, w.journal).value[0].digest == w.prepared
  }

  /** Which closing reasons the parent's position allows: only `not_started` before a
      permission, and afterwards only with the worker never launched or attested gone. */
  predicate MayCloseIn(phase: Phase) { phase.Holding? || phase.Granted? || phase.Attested? }

  /** Nothing but the journal itself keeps a parent from asking for permission again. */
  predicate MayPermitIn(phase: Phase) { phase.Holding? || phase.Granted? || phase.Collecting? || phase.Attested? }

  predicate Can(c: Codec, w: World, s: Step) {
    match s
    case PermitBegin(timeout, stamp) =>
      MayPermitIn(w.phase) && w.closure.None? && Holds(c, w)
        && Begins(c, w.journal, DispatchPermitted, Grant(timeout), stamp)
    case CloseBegin(reason, _) =>
      MayCloseIn(w.phase) && w.closure.None? && Holds(c, w) && MayClose(Decoded(c, w.journal).value, reason)
    case ParentWrite(n) => (w.phase.Permitting? || w.phase.Closing?) && 1 <= n <= |w.phase.left|
    case ParentSync(_) => (w.phase.Permitting? || w.phase.Closing?) && w.phase.left == ""
    case ParentGivesUp => !w.phase.Dead?
    case ParentDies => true
    case Launch(_) => w.phase.Granted?
    case Reap => w.phase.Collecting? && w.worker.Gone?
    case WorkerBegin(kind, data, stamp) => w.worker.Ready? && Begins(c, w.journal, kind, data, stamp)
    case WorkerWrite(n) => w.worker.Writing? && 1 <= n <= |w.worker.left|
    case WorkerSync(_) => w.worker.Writing? && w.worker.left == ""
    case WorkerGivesUp => w.worker.Writing?
    case Call => w.worker.MayCall?
    case WorkerExits => !w.worker.NotStarted?
    case PowerLoss(kept, closureKept) =>
      && w.synced <= kept <= w.journal
      && if w.closureSafe then closureKept == w.closure
         else closureKept.Some? ==> w.closure.Some? && closureKept.value <= w.closure.value
  }

  function Asked(c: Codec, w: World, timeout: int, stamp: Stamp): World
    requires Begins(c, w.journal, DispatchPermitted, Grant(timeout), stamp)
  {
    w.(phase := Permitting(c.Frame(Begun(c, w.journal, DispatchPermitted, Grant(timeout), stamp))))
  }

  function Closed(c: Codec, w: World, reason: ClosureReason): World
    requires Holds(c, w)
  {
    var x := ClosureFor(Decoded(c, w.journal).value, reason);
    w.(synced := w.journal, closure := Some(""), payload := Some(x), phase := Closing(c.dumpsClosure(x)))
  }

  function PermitWrote(w: World, n: nat): World
    requires w.phase.Permitting? && n <= |w.phase.left|
  {
    w.(journal := w.journal + w.phase.left[..n], phase := Permitting(w.phase.left[n..]))
  }

  function CloseWrote(w: World, n: nat): World
    requires w.phase.Closing? && n <= |w.phase.left|
  {
    w.(closure := if w.closure.Some? then Some(w.closure.value + w.phase.left[..n]) else None,
       phase := Closing(w.phase.left[n..]))
  }

  function Starting(c: Codec, w: World, kind: Kind, data: Payload, stamp: Stamp): World
    requires Begins(c, w.journal, kind, data, stamp)
  {
    var e := Begun(c, w.journal, kind, data, stamp);
    w.(worker := Writing(e, c.Frame(e)))
  }

  function WorkerWrote(w: World, n: nat): World
    requires w.worker.Writing? && n <= |w.worker.left|
  {
    w.(journal := w.journal + w.worker.left[..n], worker := Writing(w.worker.event, w.worker.left[n..]))
  }

  /** Only a boundary whose fsync succeeded lets the worker call. */
  function WorkerSynced(w: World): World
    requires w.worker.Writing?
  {
    w.(synced := w.journal, worker := if w.worker.event.body.kind == SdkCallBoundary then MayCall else Ready)
  }

  function Rebooted(w: World, kept: string, closureKept: Option<string>): World {
    w.(journal := kept, synced := kept, closure := closureKept, phase := Dead,
       worker := if w.worker.NotStarted? then Worker.NotStarted else Gone)
  }

  function Do(c: Codec, w: World, s: Step): World
    requires Can(c, w, s)
  {
    match s
    case PermitBegin(timeout, stamp) => Asked(c, w, timeout, stamp)
    case CloseBegin(reason, syncs) => if syncs then Closed(c, w, reason) else w.(phase := Failed)
    case ParentWrite(n) => if w.phase.Permitting? then PermitWrote(w, n) else CloseWrote(w, n)
    case ParentSync(ok) =>
      if !ok then w.(phase := Failed)
      else if w.phase.Permitting? then w.(synced := w.journal, phase := Granted)
      else w.(closureSafe := true, phase := Finished)
    case ParentGivesUp => w.(phase := Failed)
    case ParentDies => w.(phase := Dead)
    case Launch(started) => w.(phase := Collecting, worker := if started then Ready else w.worker)
    case Reap => w.(phase := Attested)
    case WorkerBegin(kind, data, stamp) => Starting(c, w, kind, data, stamp)
    case WorkerWrite(n) => WorkerWrote(w, n)
    case WorkerSync(ok) => if ok then WorkerSynced(w) else w.(worker := Ready)
    case WorkerGivesUp => w.(worker := Ready)
    case Call => w.(calls := w.calls + 1, worker := Ready)
    case WorkerExits => w.(worker := Gone)
    case PowerLoss(kept, closureKept) => Rebooted(w, kept, closureKept)
  }

  predicate Runs(c: Codec, w: World, steps: seq<Step>)
    decreases |steps|
  {
    steps == [] || (Can(c, w, steps[0]) && Runs(c, Do(c, w, steps[0]), steps[1..]))
  }

  function End(c: Codec, w: World, steps: seq<Step>): World
    requires Runs(c, w, steps)
    decreases |steps|
  {
    if steps == [] then w else End(c, Do(c, w, steps[0]), steps[1..])
  }

  // ---------------------------------------------------------------- invariant

  /** `all`: the events begun so far; `d`: how many of them are certainly on disk. */
  predicate Stored(c: Codec, w: World, all: seq<Event>, d: nat) {
    && Chain(c, all) && Fits(c, all) && 1 <= d <= |all| && all[0].digest == w.prepared
    && Encode(c, all[..d]) <= w.synced && w.synced <= w.journal && w.journal <= Encode(c, all)
  }

  predicate WorkerOk(c: Codec, w: World, all: seq<Event>, d: nat) {
    && w.calls <= 1 && (w.calls == 1 ==> 3 <= d && !w.worker.NotStarted?)
    && (!w.worker.NotStarted? ==> 2 <= d && !w.phase.Holding? && !w.phase.Permitting? && !w.phase.Granted?)
    && (w.worker.Ready? || w.worker.Writing? || w.worker.MayCall? ==>
          w.closure.None? && (w.phase.Collecting? || w.phase.Failed? || w.phase.Dead?))
    && (w.worker.Writing? ==>
          w.journal + w.worker.left == Encode(c, all) && d < |all| && all[|all| - 1] == w.worker.event)
    && (w.worker.MayCall? ==> d == |all| == 3 && w.calls == 0)
  }

  predicate ParentOk(c: Codec, w: World, all: seq<Event>, d: nat) {
    match w.phase
    case Holding => w.closure.None? && w.worker.NotStarted?
    case Permitting(left) =>
      && w.closure.None? && w.worker.NotStarted?
      && w.journal + left == Encode(c, all) && d < |all| == 2
    case Granted => w.closure.None? && w.worker.NotStarted? && 2 <= d
    case Collecting => w.closure.None? && 2 <= d
    case Attested => w.closure.None? && 2 <= d && w.worker.Gone?
    case Closing(left) =>
      w.closure.Some? && w.payload.Some? && w.closure.value + left == c.dumpsClosure(w.payload.value)
    case _ => true
  }

  predicate ClosureOk(c: Codec, w: World) {
    && (w.closure.Some? ==>
          && w.payload.Some? && w.closure.value <= c.dumpsClosure(w.payload.value)
          && ReadClosure(c, c.dumpsClosure(w.payload.value)) == Some(w.payload.value)
          && w.synced == w.journal && Decoded(c, w.journal).Some?
          && Binds(w.payload.value, Decoded(c, w.journal).value)
          && (w.worker.NotStarted? || w.worker.Gone?)
          && (w.phase.Closing? || w.phase.Finished? || w.phase.Failed? || w.phase.Dead?))
    && (w.closureSafe ==> w.closure.Some? && w.payload.Some? && w.closure.value == c.dumpsClosure(w.payload.value))
  }

  predicate InvBy(c: Codec, w: World, all: seq<Event>, d: nat) {
    Stored(c, w, all, d) && WorkerOk(c, w, all, d) && ParentOk(c, w, all, d) && ClosureOk(c, w)
  }

  ghost predicate Inv(c: Codec, w: World) {
    exists all: seq<Event>, d: nat :: InvBy(c, w, all, d)
  }

  lemma StartInv(c: Codec, w: World)
    requires c.Lawful() && Starts(c, w)
    ensures InvBy(c, w, Decoded(c, w.journal).value, 1)
  {
    var all := Decoded(c, w.journal).value;
    assert all[..1] == all;
    DecodeEncode(c, all);
  }

  /** An append that starts: everything begun before it is whole and on record. */
  lemma BeginExtends(c: Codec, w: World, all: seq<Event>, d: nat, kind: Kind, data: Payload, stamp: Stamp)
    returns (more: seq<Event>)
    requires c.Lawful() && Stored(c, w, all, d) && Begins(c, w.journal, kind, data, stamp)
    ensures Stored(c, w, more, d) && d < |more| && more[|more| - 1] == Begun(c, w.journal, kind, data, stamp)
    ensures w.journal + c.Frame(Begun(c, w.journal, kind, data, stamp)) == Encode(c, more)
    ensures more[|more| - 1].body.kind == kind
  {
    var e := Begun(c, w.journal, kind, data, stamp);
    var n := AppendOnto(c, all, w.journal, e);
    EncodeShorter(c, all, d, n);
    more := all[..n] + [e];
    assert more[..d] == all[..d];
  }

  lemma LastKind(c: Codec, events: seq<Event>)
    requires Chain(c, events)
    ensures events[|events| - 1].body.kind == DispatchPermitted ==> |events| == 2
    ensures events[|events| - 1].body.kind == SdkCallBoundary ==> |events| == 3
  {
    ChainKinds(c, events);
  }

  lemma AskedKeeps(c: Codec, w: World, all: seq<Event>, d: nat, timeout: int, stamp: Stamp)
    requires c.Lawful() && InvBy(c, w, all, d)
    requires MayPermitIn(w.phase) && w.closure.None? && Begins(c, w.journal, DispatchPermitted, Grant(timeout), stamp)
    ensures Inv(c, Asked(c, w, timeout, stamp))
  {
    var more := BeginExtends(c, w, all, d, DispatchPermitted, Grant(timeout), stamp);
    LastKind(c, more);
    assert d == 1 && w.worker.NotStarted?;
    var v := Asked(c, w, timeout, stamp);
    assert Stored(c, v, more, d) && WorkerOk(c, v, more, d) && ParentOk(c, v, more, d);
    assert InvBy(c, v, more, d);
  }

  lemma ClosedKeeps(c: Codec, w: World, all: seq<Event>, d: nat, reason: ClosureReason)
    requires c.Lawful() && c.LawfulClosures() && InvBy(c, w, all, d) && Holds(c, w)
    requires MayCloseIn(w.phase) && w.closure.None? && MayClose(Decoded(c, w.journal).value, reason)
    ensures Inv(c, Closed(c, w, reason))
  {
    ClosureBinds(c, Decoded(c, w.journal).value, reason);
    assert InvBy(c, Closed(c, w, reason), all, d);
  }

  lemma PermitWroteKeeps(c: Codec, w: World, all: seq<Event>, d: nat, n: nat)
    requires InvBy(c, w, all, d) && w.phase.Permitting? && n <= |w.phase.left|
    ensures Inv(c, PermitWrote(w, n))
  {
    var left := w.phase.left;
    assert left == left[..n] + left[n..];
    Associative(w.journal, left[..n], left[n..]);
    assert InvBy(c, PermitWrote(w, n), all, d);
  }

  lemma GrantedKeeps(c: Codec, w: World, all: seq<Event>, d: nat)
    requires InvBy(c, w, all, d) && w.phase.Permitting? && w.phase.left == ""
    ensures Inv(c, w.(synced := w.journal, phase := Granted))
  {
    assert w.journal + "" == w.journal && all[..|all|] == all;
    assert InvBy(c, w.(synced := w.journal, phase := Granted), all, |all|);
  }

  lemma CloseWroteKeeps(c: Codec, w: World, all: seq<Event>, d: nat, n: nat)
    requires InvBy(c, w, all, d) && w.phase.Closing? && n <= |w.phase.left|
    ensures Inv(c, CloseWrote(w, n))
  {
    var left := w.phase.left;
    assert left == left[..n] + left[n..];
    Associative(w.closure.value, left[..n], left[n..]);
    assert InvBy(c, CloseWrote(w, n), all, d);
  }

  lemma ClosureSyncedKeeps(c: Codec, w: World, all: seq<Event>, d: nat)
    requires InvBy(c, w, all, d) && w.phase.Closing? && w.phase.left == ""
    ensures Inv(c, w.(closureSafe := true, phase := Finished))
  {
    assert w.closure.value + "" == w.closure.value;
    assert InvBy(c, w.(closureSafe := true, phase := Finished), all, d);
  }

  lemma StartingKeeps(c: Codec, w: World, all: seq<Event>, d: nat, kind: Kind, data: Payload, stamp: Stamp)
    requires c.Lawful() && InvBy(c, w, all, d) && w.worker.Ready? && Begins(c, w.journal, kind, data, stamp)
    ensures Inv(c, Starting(c, w, kind, data, stamp))
  {
    var more := BeginExtends(c, w, all, d, kind, data, stamp);
    assert InvBy(c, Starting(c, w, kind, data, stamp), more, d);
  }

  lemma WorkerWroteKeeps(c: Codec, w: World, all: seq<Event>, d: nat, n: nat)
    requires InvBy(c, w, all, d) && w.worker.Writing? && n <= |w.worker.left|
    ensures Inv(c, WorkerWrote(w, n))
  {
    var left := w.worker.left;
    assert left == left[..n] + left[n..];
    Associative(w.journal, left[..n], left[n..]);
    assert InvBy(c, WorkerWrote(w, n), all, d);
  }

  lemma WorkerSyncedKeeps(c: Codec, w: World, all: seq<Event>, d: nat)
    requires InvBy(c, w, all, d) && w.worker.Writing? && w.worker.left == ""
    ensures Inv(c, WorkerSynced(w))
  {
    assert w.journal + "" == w.journal && all[..|all|] == all;
    LastKind(c, all);
    assert InvBy(c, WorkerSynced(w), all, |all|);
  }

  lemma RebootedKeeps(c: Codec, w: World, all: seq<Event>, d: nat, kept: string, closureKept: Option<string>)
    requires InvBy(c, w, all, d) && Can(c, w, PowerLoss(kept, closureKept))
    ensures Inv(c, Rebooted(w, kept, closureKept))
  {
    assert w.closure.Some? ==> kept == w.journal;
    assert InvBy(c, Rebooted(w, kept, closureKept), all, d);
  }

  /** The steps that touch no file. */
  lemma QuietKeeps(c: Codec, w: World, s: Step, all: seq<Event>, d: nat)
    requires InvBy(c, w, all, d) && Can(c, w, s)
    requires s.ParentGivesUp? || s.ParentDies? || s.Launch? || s.Reap? || s.WorkerGivesUp? || s.Call? || s.WorkerExits?
             || ((s.ParentSync? || s.WorkerSync?) && !s.ok) || (s.CloseBegin? && !s.syncs)
    ensures Inv(c, Do(c, w, s))
  {
    assert InvBy(c, Do(c, w, s), all, d);
  }

  lemma StepKeeps(c: Codec, w: World, s: Step)
    requires c.Lawful() && c.LawfulClosures() && Inv(c, w) && Can(c, w, s)
    ensures Inv(c, Do(c, w, s))
  {
    var all: seq<Event>, d: nat :| InvBy(c, w, all, d);
    match s
    case PermitBegin(timeout, stamp) => AskedKeeps(c, w, all, d, timeout, stamp);
    case CloseBegin(reason, syncs) => if syncs { ClosedKeeps(c, w, all, d, reason); }
      else { QuietKeeps(c, w, s, all, d); }
    case ParentWrite(n) =>
      if w.phase.Permitting? { PermitWroteKeeps(c, w, all, d, n); } else { CloseWroteKeeps(c, w, all, d, n); }
    case ParentSync(ok) =>
      if !ok { QuietKeeps(c, w, s, all, d); }
      else if w.phase.Permitting? { GrantedKeeps(c, w, all, d); }
      else { ClosureSyncedKeeps(c, w, all, d); }
    case WorkerBegin(kind, data, stamp) => StartingKeeps(c, w, all, d, kind, data, stamp);
    case WorkerWrite(n) => WorkerWroteKeeps(c, w, all, d, n);
    case WorkerSync(ok) => if ok { WorkerSyncedKeeps(c, w, all, d); } else { QuietKeeps(c, w, s, all, d); }
    case PowerLoss(kept, closureKept) => RebootedKeeps(c, w, all, d, kept, closureKept);
    case _ => QuietKeeps(c, w, s, all, d);
  }

  lemma {:induction false} RunKeeps(c: Codec, w: World, steps: seq<Step>)
    requires c.Lawful() && c.LawfulClosures() && Inv(c, w) && Runs(c, w, steps)
    ensures Inv(c, End(c, w, steps))
    decreases |steps|
  {
    if steps != [] {
      StepKeeps(c, w, steps[0]);
      RunKeeps(c, Do(c, w, steps[0]), steps[1..]);
    }
  }

  /** Every state of every run keeps the invariant. */
  lemma ReachableInv(c: Codec, start: World, steps: seq<Step>)
    requires c.Lawful() && c.LawfulClosures() && Starts(c, start) && Runs(c, start, steps)
    ensures Inv(c, End(c, start, steps))
  {
    StartInv(c, start);
    RunKeeps(c, start, steps);
  }

  // ------------------------------------------------------------- the SDK call

  predicate OneBoundary(events: seq<Event>) {
    exists i :: 0 <= i < |events| && events[i].body.kind == SdkCallBoundary
                && forall j :: 0 <= j < |events| && events[j].body.kind == SdkCallBoundary ==> j == i
  }

  lemma ChainBoundaries(c: Codec, events: seq<Event>)
    requires Chain(c, events)
    ensures OneBoundary(events) <==> 3 <= |events|
  {
    ChainKinds(c, events);
    if 3 <= |events| {
      assert events[2].body.kind == SdkCallBoundary;
    }
  }

  /** What a power loss could leave of the journal. */
  predicate Image(w: World, x: string) { w.synced <= x && x <= w.journal }

  lemma ImageDecodes(c: Codec, w: World, all: seq<Event>, d: nat, x: string) returns (n: nat)
    requires c.Lawful() && Stored(c, w, all, d) && Image(w, x) && Decoded(c, x).Some?
    ensures d <= n <= |all| && Decoded(c, x) == Some(all[..n])
  {
    n := CutDecodes(c, all, x);
    EncodeShorter(c, all, d, n);
  }

  /** The whole frames among the durable bytes. */
  lemma DurableEvents(c: Codec, w: World, all: seq<Event>, d: nat) returns (n: nat)
    requires c.Lawful() && Stored(c, w, all, d)
    ensures n <= |w.synced| && Decoded(c, w.synced[..n]) == Some(all[..d])
  {
    n := |Encode(c, all[..d])|;
    EncodeGrows(c, all, d);
    PrefixOfChain(c, all, d);
    DecodeEncode(c, all[..d]);
    assert w.synced[..n] == Encode(c, all[..d]);
  }

  /** If the call was issued, exactly one boundary is on durable record, whatever failed: in
      a prefix of what is safe, and in everything a crash can leave that still decodes. */
  lemma CallIsOnRecord(c: Codec, start: World, steps: seq<Step>, x: string)
    requires c.Lawful() && c.LawfulClosures() && Starts(c, start) && Runs(c, start, steps)
             && Image(End(c, start, steps), x)
    ensures var w := End(c, start, steps);
            w.calls <= 1 &&
            (w.calls == 1 ==>
               && (Decoded(c, x).Some? ==> OneBoundary(Decoded(c, x).value))
               && exists n: nat ::
                 n <= |w.synced| && Decoded(c, w.synced[..n]).Some? && OneBoundary(Decoded(c, w.synced[..n]).value))
  {
    ReachableInv(c, start, steps);
    var w := End(c, start, steps);
    var all: seq<Event>, d: nat :| InvBy(c, w, all, d);
    if w.calls == 1 {
      var n := DurableEvents(c, w, all, d);
      PrefixOfChain(c, all, d);
      ChainBoundaries(c, all[..d]);
      assert OneBoundary(Decoded(c, w.synced[..n]).value);
      if Decoded(c, x).Some? {
        var m := ImageDecodes(c, w, all, d, x);
        PrefixOfChain(c, all, m);
        ChainBoundaries(c, all[..m]);
      }
    }
  }

  /** And from no state a crash could leave can a second boundary be appended. */
  lemma NoSecondBoundary(c: Codec, start: World, steps: seq<Step>, x: string, data: Payload, stamp: Stamp)
    requires c.Lawful() && c.LawfulClosures() && Starts(c, start) && Runs(c, start, steps)
    requires End(c, start, steps).calls == 1 && Image(End(c, start, steps), x)
    ensures !Begins(c, x, SdkCallBoundary, data, stamp)
  {
    ReachableInv(c, start, steps);
    var w := End(c, start, steps);
    var all: seq<Event>, d: nat :| InvBy(c, w, all, d);
    if Begins(c, x, SdkCallBoundary, data, stamp) {
      var n := ImageDecodes(c, w, all, d, x);
      var e := Begun(c, x, SdkCallBoundary, data, stamp);
      AppendDecodes(c, x, e);
      ChainKinds(c, all[..n] + [e]);
      assert false;
    }
  }

  /** Once a worker was launched, and so once the call was issued, no inspection of any
      crash image reports the attempt safe to retry, whatever stands in `closed.json`. */
  lemma LaunchedNeverSafe(c: Codec, start: World, steps: seq<Step>, x: string, closed: Option<string>, memory: Memory,
    requireClosed: bool)
    requires c.Lawful() && c.LawfulClosures() && Starts(c, start) && Runs(c, start, steps)
    requires !End(c, start, steps).worker.NotStarted? && Image(End(c, start, steps), x)
    ensures var r := Inspected(c, x, closed, memory, requireClosed);
            r.Some? ==> r.value.safety != SafeNotDispatched
  {
    ReachableInv(c, start, steps);
    var w := End(c, start, steps);
    var all: seq<Event>, d: nat :| InvBy(c, w, all, d);
    if Decoded(c, x).Some? {
      var n := ImageDecodes(c, w, all, d, x);
    }
    PermittedNeverSafe(c, x, closed, memory, requireClosed);
  }

  lemma CallMeansLaunched(c: Codec, start: World, steps: seq<Step>)
    requires c.Lawful() && c.LawfulClosures() && Starts(c, start) && Runs(c, start, steps)
    ensures End(c, start, steps).calls > 0 ==> !End(c, start, steps).worker.NotStarted?
  {
    ReachableInv(c, start, steps);
  }

  // --------------------------------------------------------------- quiescence

  predicate Settled(w: World) {
    && (w.worker.NotStarted? || w.worker.Gone?) && w.synced == w.journal
    && (w.phase.Closing? || w.phase.Finished? || w.phase.Failed? || w.phase.Dead?)
  }

  lemma SettledStep(c: Codec, w: World, s: Step)
    requires Settled(w) && Can(c, w, s) && (w.phase.Closing? ==> w.closure.Some?)
    ensures var v := Do(c, w, s);
            Settled(v) && v.journal == w.journal && v.calls == w.calls && v.payload == w.payload
              && (v.phase.Closing? ==> v.closure.Some?)
  {
  }

  /** After a closure is begun nothing is appended, no call is issued and no other closure
      is ever begun, by anyone, even across power losses. */
  lemma {:induction false} ClosedIsFinal(c: Codec, w: World, steps: seq<Step>)
    requires Settled(w) && Runs(c, w, steps) && (w.phase.Closing? ==> w.closure.Some?)
    ensures var v := End(c, w, steps);
            v.journal == w.journal && v.calls == w.calls && v.payload == w.payload
    decreases |steps|
  {
    if steps != [] {
      SettledStep(c, w, steps[0]);
      ClosedIsFinal(c, Do(c, w, steps[0]), steps[1..]);
    }
  }

  lemma ClosedMeansSettled(c: Codec, start: World, steps: seq<Step>)
    requires c.Lawful() && c.LawfulClosures() && Starts(c, start) && Runs(c, start, steps)
    ensures var w := End(c, start, steps);
            (w.closure.Some? ==> Settled(w)) && (w.phase.Closing? ==> w.closure.Some?)
  {
    ReachableInv(c, start, steps);
  }

  /** What an object remembers agrees with this attempt. */
  predicate Recognises(c: Codec, w: World, memory: Memory) {
    && !memory.failed && (memory.prepared.Some? ==> memory.prepared.value == w.prepared)
    && (memory.committed.Some? ==> w.payload.Some? && memory.committed.value == c.shaClosure(w.payload.value))
  }

  lemma JournalDecodes(c: Codec, start: World, steps: seq<Step>)
    requires c.Lawful() && c.LawfulClosures() && Starts(c, start) && Runs(c, start, steps)
    requires Decoded(c, End(c, start, steps).journal).Some?
    ensures var w := End(c, start, steps);
            var events := Decoded(c, w.journal).value;
            Chain(c, events) && events[0].digest == w.prepared
  {
    ReachableInv(c, start, steps);
    var w := End(c, start, steps);
    var all: seq<Event>, d: nat :| InvBy(c, w, all, d);
    var n := ImageDecodes(c, w, all, d, w.journal);
  }

  predicate Succeeded(last: Body) {
    last.kind == OutcomeObserved && last.data.Observed? && last.data.outcome.success
  }

  /** The verdict a closed journal deserves: safe if the attempt was only prepared, unsafe if
      it ends in an observed success, and otherwise indeterminate. */
  predicate Deserved(s: Snapshot) {
    && s.events != [] && s.closure.Some?
    && var last := s.events[|s.events| - 1].body;
       && (s.safety == SafeNotDispatched <==> |s.events| == 1)
       && (s.safety == UnsafeResponseObserved <==> Succeeded(last))
       && s.outcome == (if last.kind == OutcomeObserved && last.data.Observed? then Some(last.data.outcome) else None)
  }

  lemma VerdictMeans(c: Codec, events: seq<Event>, closure: Closure)
    requires Chain(c, events) && Binds(closure, events)
    ensures Deserved(Snapshot(events, ObservedOutcome(events), Some(closure),
                              Verdict(Some(closure), ObservedOutcome(events))))
  {
    OutcomeIsLast(c, events);
    ChainKinds(c, events);
  }

  /** An untampered closure either was cut short and is refused, or is whole and inspects
      with the verdict its journal deserves. */
  lemma ClosureInspects(c: Codec, start: World, steps: seq<Step>, memory: Memory, requireClosed: bool)
    requires c.Lawful() && c.LawfulClosures() && Starts(c, start) && Runs(c, start, steps)
    requires End(c, start, steps).closure.Some?
    ensures var w := End(c, start, steps);
            w.payload.Some? && (w.closureSafe ==> w.closure.value == c.dumpsClosure(w.payload.value))
    ensures var w := End(c, start, steps);
            var r := Inspected(c, w.journal, w.closure, memory, requireClosed);
            && (r.Some? <==> w.closure.value == c.dumpsClosure(w.payload.value) && Recognises(c, w, memory))
            && (r.Some? ==>
                  && Some(r.value.events) == Decoded(c, w.journal) && r.value.closure == w.payload
                  && Binds(w.payload.value, r.value.events) && Deserved(r.value))
  {
    ReachableInv(c, start, steps);
    var w := End(c, start, steps);
    var text, all := c.dumpsClosure(w.payload.value), w.closure.value;
    if all != text {
      assert all == text[..|all|];
    }
    JournalDecodes(c, start, steps);
    VerdictMeans(c, Decoded(c, w.journal).value, w.payload.value);
  }

  /** Without a closure an attempt is indeterminate, whatever its journal says, and is not
      inspected at all where a closure is demanded. */
  lemma OpenInspects(c: Codec, start: World, steps: seq<Step>, memory: Memory, requireClosed: bool)
    requires c.Lawful() && c.LawfulClosures() && Starts(c, start) && Runs(c, start, steps)
    requires End(c, start, steps).closure.None?
    ensures var w := End(c, start, steps);
            var r := Inspected(c, w.journal, None, memory, requireClosed);
            && (r.Some? <==> !requireClosed && Decoded(c, w.journal).Some? && memory.committed.None?
                             && Recognises(c, w, memory))
            && (r.Some? ==> r.value.safety == Indeterminate && r.value.closure.None?
                            && Some(r.value.events) == Decoded(c, w.journal))
  {
    if Decoded(c, End(c, start, steps).journal).Some? {
      JournalDecodes(c, start, steps);
    }
  }

  /** "Safe to retry" is the truth about the past and the future: no call was issued and
      in no continuation can one be. */
  lemma SafeMeansNeverCalled(c: Codec, start: World, steps: seq<Step>, memory: Memory, requireClosed: bool,
    more: seq<Step>)
    requires c.Lawful() && c.LawfulClosures() && Starts(c, start) && Runs(c, start, steps)
    requires var w := End(c, start, steps);
             var r := Inspected(c, w.journal, w.closure, memory, requireClosed);
             r.Some? && r.value.safety == SafeNotDispatched && Runs(c, w, more)
    ensures End(c, End(c, start, steps), more).calls == 0
  {
    ReachableInv(c, start, steps);
    var w := End(c, start, steps);
    ClosedIsFinal(c, w, more);
    var all: seq<Event>, d: nat :| InvBy(c, w, all, d);
    if w.calls == 1 {
      LaunchedNeverSafe(c, start, steps, w.journal, w.closure, memory, requireClosed);
    }
  }

  // -------------------------------------------- the methods' effects are runs

  lemma RunCons(c: Codec, w: World, s: Step, rest: seq<Step>)
    requires Can(c, w, s) && Runs(c, Do(c, w, s), rest)
    ensures Runs(c, w, [s] + rest) && End(c, w, [s] + rest) == End(c, Do(c, w, s), rest)
  {
    assert ([s] + rest)[1..] == rest;
  }

  lemma PermitWrites(c: Codec, w: World, after: string, safeAfter: string, ok: bool) returns (steps: seq<Step>)
    requires w.phase.Permitting? && Grown(w.journal, w.synced, w.phase.left, after, safeAfter, ok) && w.phase.left != ""
    ensures Runs(c, w, steps)
    ensures End(c, w, steps) == w.(journal := after, synced := safeAfter, phase := if ok then Granted else Failed)
  {
    var left := w.phase.left;
    var k := |after| - |w.journal|;
    assert after == w.journal + left[..k];
    var finish := if ok then ParentSync(true) else ParentGivesUp;
    var w1 := if k == 0 then w else Do(c, w, ParentWrite(k));
    assert w1.journal == after;
    assert Runs(c, Do(c, w1, finish), []);
    RunCons(c, w1, finish, []);
    steps := [finish] + [];
    if k > 0 {
      RunCons(c, w, ParentWrite(k), steps);
      steps := [ParentWrite(k)] + steps;
    }
  }

  /** What `Permit` may leave is what a run of the parent's steps leaves. */
  lemma PermitIsARun(c: Codec, w: World, timeout: int, stamp: Stamp, after: string, safeAfter: string, ok: bool)
    returns (steps: seq<Step>)
    requires Can(c, w, PermitBegin(timeout, stamp))
    requires Grown(w.journal, w.synced, c.Frame(Begun(c, w.journal, DispatchPermitted, Grant(timeout), stamp)), after,
             safeAfter, ok)
    ensures Runs(c, w, steps)
    ensures End(c, w, steps) == w.(journal := after, synced := safeAfter, phase := if ok then Granted else Failed)
  {
    var w1 := Asked(c, w, timeout, stamp);
    steps := PermitWrites(c, w1, after, safeAfter, ok);
    RunCons(c, w, PermitBegin(timeout, stamp), steps);
    steps := [PermitBegin(timeout, stamp)] + steps;
  }

  lemma CloseWrites(c: Codec, w: World, after: string, ok: bool) returns (steps: seq<Step>)
    requires w.phase.Closing? && w.closure == Some("") && after <= w.phase.left && (ok ==> after == w.phase.left)
    ensures Runs(c, w, steps)
    ensures End(c, w, steps) == w.(closure := Some(after), closureSafe := ok
            || w.closureSafe, phase := if ok then Finished else Failed)
  {
    var k := |after|;
    assert w.phase.left[..k] == after;
    var finish := if ok then ParentSync(true) else ParentGivesUp;
    var w1 := if k == 0 then w else Do(c, w, ParentWrite(k));
    assert "" + after == after && w1.closure == Some(after);
    assert Runs(c, Do(c, w1, finish), []);
    RunCons(c, w1, finish, []);
    steps := [finish] + [];
    if k > 0 {
      RunCons(c, w, ParentWrite(k), steps);
      steps := [ParentWrite(k)] + steps;
    }
  }

  /** What `Close` may leave of a closure it begins is what a run of the parent's steps
      leaves: the journal made safe first, then the closure, wholly or torn. */
  lemma CloseIsARun(c: Codec, w: World, reason: ClosureReason, after: string, ok: bool) returns (steps: seq<Step>)
    requires Can(c, w, CloseBegin(reason, true)) && !w.closureSafe
    requires var text := c.dumpsClosure(ClosureFor(Decoded(c, w.journal).value, reason));
             after <= text && (ok ==> after == text)
    ensures Runs(c, w, steps)
    ensures End(c, w, steps)
            == w.(synced := w.journal, closure := Some(after), closureSafe := ok,
                  payload := Some(ClosureFor(Decoded(c, w.journal).value, reason)), phase := if ok then Finished
                    else Failed)
  {
    steps := CloseWrites(c, Closed(c, w, reason), after, ok);
    RunCons(c, w, CloseBegin(reason, true), steps);
    steps := [CloseBegin(reason, true)] + steps;
  }

  lemma WorkerWrites(c: Codec, w: World, after: string, safeAfter: string, ok: bool) returns (steps: seq<Step>)
    requires w.worker.Writing? && Grown(w.journal, w.synced, w.worker.left, after, safeAfter, ok)
    ensures Runs(c, w, steps)
    ensures End(c, w, steps)
            == w.(journal := after, synced := safeAfter,
                  worker := if ok && w.worker.event.body.kind == SdkCallBoundary then MayCall else Ready)
  {
    var k := |after| - |w.journal|;
    assert after == w.journal + w.worker.left[..k];
    var finish := if ok then WorkerSync(true) else WorkerGivesUp;
    var w1 := if k == 0 then w else Do(c, w, WorkerWrite(k));
    assert w1.journal == after;
    assert Runs(c, Do(c, w1, finish), []);
    RunCons(c, w1, finish, []);
    steps := [finish] + [];
    if k > 0 {
      RunCons(c, w, WorkerWrite(k), steps);
      steps := [WorkerWrite(k)] + steps;
    }
  }

  /** What the worker's `Append` may leave is what a run of the worker's steps leaves, and
      only a boundary that is known to be safe lets it call. */
  lemma AppendIsARun(c: Codec, w: World, kind: Kind, data: Payload, stamp: Stamp, after: string, safeAfter: string,
    ok: bool)
    returns (steps: seq<Step>)
    requires Can(c, w, WorkerBegin(kind, data, stamp))
    requires Grown(w.journal, w.synced, c.Frame(Begun(c, w.journal, kind, data, stamp)), after, safeAfter, ok)
    ensures Runs(c, w, steps)
    ensures End(c, w, steps)
            == w.(journal := after, synced := safeAfter, worker := if ok
              && kind == SdkCallBoundary then MayCall else Ready)
  {
    steps := WorkerWrites(c, Starting(c, w, kind, data, stamp), after, safeAfter, ok);
    RunCons(c, w, WorkerBegin(kind, data, stamp), steps);
    steps := [WorkerBegin(kind, data, stamp)] + steps;
  }

  // ----------------------------------------------- every history can be produced

  lemma {:induction false} RunConcat(c: Codec, w: World, xs: seq<Step>, ys: seq<Step>)
    requires Runs(c, w, xs) && Runs(c, End(c, w, xs), ys)
    ensures Runs(c, w, xs + ys) && End(c, w, xs + ys) == End(c, End(c, w, xs), ys)
    decreases |xs|
  {
    if xs == [] {
      assert xs + ys == ys;
    } else {
      RunConcat(c, Do(c, w, xs[0]), xs[1..], ys);
      DropOf(xs, ys, 1);
      assert (xs + ys)[0] == xs[0];
    }
  }

  lemma PrefixDecodes(c: Codec, all: seq<Event>, n: nat)
    requires c.Lawful() && Chain(c, all) && Fits(c, all) && 1 <= n <= |all|
    ensures Decoded(c, Encode(c, all[..n])) == Some(all[..n])
  {
    PrefixOfChain(c, all, n);
    EncodeGrows(c, all, n);
    DecodeEncode(c, all[..n]);
  }

  lemma NextIsEvent(c: Codec, all: seq<Event>, i: nat)
    requires Chain(c, all) && 1 <= i < |all|
    ensures var b := all[i].body; NextEvent(c, all[..i], all[0].body.attemptId, b.kind, b.data, b.stamp) == all[i]
  {
    assert EventOk(c, all, i);
  }

  /** In a chain each event is the one an append after the earlier ones would write. */
  lemma NextIsBegun(c: Codec, all: seq<Event>, i: nat)
    requires c.Lawful() && Chain(c, all) && Fits(c, all) && 1 <= i < |all|
    ensures var b := all[i].body;
            var journal := Encode(c, all[..i]);
            && Decoded(c, journal) == Some(all[..i])
            && Begins(c, journal, b.kind, b.data, b.stamp) && Begun(c, journal, b.kind, b.data, b.stamp) == all[i]
            && journal + c.Frame(all[i]) == Encode(c, all[..i + 1])
  {
    PrefixDecodes(c, all, i);
    PrefixDecodes(c, all, i + 1);
    NextIsEvent(c, all, i);
    assert all[..i] + [all[i]] == all[..i + 1];
    EncodeSnoc(c, all[..i], all[i]);
  }

  /** An attempt whose worker is at work after `n` events, all of them safe. */
  function AtWork(c: Codec, all: seq<Event>, n: nat, calls: nat, worker: Worker): World
    requires 2 <= n <= |all|
  {
    var journal := Encode(c, all[..n]);
    World(journal, journal, None, false, None, Collecting, worker, calls, all[0].digest)
  }

  function CallsAfter(n: nat): nat { if n < 3 then 0 else 1 }

  lemma CallRuns(c: Codec, w: World)
    requires w.worker.MayCall?
    ensures Runs(c, w, [Call]) && End(c, w, [Call]) == w.(calls := w.calls + 1, worker := Ready)
  {
    assert Runs(c, Do(c, w, Call), [Call][1..]);
  }

  lemma WorkAppends(c: Codec, all: seq<Event>, n: nat) returns (steps: seq<Step>)
    requires c.Lawful() && Chain(c, all) && Fits(c, all) && 2 <= n < |all|
    ensures var w := AtWork(c, all, n, CallsAfter(n), Ready);
            Runs(c, w, steps)
            && End(c, w, steps) == AtWork(c, all, n + 1, CallsAfter(n), if n == 2 then MayCall else Ready)
  {
    NextIsBegun(c, all, n);
    ChainKinds(c, all);
    var b, after := all[n].body, Encode(c, all[..n + 1]);
    assert b.kind == SdkCallBoundary <==> n == 2;
    steps := AppendIsARun(c, AtWork(c, all, n, CallsAfter(n), Ready), b.kind, b.data, b.stamp, after, after, true);
  }

  lemma WorkCalls(c: Codec, all: seq<Event>, n: nat) returns (steps: seq<Step>)
    requires c.Lawful() && Chain(c, all) && Fits(c, all) && 2 <= n < |all|
    ensures var w := AtWork(c, all, n, CallsAfter(n), Ready);
            Runs(c, w, steps) && End(c, w, steps) == AtWork(c, all, n + 1, CallsAfter(n + 1), Ready)
  {
    steps := WorkAppends(c, all, n);
    if n == 2 {
      CallRuns(c, AtWork(c, all, 3, 0, MayCall));
      RunConcat(c, AtWork(c, all, 2, 0, Ready), steps, [Call]);
      steps := steps + [Call];
    }
  }

  lemma {:induction false} WorkRuns(c: Codec, all: seq<Event>, n: nat) returns (steps: seq<Step>)
    requires c.Lawful() && Chain(c, all) && Fits(c, all) && 2 <= n <= |all|
    ensures var w := AtWork(c, all, n, CallsAfter(n), Ready);
            Runs(c, w, steps) && End(c, w, steps) == AtWork(c, all, |all|, CallsAfter(|all|), Ready)
    decreases |all| - n
  {
    steps := [];
    if n < |all| {
      steps := WorkCalls(c, all, n);
      var rest := WorkRuns(c, all, n + 1);
      RunConcat(c, AtWork(c, all, n, CallsAfter(n), Ready), steps, rest);
      steps := steps + rest;
    }
  }

  lemma LaunchRuns(c: Codec, w: World)
    requires w.phase.Granted?
    ensures Runs(c, w, [Launch(true)]) && End(c, w, [Launch(true)]) == w.(phase := Collecting, worker := Ready)
  {
    assert Runs(c, Do(c, w, Launch(true)), [Launch(true)][1..]);
  }

  /** From preparation to a worker at work: permission, then the launch. */
  lemma GrantRuns(c: Codec, w: World, all: seq<Event>) returns (steps: seq<Step>)
    requires c.Lawful() && Chain(c, all) && Fits(c, all) && 2 <= |all|
    requires Starts(c, w) && w.journal == Encode(c, all[..1])
    ensures Runs(c, w, steps) && End(c, w, steps) == AtWork(c, all, 2, 0, Ready)
  {
    NextIsBegun(c, all, 1);
    ChainKinds(c, all);
    assert EventOk(c, all, 1);
    var b, after := all[1].body, Encode(c, all[..2]);
    steps := PermitIsARun(c, w, b.data.timeout, b.stamp, after, after, true);
    LaunchRuns(c, End(c, w, steps));
    RunConcat(c, w, steps, [Launch(true)]);
    steps := steps + [Launch(true)];
  }

  /** The worker exits and is reaped. */
  lemma EndOfWork(c: Codec, w: World)
    requires w.phase.Collecting? && w.worker.Ready?
    ensures Runs(c, w, [WorkerExits, Reap])
    ensures End(c, w, [WorkerExits, Reap]) == w.(phase := Attested, worker := Gone)
  {
    var v := Do(c, w, WorkerExits);
    assert [WorkerExits, Reap][1..] == [Reap];
    assert Runs(c, Do(c, v, Reap), [Reap][1..]);
  }

  /** What an attempt that went well leaves: this history and its whole closure. */
  predicate Completed(c: Codec, w: World, all: seq<Event>, reason: ClosureReason)
    requires all != []
  {
    && w.journal == w.synced == Encode(c, all) && w.phase == Finished && w.closureSafe
    && w.closure == Some(c.dumpsClosure(ClosureFor(all, reason)))
    && w.calls == (if 3 <= |all| then 1 else 0)
  }

  /** Every history that fits the bounds is that of some run, which closes it for any reason
      the history allows, having called exactly if the history says so. */
  lemma HistoryRuns(c: Codec, start: World, all: seq<Event>, reason: ClosureReason) returns (steps: seq<Step>)
    requires c.Lawful() && Chain(c, all) && Fits(c, all) && MayClose(all, reason)
    requires Starts(c, start) && start.journal == Encode(c, all[..1])
    ensures Runs(c, start, steps) && Completed(c, End(c, start, steps), all, reason)
  {
    PrefixDecodes(c, all, 1);
    DecodeEncode(c, all);
    assert all[..|all|] == all;
    steps := [];
    if 2 <= |all| {
      steps := GrantRuns(c, start, all);
      var work := WorkRuns(c, all, 2);
      RunConcat(c, start, steps, work);
      steps := steps + work;
      EndOfWork(c, End(c, start, steps));
      RunConcat(c, start, steps, [WorkerExits, Reap]);
      steps := steps + [WorkerExits, Reap];
    }
    var w := End(c, start, steps);
    var close := CloseIsARun(c, w, reason, c.dumpsClosure(ClosureFor(all, reason)), true);
    RunConcat(c, start, steps, close);
    steps := steps + close;
  }
}
