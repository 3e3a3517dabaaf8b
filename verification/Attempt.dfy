/** One attempt's evidence on disk: appending, closing and inspecting it. Files keep what
    a reader sees apart from what an fsync has made safe. */
module Attempt {
  import opened Wrappers
  import opened Journal

  datatype WriteAnswer = Accepted(count: nat) | Refused

  datatype Safety = Indeterminate | SafeNotDispatched | UnsafeResponseObserved

  datatype Snapshot = Snapshot(
    events: seq<Event>, outcome: Option<Outcome>, closure: Option<Closure>, safety: Safety)

  /** What an attempt object remembers; one rebuilt from the path remembers nothing. */
  datatype Memory = Memory(failed: bool, prepared: Option<Digest>, committed: Option<Digest>)

  const REBUILT := Memory(false, None, None)

  // ------------------------------------------------------------ what is written

  function NextEvent(c: Codec, events: seq<Event>, id: string, kind: Kind, data: Payload, stamp: Stamp): Event
    requires events != []
  {
    var body := Body(c.schema, id, |events|, Some(events[|events| - 1].digest), kind, data, stamp);
    Event(body, c.sha(body))
  }

  /** The checks of `append`: the journal and its extension both decode. */
  predicate MayAppend(c: Codec, journal: string, id: string, kind: Kind, data: Payload, stamp: Stamp) {
    var before := Decoded(c, journal);
    && before.Some? && before.value[0].body.attemptId == id
    && Decoded(c, journal + c.Frame(NextEvent(c, before.value, id, kind, data, stamp))).Some?
  }

  predicate Permitted(events: seq<Event>) {
    exists i :: 0 <= i < |events| && events[i].body.kind == DispatchPermitted
  }

  predicate MayClose(events: seq<Event>, reason: ClosureReason) {
    !reason.UnknownReason? && (reason == NotStarted <==> !Permitted(events))
  }

  function ClosureFor(events: seq<Event>, reason: ClosureReason): Closure
    requires events != []
  {
    Closure(events[0].body.attemptId, events[|events| - 1].digest, |events|, reason, !Permitted(events), true)
  }

  // ---------------------------------------------------------------- inspecting

  predicate Binds(x: Closure, events: seq<Event>)
    requires events != []
  {
    && x.workerReaped && x.attemptId == events[0].body.attemptId
    && x.headDigest == events[|events| - 1].digest && x.eventCount == |events|
    && !x.reason.UnknownReason?
    && (x.reason == NotStarted <==> |events| == 1) && x.saysNotStarted == (|events| == 1)
  }

  function ObservedOutcome(events: seq<Event>): Option<Outcome> {
    if events == [] then None
    else if events[0].body.kind == OutcomeObserved && events[0].body.data.Observed?
      then Some(events[0].body.data.outcome)
    else ObservedOutcome(events[1..])
  }

  function ReadClosure(c: Codec, text: string): Option<Closure> {
    if 0 < |text| <= MAX_CLOSURE_BYTES then c.loadsClosure(text) else None
  }

  function Verdict(closure: Option<Closure>, outcome: Option<Outcome>): Safety {
    if closure.Some? && closure.value.reason == NotStarted then SafeNotDispatched
    else if closure.Some? && outcome.Some? && outcome.value.success then UnsafeResponseObserved
    else Indeterminate
  }

  /** None where inspection raises. */
  function Inspected(c: Codec, journal: string, closed: Option<string>, memory: Memory,
    requireClosed: bool): Option<Snapshot> {
    var events := Decoded(c, journal);
    var closure := if closed.Some? then ReadClosure(c, closed.value) else None;
    if memory.failed || events.None? then None
    else if memory.prepared.Some? && memory.prepared.value != events.value[0].digest then None
    else if closed.Some? && (closure.None? || !Binds(closure.value, events.value)) then None
    else if memory.committed.Some? && (closure.None? || c.shaClosure(closure.value) != memory.committed.value) then None
    else if requireClosed && closed.None? then None
    else Some(Snapshot(events.value, ObservedOutcome(events.value), closure,
      Verdict(closure, ObservedOutcome(events.value))))
  }

  lemma PermittedMeans(c: Codec, events: seq<Event>)
    requires Chain(c, events)
    ensures Permitted(events) <==> 2 <= |events|
  {
    ChainKinds(c, events);
    if 2 <= |events| {
      assert events[1].body.kind == DispatchPermitted;
    }
  }

  /** A closure this code writes is one its inspection accepts. */
  lemma ClosureBinds(c: Codec, events: seq<Event>, reason: ClosureReason)
    requires c.Lawful() && c.LawfulClosures() && Chain(c, events) && MayClose(events, reason)
    ensures var x := ClosureFor(events, reason);
            Binds(x, events) && ReadClosure(c, c.dumpsClosure(x)) == Some(x)
  {
    PermittedMeans(c, events);
    assert EventOk(c, events, 0) && EventOk(c, events, |events| - 1);
    assert ClosureFor(events, reason).Bounded();
  }

  /** The outcome a chain carries is that of its fifth event. */
  lemma OutcomeIsLast(c: Codec, events: seq<Event>)
    requires Chain(c, events)
    ensures ObservedOutcome(events)
            == if |events| == 5 && events[4].body.data.Observed? then Some(events[4].body.data.outcome) else None
    ensures |events| == 5 ==> events[4].body.kind == OutcomeObserved && events[4].body.data.Observed?
  {
    ChainKinds(c, events);
    assert |events| == 5 ==> EventOk(c, events, 4);
    ghost var i := 0;
    while i < |events| && i < 4
      invariant 0 <= i <= |events| && i <= 4 && ObservedOutcome(events) == ObservedOutcome(events[i..])
    {
      assert events[i..][1..] == events[i + 1..] && events[i..][0] == events[i];
      i := i + 1;
    }
    if i < |events| {
      assert events[4..][0] == events[4];
    }
  }

  /** A closure pins its journal: two journals that inspect with the same closure text hold
      the same events, or a hash collision. */
  lemma ClosurePins(c: Codec, x: string, y: string, text: string, m: Memory, n: Memory)
    requires Inspected(c, x, Some(text), m, true).Some? && Inspected(c, y, Some(text), n, true).Some?
    ensures Decoded(c, x).Some? && Decoded(c, y).Some?
    ensures Decoded(c, x) == Decoded(c, y) || Collision(c, Decoded(c, x).value, Decoded(c, y).value)
  {
    ChainIntegrity(c, x, y);
  }

  /** What an object remembers pins what it accepts: the preparation it made and the closure
      it wrote, or a hash collision. */
  lemma MemoryPins(c: Codec, events: seq<Event>, x: Closure, journal: string, closed: Option<string>,
    requireClosed: bool)
    requires Chain(c, events)
    requires Inspected(c, journal, closed, Memory(false, Some(events[0].digest), Some(c.shaClosure(x))),
             requireClosed).Some?
    ensures Decoded(c, journal).Some?
    ensures var first := Decoded(c, journal).value[0];
            first == events[0] || (first.body != events[0].body && c.sha(first.body) == c.sha(events[0].body))
    ensures closed.Some? && ReadClosure(c, closed.value).Some?
    ensures var read := ReadClosure(c, closed.value).value; read == x || c.shaClosure(read) == c.shaClosure(x)
  {
    assert EventOk(c, events, 0) && EventOk(c, Decoded(c, journal).value, 0);
  }

  /** A recorded permission rules out "safe", whatever stands in the closure file. */
  lemma PermittedNeverSafe(c: Codec, journal: string, closed: Option<string>, memory: Memory, requireClosed: bool)
    requires Decoded(c, journal).Some? ==> 2 <= |Decoded(c, journal).value|
    ensures var r := Inspected(c, journal, closed, memory, requireClosed);
            r.Some? ==> r.value.safety != SafeNotDispatched
  {
  }

  // --------------------------------------------------------------------- files

  class File {
    var data: string
    var synced: string
    var turn: nat
    const writes: nat -> WriteAnswer
    const syncs: nat -> bool

    constructor (writes: nat -> WriteAnswer, syncs: nat -> bool)
      ensures data == synced == "" && this.writes == writes && this.syncs == syncs
    {
      data, synced, turn := "", "", 0;
      this.writes, this.syncs := writes, syncs;
    }

    /** A file that takes something of every write and completes every sync. */
    ghost predicate Willing() {
      forall n :: writes(n).Accepted? && 0 < writes(n).count && syncs(n)
    }

    /** At most what was asked is taken; a refusal or an empty write is failure. */
    method Write(chunk: string) returns (count: nat)
      modifies this
      ensures Willing() && chunk != [] ==> 0 < count
      ensures count <= |chunk| && data == old(data) + chunk[..count] && synced == old(synced)
    {
      count := match writes(turn) case Accepted(n) => if n <= |chunk| then n else |chunk| case Refused => 0;
      data, turn := data + chunk[..count], turn + 1;
    }

    method Sync() returns (ok: bool)
      modifies this
      ensures Willing() ==> ok
      ensures data == old(data) && synced == if ok then data else old(synced)
    {
      ok := syncs(turn);
      synced, turn := if ok then data else synced, turn + 1;
    }
  }

  /** What an append leaves: all of it and safe, or some of it and nothing newly safe. */
  predicate Grown(before: string, safe: string, chunk: string, after: string, safeAfter: string, ok: bool) {
    if ok then after == safeAfter == before + chunk
    else before <= after <= before + chunk && safeAfter == safe
  }

  method WriteAll(file: File, chunk: string) returns (ok: bool)
    modifies file
    ensures Grown(old(file.data), old(file.synced), chunk, file.data, file.synced, ok)
    ensures file.Willing() ==> ok
  {
    var rest := chunk;
    while rest != []
      invariant file.data + rest == old(file.data) + chunk && |old(file.data)| <= |file.data|
                && file.synced == old(file.synced)
      decreases |rest|
    {
      var count := file.Write(rest);
      assert rest == rest[..count] + rest[count..];
      rest := rest[count..];
      if count == 0 {
        assert file.data <= old(file.data) + chunk;
        return false;
      }
    }
    assert file.data == old(file.data) + chunk;
    ok := file.Sync();
  }

  // ------------------------------------------------------------------- writers

  class JournalWriter {
    const file: File
    const attemptId: string

    constructor (file: File, attemptId: string)
      ensures this.file == file && this.attemptId == attemptId
    {
      this.file, this.attemptId := file, attemptId;
    }

    /** Nothing is written unless the extended journal would decode. */
    method Append(c: Codec, kind: Kind, data: Payload, stamp: Stamp) returns (ok: bool)
      modifies file
      ensures !MayAppend(c, old(file.data), attemptId, kind, data, stamp)
              ==> !ok && file.data == old(file.data) && file.synced == old(file.synced)
      ensures MayAppend(c, old(file.data), attemptId, kind, data, stamp)
              ==> Grown(old(file.data), old(file.synced),
                        c.Frame(NextEvent(c, Decoded(c, old(file.data)).value, attemptId, kind, data, stamp)),
                        file.data, file.synced, ok)
      ensures MayAppend(c, old(file.data), attemptId, kind, data, stamp) && file.Willing() ==> ok
    {
      var events := Decode(c, file.data);
      if events.None? || events.value[0].body.attemptId != attemptId { return false; }
      var frame := c.Frame(NextEvent(c, events.value, attemptId, kind, data, stamp));
      var extended := Decode(c, file.data + frame);
      if extended.None? { return false; }
      ok := WriteAll(file, frame);
    }
  }

  class AttemptJournal {
    const journal: File
    var closed: Option<File>
    var isOwner: bool
    var permissionGranted: bool
    var persistenceFailed: bool
    var preparedDigest: Option<Digest>
    var closureDigest: Option<Digest>

    function Recalls(): Memory
      reads this
    {
      Memory(persistenceFailed, preparedDigest, closureDigest)
    }

    function ClosedText(): Option<string>
      reads this, if closed.Some? then {closed.value} else {}
    {
      if closed.Some? then Some(closed.value.data) else None
    }

    predicate Distinct()
      reads this
    {
      closed.Some? ==> closed.value != journal
    }

    /** An object rebuilt from the path of existing evidence: inspection only. */
    constructor Rebuild(journal: File, closed: Option<File>)
      ensures this.journal == journal && this.closed == closed && !isOwner && !permissionGranted
      ensures Recalls() == REBUILT
    {
      this.journal, this.closed := journal, closed;
      isOwner, permissionGranted, persistenceFailed := false, false, false;
      preparedDigest, closureDigest := None, None;
    }

    /** `create`: nothing is written unless the role has no attempt yet (`taken`) and every
        earlier attempt of the run, rebuilt from its path, inspects as closed under another
        id; then the object owns a one-event journal that an fsync has made safe. */
    static method Create(c: Codec, file: File, taken: bool, earlier: seq<AttemptJournal>, id: string,
      binding: Binding, stamp: Stamp)
      returns (r: Option<AttemptJournal>)
      requires file.data == "" && file.synced == ""
      modifies file
      ensures r.Some? ==> c.validBinding(binding) && !taken && old(Free(c, earlier, id))
      ensures !c.validBinding(binding) || taken || !old(Free(c, earlier, id)) ==> file.data == "" && file.synced == ""
      ensures c.validBinding(binding) && !taken && old(Free(c, earlier, id)) && file.Willing() ==> r.Some?
      ensures r.Some? ==>
        && fresh(r.value) && r.value.journal == file && r.value.closed.None? && r.value.isOwner
        && file.data == file.synced == Encode(c, [FirstEvent(c, id, binding, stamp)])
        && r.value.Recalls() == Memory(false, Some(FirstEvent(c, id, binding, stamp).digest), None)
        && !r.value.permissionGranted
    {
      if !c.validBinding(binding) || taken { return None; }
      var free := AllClosed(c, earlier, id);
      if !free { return None; }
      var e := FirstEvent(c, id, binding, stamp);
      var ok := WriteAll(file, c.Frame(e));
      if !ok { return None; }
      var attempt := new AttemptJournal.Rebuild(file, None);
      attempt.isOwner, attempt.preparedDigest := true, Some(e.digest);
      EncodeSnoc(c, [], e);
      assert [] + [e] == [e];
      r := Some(attempt);
    }

    static method AllClosed(c: Codec, earlier: seq<AttemptJournal>, id: string) returns (ok: bool)
      ensures ok <==> Free(c, earlier, id)
    {
      for i := 0 to |earlier|
        invariant forall k :: 0 <= k < i ==> earlier[k].ClosedUnder(c, id)
      {
        var snapshot := earlier[i].Inspect(c, true);
        if snapshot.None? || snapshot.value.events[0].body.attemptId == id { return false; }
      }
      ok := true;
    }

    /** An attempt that inspects as closed, under another id. */
    predicate ClosedUnder(c: Codec, id: string)
      reads this, journal, if closed.Some? then {closed.value} else {}
    {
      var snapshot := Inspected(c, journal.data, ClosedText(), Recalls(), true);
      snapshot.Some? && snapshot.value.events[0].body.attemptId != id
    }

    static predicate Free(c: Codec, earlier: seq<AttemptJournal>, id: string)
      reads set o | o in earlier, set o | o in earlier :: o.journal
      reads set o | o in earlier && o.closed.Some? :: o.closed.value
    {
      forall i :: 0 <= i < |earlier| ==> earlier[i].ClosedUnder(c, id)
    }

    /** The checks of `open_writer`. */
    predicate MayOpen(c: Codec)
      reads this, journal
    {
      && isOwner && !persistenceFailed && closed.None? && Decoded(c, journal.data).Some?
      && preparedDigest == Some(Decoded(c, journal.data).value[0].digest)
    }

    method OpenWriter(c: Codec) returns (w: Option<JournalWriter>)
      ensures w.Some? <==> MayOpen(c)
      ensures w.Some? ==> fresh(w.value) && w.value.file == journal
                          && w.value.attemptId == Decoded(c, journal.data).value[0].body.attemptId
    {
      if !isOwner || persistenceFailed || closed.Some? { return None; }
      var events := Decode(c, journal.data);
      if events.None? || preparedDigest != Some(events.value[0].digest) { return None; }
      var writer := new JournalWriter(journal, events.value[0].body.attemptId);
      w := Some(writer);
    }

    /** Permission is granted exactly when its record is known to be safe. A failure after
        the writer opened retires the object. */
    method Permit(c: Codec, timeout: int, stamp: Stamp) returns (ok: bool)
      modifies this, journal
      ensures closed == old(closed) && isOwner == old(isOwner) && preparedDigest == old(preparedDigest)
              && closureDigest == old(closureDigest)
      ensures ok ==> permissionGranted && old(MayOpen(c)) && journal.synced == journal.data
      ensures !ok ==> permissionGranted == old(permissionGranted)
      ensures persistenceFailed == (old(persistenceFailed) || (old(MayOpen(c)) && !ok))
      ensures var before := Decoded(c, old(journal.data));
              var may := old(MayOpen(c))
                && MayAppend(c, old(journal.data), before.value[0].body.attemptId, DispatchPermitted, Grant(timeout),
                  stamp);
              if may then Grown(old(journal.data), old(journal.synced),
                                c.Frame(NextEvent(c, before.value, before.value[0].body.attemptId, DispatchPermitted,
                                  Grant(timeout), stamp)),
                                journal.data, journal.synced, ok)
              else !ok && journal.data == old(journal.data) && journal.synced == old(journal.synced)
      ensures journal.Willing() && old(MayOpen(c))
              && MayAppend(c, old(journal.data), Decoded(c, old(journal.data)).value[0].body.attemptId,
                   DispatchPermitted, Grant(timeout), stamp)
              ==> ok
    {
      var writer := OpenWriter(c);
      if writer.None? { return false; }
      ok := writer.value.Append(c, DispatchPermitted, Grant(timeout), stamp);
      if ok {
        permissionGranted := true;
      } else {
        persistenceFailed := true;
      }
    }

    /** The checks of `close` before anything is synced or written. */
    predicate MayCloseNow(c: Codec, reason: ClosureReason, workerReaped: bool)
      reads this, journal
    {
      && isOwner && !persistenceFailed && workerReaped && Decoded(c, journal.data).Some?
      && preparedDigest == Some(Decoded(c, journal.data).value[0].digest)
      && MayClose(Decoded(c, journal.data).value, reason)
    }

    /** The closure file holds the start of a closure of the journal as it stands, and the
        journal was made safe first. */
    ghost predicate Published(c: Codec, file: File, reason: ClosureReason)
      reads this`closed, journal, file
    {
      && closed == Some(file) && journal.synced == journal.data
      && Decoded(c, journal.data).Some? && MayClose(Decoded(c, journal.data).value, reason)
      && file.data <= c.dumpsClosure(ClosureFor(Decoded(c, journal.data).value, reason))
    }

    ghost predicate Whole(c: Codec, file: File, reason: ClosureReason)
      reads this`closed, journal, file
    {
      Published(c, file, reason)
      && file.synced == file.data == c.dumpsClosure(ClosureFor(Decoded(c, journal.data).value, reason))
    }

    /** Closing never rewrites an existing closure, writes nothing before the journal is
        safe again, and succeeds only with the whole closure safe. The file's last answer
        is its directory's. */
    method Close(c: Codec, reason: ClosureReason, workerReaped: bool, file: File) returns (ok: bool)
      requires file != journal && (closed == Some(file) || (file.data == "" && file.synced == ""))
      modifies this, journal, file
      ensures journal.data == old(journal.data)
      ensures journal.synced == old(journal.synced) || journal.synced == journal.data
      ensures isOwner == old(isOwner) && preparedDigest == old(preparedDigest)
              && permissionGranted == old(permissionGranted)
      ensures !old(MayCloseNow(c, reason, workerReaped))
              ==> !ok && journal.synced == old(journal.synced) && Recalls() == old(Recalls())
      ensures closed != old(closed)
              ==> old(closed).None? && old(MayCloseNow(c, reason, workerReaped)) && Published(c, file, reason)
      ensures closed == old(closed) ==> !ok && file.data == old(file.data) && file.synced == old(file.synced)
      ensures closed != old(closed) ==>
                || file.synced == ""
                || file.synced == file.data == c.dumpsClosure(ClosureFor(Decoded(c, journal.data).value, reason))
      ensures ok ==> Whole(c, file, reason) && !persistenceFailed
      ensures ok ==> closureDigest == Some(c.shaClosure(ClosureFor(Decoded(c, journal.data).value, reason)))
      ensures !ok ==> closureDigest == old(closureDigest)
      ensures !ok ==> persistenceFailed || old(closed).Some? || !old(MayCloseNow(c, reason, workerReaped))
      ensures journal.Willing() && file.Willing() && old(closed).None? && old(MayCloseNow(c, reason, workerReaped))
              ==> ok
    {
      if !isOwner || persistenceFailed { return false; }
      var events := Decode(c, journal.data);
      if events.None? || preparedDigest != Some(events.value[0].digest)
         || !MayClose(events.value, reason) || !workerReaped { return false; }
      var synced := journal.Sync();
      if !synced {
        persistenceFailed := true;
        return false;
      }
      if closed.Some? { return false; }
      var closure := ClosureFor(events.value, reason);
      closed := Some(file);
      ok := WriteAll(file, c.dumpsClosure(closure));
      if ok {
        ok := file.Sync();
      }
      if ok {
        closureDigest := Some(c.shaClosure(closure));
      } else {
        persistenceFailed := true;
      }
    }

    method Inspect(c: Codec, requireClosed: bool) returns (r: Option<Snapshot>)
      ensures r == Inspected(c, journal.data, ClosedText(), Recalls(), requireClosed)
    {
      if persistenceFailed { return None; }
      var decoded := Decode(c, journal.data);
      if decoded.None? { return None; }
      var events := decoded.value;
      if preparedDigest.Some? && events[0].digest != preparedDigest.value { return None; }
      var closure: Option<Closure> := None;
      if closed.Some? {
        closure := ReadClosure(c, closed.value.data);
        if closure.None? || !Binds(closure.value, events) { return None; }
      }
      if closureDigest.Some? && (closure.None? || c.shaClosure(closure.value) != closureDigest.value) { return None; }
      if requireClosed && closed.None? { return None; }
      r := Some(Snapshot(events, ObservedOutcome(events), closure, Verdict(closure, ObservedOutcome(events))));
    }
  }

  function FirstEvent(c: Codec, id: string, binding: Binding, stamp: Stamp): Event {
    var body := Body(c.schema, id, 0, None, AttemptPrepared, Prepared(binding), stamp);
    Event(body, c.sha(body))
  }

  lemma FirstEventChain(c: Codec, id: string, binding: Binding, stamp: Stamp)
    requires c.validBinding(binding) && |id| == 32 && IsHex(id) && c.zoned(stamp.observedAt) && -1 <= stamp.monotonic
    ensures Chain(c, [FirstEvent(c, id, binding, stamp)])
  {
    assert EventOk(c, [FirstEvent(c, id, binding, stamp)], 0);
  }
}
