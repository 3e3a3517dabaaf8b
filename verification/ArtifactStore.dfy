/** The store's methods over its mutable fields, each proved to have exactly the effects
    its inputs call for, and the transaction that ends in a seal. */
module ArtifactStores {
  import opened Wrappers
  import opened Roles
  import opened Manifest
  import opened Store
  import Utf8
  import RawEvidence

  datatype StoreError = Governance | Late | Unencodable

  predicate NoRepeat(names: seq<Name>) {
    forall i, j :: 0 <= i < j < |names| ==> names[i] != names[j]
  }

  /** Those of the first `n` names that are staged, in order. */
  function Pick(names: seq<Name>, n: nat, staging: map<Name, Octets>): (r: seq<Name>)
    requires n <= |names|
    ensures forall i :: 0 <= i < |r| ==> r[i] in staging && r[i] in names
  {
    if n == 0 then []
    else if names[n - 1] in staging then Pick(names, n - 1, staging) + [names[n - 1]]
    else Pick(names, n - 1, staging)
  }

  /** The staged names in the order their files sort. */
  function StagedNames(role: Role, staging: map<Name, Octets>): (r: seq<Name>)
    ensures forall i :: 0 <= i < |r| ==> r[i] in staging && r[i] in Order(role)
  {
    Pick(Order(role), |Order(role)|, staging)
  }

  /** Place the file, trust its hash, list it. */
  function Promoted(cfg: Config, name: Name, data: Octets, past: Touches): Touches {
    And(And(And(past, Place(name, data)), Trust(name, cfg.sha(data))), ListModel(name, cfg.sha(data), |data|))
  }

  /** Promoting the first `n` names. */
  function Promotions(cfg: Config, staging: map<Name, Octets>, names: seq<Name>, n: nat): Touches
    requires n <= |names| && forall i :: 0 <= i < |names| ==> names[i] in staging
  {
    if n == 0 then Nothing
    else Promoted(cfg, names[n - 1], staging[names[n - 1]], Promotions(cfg, staging, names, n - 1))
  }

  /** The first name, from index `n` on, that has a file already. */
  function Taken(names: seq<Name>, files: map<Name, Octets>, n: nat): (r: nat)
    requires n <= |names|
    ensures n <= r <= |names|
    decreases |names| - n
  {
    if n == |names| || names[n] in files then n else Taken(names, files, n + 1)
  }

  predicate Commits(cfg: Config, role: Role, r: RoleState) {
    var names := StagedNames(role, r.disk.staging);
    role in Workflow(cfg.condition) && !r.memory.sealed && names != [] && Taken(names, r.disk.files, 0) == |names|
  }

  /** What a commit does, also when it stops at a file that exists. */
  function Committing(cfg: Config, role: Role, r: RoleState): Touches {
    var names := StagedNames(role, r.disk.staging);
    var done := Taken(names, r.disk.files, 0);
    if role !in Workflow(cfg.condition) || r.memory.sealed || names == [] then Nothing
    else if done < |names| then Promotions(cfg, r.disk.staging, names, done)
    else And(Promotions(cfg, r.disk.staging, names, done), Unstage)
  }

  /** The attempt's directory, and the raw text if there is one, written and then listed. */
  function RawRecorded(cfg: Config, role: Role, attempt: nat, ev: RawEvidence.Evidence): Touches {
    var begun := And(Nothing, OpenAttempt(attempt));
    if ev.Absent? then begun
    else
      var data := Utf8.Encode(ev.text);
      And(And(begun, PutEvidence(Slot(attempt, true), data, cfg.sha(data))),
          ListEvidence(Raw(role, attempt, cfg.sha(data), |data|, ev.truncated, ev.storedBytes, ev.observed)))
  }

  /** And then the record. */
  function Recorded(cfg: Config, role: Role, ev: RawEvidence.Evidence, record: Record): Touches {
    MetaAfter(cfg, role, record, RawRecorded(cfg, role, record.attempt, ev))
  }

  function SealFor(cfg: Config, role: Role, es: Entries, expectedAttempts: nat): Seal {
    var artifacts, invocations := Models(es), Invocations(es);
    Seal(role, artifacts, invocations, expectedAttempts, cfg.sealDigest(artifacts, invocations, expectedAttempts))
  }

  function Sealing(cfg: Config, role: Role, es: Entries, expectedAttempts: nat): Touches {
    And(And(Nothing, PutSeal(SealFor(cfg, role, es, expectedAttempts))), MarkSealed)
  }

  predicate Records(cfg: Config, role: Role, attempt: nat, r: RoleState) {
    role in Workflow(cfg.condition) && 1 <= attempt && attempt !in r.disk.attempts
  }

  predicate MaySeal(cfg: Config, s: State, role: Role, expectedAttempts: nat)
    requires s.Total()
  {
    && role in Workflow(cfg.condition) && Distinct(Models(s.List(role))) && Keys(s.List(role)) == ExpectedKeys(role)
    && Sorted(Attempts(s.List(role))) == Upto(expectedAttempts)
  }

  /** A call of the store, refused or not. */
  datatype Call =
    | Write(role: Role, name: Name, content: Text)
    | Commit(role: Role)
    | Note(role: Role, attempt: nat, record: Record, raw: Option<Text>)
    | SealUp(role: Role, expectedAttempts: nat, late: bool)
    | Abort(role: Role)

  predicate Writes(cfg: Config, role: Role, r: RoleState, name: Name, content: Text) {
    role in Workflow(cfg.condition) && !r.memory.sealed && name in Order(role) && Utf8.AllScalar(content)
      && name !in r.disk.staging
  }

  /** What recording an attempt does, also when it is refused part-way. */
  function Noting(cfg: Config, role: Role, attempt: nat, record: Record, raw: Option<Text>, r: RoleState): Touches {
    if !Records(cfg, role, attempt, r) then Nothing
    else match RawEvidence.Bounded(cfg.markers, raw, cfg.limit)
      case Err(_) => And(Nothing, OpenAttempt(attempt))
      case Ok(ev) =>
        if record.role != role || record.attempt != attempt then RawRecorded(cfg, role, attempt, ev)
        else Recorded(cfg, role, ev, record)
  }

  function Effects(cfg: Config, s: State, call: Call): Touches
    requires s.Total()
  {
    match call
    case Write(role, name, content) =>
      if Writes(cfg, role, s.At(role), name, content) then And(Nothing, Stage(name, Utf8.Encode(content))) else Nothing
    case Commit(role) => Committing(cfg, role, s.At(role))
    case Note(role, attempt, record, raw) => Noting(cfg, role, attempt, record, raw, s.At(role))
    case SealUp(role, n, late) => if MaySeal(cfg, s, role, n)
      && !late then Sealing(cfg, role, s.List(role), n) else Nothing
    case Abort(_) => Nothing
  }

  function Called(cfg: Config, s: State, call: Call): (r: State)
    requires s.Total()
    ensures r.Total()
  {
    if call.Abort? then Aborted(s, call.role) else After(s, call.role, Effects(cfg, s, call))
  }

  class ArtifactStore {
    const cfg: Config
    var roles: map<Role, RoleState>
    var manifest: Entries

    constructor (cfg: Config)
      ensures this.cfg == cfg && manifest == Blank && (forall r: Role :: r in roles && roles[r] == EMPTY)
    {
      this.cfg := cfg;
      roles := map[Solver := EMPTY, Verifier := EMPTY, Reviser := EMPTY, Draft := EMPTY, SelfReview := EMPTY];
      manifest := Blank;
      new;
      forall r: Role ensures r in roles && roles[r] == EMPTY {
        match r
        case Solver => case Verifier => case Reviser => case Draft => case SelfReview =>
      }
    }

    function Now(): State
      reads this
    {
      State(roles, manifest)
    }

    method Touch(role: Role, t: Touch)
      requires Now().Total()
      modifies this
      ensures Now() == Touched(old(Now()), role, t)
    {
      var s := Touched(Now(), role, t);
      roles, manifest := s.roles, s.manifest;
    }

    method WriteStaged(role: Role, name: Name, content: Text) returns (error: Option<StoreError>)
      requires Now().Total()
      modifies this
      ensures error.None? <==> role in Workflow(cfg.condition) && !old(roles)[role].memory.sealed && name in Order(role)
                               && Utf8.AllScalar(content) && name !in old(roles)[role].disk.staging
      ensures Now() == if error.None? then Touched(old(Now()), role, Stage(name, Utf8.Encode(content))) else old(Now())
      ensures Now() == Called(cfg, old(Now()), Write(role, name, content))
    {
      if role !in Workflow(cfg.condition) || roles[role].memory.sealed
        || name !in Order(role) { return Some(Governance); }
      if !Utf8.AllScalar(content) { return Some(Unencodable); }
      if name in roles[role].disk.staging { return Some(Governance); }
      AfterOne(Now(), role, Stage(name, Utf8.Encode(content)));
      Touch(role, Stage(name, Utf8.Encode(content)));
      error := None;
    }

    /** Promote the staged files in order, stopping at the first that is already there. */
    method CommitStaged(role: Role) returns (error: Option<StoreError>)
      requires Now().Total()
      modifies this
      ensures error.None? <==> Commits(cfg, role, old(Now()).At(role))
      ensures Now() == After(old(Now()), role, Committing(cfg, role, old(Now()).At(role)))
      ensures Now() == Called(cfg, old(Now()), Commit(role))
    {
      if role !in Workflow(cfg.condition) || roles[role].memory.sealed { return Some(Governance); }
      var staging := roles[role].disk.staging;
      var names := StagedNames(role, staging);
      if names == [] { return Some(Governance); }
      var done := PromoteAll(role, staging, names);
      if done < |names| { return Some(Governance); }
      Touch(role, Unstage);
      error := None;
    }

    method PromoteAll(role: Role, staging: map<Name, Octets>, names: seq<Name>) returns (done: nat)
      requires Now().Total() && names == StagedNames(role, staging)
      modifies this
      ensures done == Taken(names, old(Now()).At(role).disk.files, 0)
      ensures Now().Total() && Now() == After(old(Now()), role, Promotions(cfg, staging, names, done))
    {
      ghost var s := Now();
      ghost var files := s.At(role).disk.files;
      done := 0;
      while done < |names|
        invariant done <= |names| && Taken(names, files, done) == Taken(names, files, 0)
        invariant Now().Total() && Now() == After(s, role, Promotions(cfg, staging, names, done))
      {
        var taken := PromoteNext(role, staging, names, done, s);
        if taken { break; }
        done := done + 1;
      }
    }

    method PromoteNext(role: Role, staging: map<Name, Octets>, names: seq<Name>, i: nat, ghost s: State)
      returns (taken: bool)
      requires i < |names| && names == StagedNames(role, staging)
      requires s.Total() && Now().Total() && Now() == After(s, role, Promotions(cfg, staging, names, i))
      modifies this
      ensures taken <==> names[i] in s.At(role).disk.files
      ensures Now().Total() && Now() == After(s, role, Promotions(cfg, staging, names, if taken then i else i + 1))
    {
      PickDistinct(Order(role), |Order(role)|, staging);
      assert names == Pick(Order(role), |Order(role)|, staging);
      PromotionsFile(cfg, s, role, staging, names, i, names[i]);
      taken := names[i] in roles[role].disk.files;
      if !taken {
        AfterPromotedIs(cfg, s, role, Promotions(cfg, staging, names, i), names[i], staging[names[i]]);
        PromoteOne(role, names[i], staging[names[i]]);
      }
    }

    method PutAndList(role: Role, e: Entry, data: Octets)
      requires Now().Total() && !e.Model?
      modifies this
      ensures Now() == Touched(Touched(old(Now()), role, PutEvidence(SlotOf(e), data, cfg.sha(data))), role,
              ListEvidence(e))
    {
      Touch(role, PutEvidence(SlotOf(e), data, cfg.sha(data)));
      Touch(role, ListEvidence(e));
    }

    /** Write-once evidence of one attempt. A text that cannot be encoded is refused after
        the attempt's directory exists; a record for another attempt after the raw text. */
    method RecordInvocation(role: Role, attempt: nat, record: Record, raw: Option<Text>)
      returns (error: Option<StoreError>)
      requires Now().Total()
      modifies this
      ensures error.None?
              <==> Records(cfg, role, attempt, old(Now()).At(role)) && record.role == role && record.attempt == attempt
                               && RawEvidence.Bounded(cfg.markers, raw, cfg.limit).Ok?
      ensures Now() == After(old(Now()), role, Noting(cfg, role, attempt, record, raw, old(Now()).At(role)))
      ensures Now() == Called(cfg, old(Now()), Note(role, attempt, record, raw))
    {
      if role !in Workflow(cfg.condition) || attempt < 1
        || attempt in roles[role].disk.attempts { return Some(Governance); }
      ghost var s := Now();
      Touch(role, OpenAttempt(attempt));
      var ev := RawEvidence.BoundRaw(cfg.markers, raw, cfg.limit);
      if ev.Err? { return Some(if ev.error.LimitNotPositive? then Governance else Unencodable); }
      RecordRaw(role, attempt, ev.value, s);
      if record.role != role || record.attempt != attempt { return Some(Governance); }
      var meta := cfg.render(record);
      AfterTwo(s, role, RawRecorded(cfg, role, attempt, ev.value),
        PutEvidence(Slot(attempt, false), meta, cfg.sha(meta)),
               ListEvidence(Meta(role, attempt, cfg.sha(meta), |meta|)));
      PutAndList(role, Meta(role, attempt, cfg.sha(meta), |meta|), meta);
      error := None;
    }

    method RecordRaw(role: Role, attempt: nat, ev: RawEvidence.Evidence, ghost s: State)
      requires s.Total() && Now().Total() && Now() == Touched(s, role, OpenAttempt(attempt))
      modifies this
      ensures Now().Total() && Now() == After(s, role, RawRecorded(cfg, role, attempt, ev))
    {
      if ev.Present? {
        var data := Utf8.Encode(ev.text);
        var e := Raw(role, attempt, cfg.sha(data), |data|, ev.truncated, ev.storedBytes, ev.observed);
        AfterTwo(s, role, And(Nothing, OpenAttempt(attempt)), PutEvidence(Slot(attempt, true), data, cfg.sha(data)),
          ListEvidence(e));
        PutAndList(role, e, data);
      }
    }

    /** The seal binds the listed artifacts and evidence; the deadline is looked at between
        the checks and the write. */
    method SealStage(role: Role, expectedAttempts: nat, late: bool) returns (error: Option<StoreError>)
      requires Now().Total()
      modifies this
      ensures error.None? <==> MaySeal(cfg, old(Now()), role, expectedAttempts) && !late
      ensures error == Some(Late) <==> MaySeal(cfg, old(Now()), role, expectedAttempts) && late
      ensures Now() == After(old(Now()), role,
                if error.None? then Sealing(cfg, role, old(Now()).List(role), expectedAttempts) else Nothing)
      ensures Now() == Called(cfg, old(Now()), SealUp(role, expectedAttempts, late))
    {
      if !MaySeal(cfg, Now(), role, expectedAttempts) { return Some(Governance); }
      if late { return Some(Late); }
      var seal := SealFor(cfg, role, Of(manifest, role), expectedAttempts);
      AfterTwo(Now(), role, Nothing, PutSeal(seal), MarkSealed);
      Touch(role, PutSeal(seal));
      Touch(role, MarkSealed);
      error := None;
    }

    method AbortUncommittedStage(role: Role)
      requires Now().Total()
      modifies this
      ensures Now() == Aborted(old(Now()), role) == Called(cfg, old(Now()), Abort(role))
    {
      var s := Aborted(Now(), role);
      roles, manifest := s.roles, s.manifest;
    }

    method PromoteOne(role: Role, name: Name, data: Octets)
      requires Now().Total()
      modifies this
      ensures Now() == PromotedIn(cfg, old(Now()), role, name, data)
    {
      Touch(role, Place(name, data));
      Touch(role, Trust(name, cfg.sha(data)));
      Touch(role, ListModel(name, cfg.sha(data), |data|));
    }
  }

  lemma AfterOne(s: State, role: Role, t: Touch)
    requires s.Total()
    ensures After(s, role, And(Nothing, t)) == Touched(s, role, t)
  {
    assert After(s, role, Nothing) == s;
  }

  lemma AfterTwo(s: State, role: Role, past: Touches, t: Touch, u: Touch)
    requires s.Total()
    ensures After(s, role, And(And(past, t), u)) == Touched(Touched(After(s, role, past), role, t), role, u)
  {
    assert After(s, role, And(past, t)) == Touched(After(s, role, past), role, t);
  }

  // ---------------------------------------------------------------- evidence

  /** The evidence files are exactly those the manifest lists, each as it says. */
  predicate EvidenceSound(cfg: Config, s: State)
    requires s.Total()
  {
    forall role: Role :: EvidenceOf(cfg, s, role)
  }

  predicate EvidenceOf(cfg: Config, s: State, role: Role)
    requires s.Total()
  {
    && EvidenceOk(cfg, role, s.roles[role], s.List(role))
    && forall slot :: slot in s.roles[role].disk.evidence ==> (role, slot) in Slots(s.List(role))
  }

  /** Adding a file for a slot no entry speaks of changes nothing about the entries. */
  lemma {:induction false} EvidenceWider(cfg: Config, role: Role, r: RoleState, es: Entries, slot: Slot, data: Octets)
    requires EvidenceOk(cfg, role, r, es) && (role, slot) !in Slots(es)
    ensures EvidenceOk(cfg, role, RoleTouched(r, PutEvidence(slot, data, cfg.sha(data))), es)
  {
    if es.Append? {
      EvidenceWider(cfg, role, r, es.past, slot, data);
    }
  }

  lemma {:induction false} EvidenceSame(cfg: Config, role: Role, r: RoleState, v: RoleState, es: Entries)
    requires EvidenceOk(cfg, role, r, es) && v.disk.evidence == r.disk.evidence && v.memory.hashes == r.memory.hashes
    ensures EvidenceOk(cfg, role, v, es) && EvidenceOk(cfg, role, v, Invocations(es))
  {
    if es.Append? {
      EvidenceSame(cfg, role, r, v, es.past);
    }
  }

  /** One evidence file and its manifest line, together. */
  lemma EvidenceAdded(cfg: Config, s: State, role: Role, data: Octets, e: Entry)
    requires Sound(cfg, s) && EvidenceOf(cfg, s, role) && !e.Model? && e.role == role
    requires e.attempt in s.roles[role].disk.attempts && (role, SlotOf(e)) !in Slots(s.manifest)
    requires var put := PutEvidence(SlotOf(e), data, cfg.sha(data));
             EntryOk(cfg, role, RoleTouched(s.roles[role], put), e)
    ensures var put := PutEvidence(SlotOf(e), data, cfg.sha(data));
            var v := Touched(Touched(s, role, put), role, ListEvidence(e));
            && Sound(cfg, v) && EvidenceOf(cfg, v, role)
            && Allowed(cfg, s, role, put) && Allowed(cfg, Touched(s, role, put), role, ListEvidence(e))
  {
    var put := PutEvidence(SlotOf(e), data, cfg.sha(data));
    KeysFiltered(s.manifest, role);
    EvidenceWider(cfg, role, s.roles[role], s.List(role), SlotOf(e), data);
    SoundStep(cfg, s, role, put);
    SoundStep(cfg, Touched(s, role, put), role, ListEvidence(e));
  }

  /** Raw text the classifier will not mistake: absent, truncated or not marker-shaped. */
  ghost predicate Plain(cfg: Config, raw: Option<Text>) {
    raw.Some? && 0 < cfg.limit && Utf8.AllScalar(raw.value) && |Utf8.Encode(raw.value)| <= cfg.limit
    ==> !RawEvidence.MarkerShaped(cfg.markers, Utf8.Encode(raw.value))
  }

  lemma OpenKeeps(cfg: Config, s: State, role: Role, n: nat)
    requires Sound(cfg, s) && EvidenceOf(cfg, s, role) && n !in s.At(role).disk.attempts
    ensures var v := Touched(s, role, OpenAttempt(n));
            && Sound(cfg, v) && EvidenceOf(cfg, v, role) && v.manifest == s.manifest && n in v.At(role).disk.attempts
            && (role, Slot(n, true)) !in Slots(v.manifest) && (role, Slot(n, false)) !in Slots(v.manifest)
  {
    SoundStep(cfg, s, role, OpenAttempt(n));
    EvidenceSame(cfg, role, s.roles[role], Touched(s, role, OpenAttempt(n)).roles[role], s.List(role));
  }

  /** The same after any effects. */
  lemma EvidenceAfter(cfg: Config, s: State, role: Role, past: Touches, data: Octets, e: Entry)
    requires s.Total() && AllAllowed(cfg, s, role, past)
    requires var u := After(s, role, past);
             && Sound(cfg, u) && EvidenceOf(cfg, u, role) && !e.Model? && e.role == role
             && e.attempt in u.At(role).disk.attempts && (role, SlotOf(e)) !in Slots(u.manifest)
             && EntryOk(cfg, role, RoleTouched(u.At(role), PutEvidence(SlotOf(e), data, cfg.sha(data))), e)
    ensures var u, ts := After(s, role, past),
            And(And(past, PutEvidence(SlotOf(e), data, cfg.sha(data))), ListEvidence(e));
            var v := After(s, role, ts);
            && AllAllowed(cfg, s, role, ts) && Sound(cfg, v) && EvidenceOf(cfg, v, role)
            && v.manifest == Append(u.manifest, e) && v.At(role).disk.attempts == u.At(role).disk.attempts
  {
    var put := PutEvidence(SlotOf(e), data, cfg.sha(data));
    EvidenceAdded(cfg, After(s, role, past), role, data, e);
    AfterTwo(s, role, past, put, ListEvidence(e));
    assert After(s, role, And(past, put)) == Touched(After(s, role, past), role, put);
    assert AllAllowed(cfg, s, role, And(past, put));
  }

  lemma RawEntryOk(cfg: Config, role: Role, r: RoleState, n: nat, raw: Text)
    requires cfg.Lawful() && Plain(cfg, Some(raw)) && 1 <= n
             && RawEvidence.Bounded(cfg.markers, Some(raw), cfg.limit).Ok?
    ensures var ev := RawEvidence.Bounded(cfg.markers, Some(raw), cfg.limit).value;
            ev.Present? &&
            var data := Utf8.Encode(ev.text);
            EntryOk(cfg, role, RoleTouched(r, PutEvidence(Slot(n, true), data, cfg.sha(data))),
                    Raw(role, n, cfg.sha(data), |data|, ev.truncated, ev.storedBytes, ev.observed))
  {
    RawEvidence.BoundedVerifies(cfg.markers, raw, cfg.limit);
  }

  lemma RawKeeps(cfg: Config, s: State, role: Role, raw: Option<Text>, n: nat)
    requires cfg.Lawful() && Sound(cfg, s) && EvidenceOf(cfg, s, role) && Plain(cfg, raw)
    requires Records(cfg, role, n, s.At(role)) && RawEvidence.Bounded(cfg.markers, raw, cfg.limit).Ok?
    ensures RawDone(cfg, s, role, RawRecorded(cfg, role, n, RawEvidence.Bounded(cfg.markers, raw, cfg.limit).value), n)
  {
    var ev := RawEvidence.Bounded(cfg.markers, raw, cfg.limit).value;
    var begun := And(Nothing, OpenAttempt(n));
    OpenKeeps(cfg, s, role, n);
    assert After(s, role, begun) == Touched(s, role, OpenAttempt(n)) && AllAllowed(cfg, s, role, begun);
    if ev.Present? {
      RawEntryOk(cfg, role, After(s, role, begun).At(role), n, raw.value);
      var data := Utf8.Encode(ev.text);
      EvidenceAfter(cfg, s, role, begun, data,
        Raw(role, n, cfg.sha(data), |data|, ev.truncated, ev.storedBytes, ev.observed));
    }
  }

  /** What holds once the raw text of attempt `n` is in place. */
  predicate RawDone(cfg: Config, s: State, role: Role, ts: Touches, n: nat)
    requires s.Total()
  {
    var v := After(s, role, ts);
    && AllAllowed(cfg, s, role, ts) && Sound(cfg, v) && EvidenceOf(cfg, v, role)
    && Attempts(v.List(role)) == Attempts(s.List(role))
    && n in v.At(role).disk.attempts && (role, Slot(n, false)) !in Slots(v.manifest)
  }

  /** A recorded attempt leaves the evidence sound and adds exactly that attempt. */
  predicate RecordDone(cfg: Config, s: State, role: Role, ts: Touches, n: nat)
    requires s.Total()
  {
    var v := After(s, role, ts);
    && AllAllowed(cfg, s, role, ts) && Sound(cfg, v) && EvidenceOf(cfg, v, role)
    && Attempts(v.List(role)) == Attempts(s.List(role)) + [n]
  }

  function MetaAfter(cfg: Config, role: Role, record: Record, past: Touches): Touches {
    var meta := cfg.render(record);
    And(And(past, PutEvidence(Slot(record.attempt, false), meta, cfg.sha(meta))),
        ListEvidence(Meta(role, record.attempt, cfg.sha(meta), |meta|)))
  }

  lemma MetaKeeps(cfg: Config, s: State, role: Role, past: Touches, record: Record)
    requires cfg.Lawful() && s.Total() && RawDone(cfg, s, role, past, record.attempt) && record.role == role
             && 1 <= record.attempt
    ensures RecordDone(cfg, s, role, MetaAfter(cfg, role, record, past), record.attempt)
  {
    var meta := cfg.render(record);
    EvidenceAfter(cfg, s, role, past, meta, Meta(role, record.attempt, cfg.sha(meta), |meta|));
  }

  lemma RecordKeeps(cfg: Config, s: State, role: Role, raw: Option<Text>, record: Record)
    requires cfg.Lawful() && Sound(cfg, s) && EvidenceOf(cfg, s, role) && record.role == role && Plain(cfg, raw)
    requires Records(cfg, role, record.attempt, s.At(role)) && RawEvidence.Bounded(cfg.markers, raw, cfg.limit).Ok?
    ensures RecordDone(cfg, s, role,
            Recorded(cfg, role, RawEvidence.Bounded(cfg.markers, raw, cfg.limit).value, record), record.attempt)
  {
    var ev := RawEvidence.Bounded(cfg.markers, raw, cfg.limit).value;
    RawKeeps(cfg, s, role, raw, record.attempt);
    MetaKeeps(cfg, s, role, RawRecorded(cfg, role, record.attempt, ev), record);
  }

  /** Every expected artifact is on disk, listed and trusted with its hash. */
  predicate Committed(cfg: Config, role: Role, r: RoleState, es: Entries) {
    && Keys(es) == ExpectedKeys(role)
    && forall name :: name in Order(role) ==> Places(cfg, role, r, es, name)
  }

  predicate Places(cfg: Config, role: Role, r: RoleState, es: Entries, name: Name) {
    && name in r.disk.files
    && var data := r.disk.files[name];
    && Find(es, role, name) == Some(Model(role, name, cfg.sha(data), |data|))
    && name in r.memory.authoritative && r.memory.authoritative[name] == cfg.sha(data)
  }

  function WithSeal(r: RoleState, seal: Seal): RoleState {
    RoleState(r.disk.(seal := Some(seal)), r.memory.(sealed := true))
  }

  lemma SealOkFor(cfg: Config, role: Role, r: RoleState, es: Entries, n: nat)
    requires Distinct(es) && EvidenceOk(cfg, role, r, es)
    requires Committed(cfg, role, r, es) && Sorted(Attempts(es)) == Upto(n)
    ensures SealOk(cfg, role, WithSeal(r, SealFor(cfg, role, es, n)), es, true)
  {
    var seal := SealFor(cfg, role, es, n);
    var v := WithSeal(r, seal);
    OfDistinct(es, role);
    KeysFiltered(es, role);
    EvidenceSame(cfg, role, r, v, es);
    forall name | name in Order(role) ensures ArtifactOk(cfg, role, name, seal, es, v, true) {
      assert Places(cfg, role, r, es, name);
      FindFiltered2(es, role, name, Slot(0, false));
    }
    forall k | k in Slots(es) ensures FindSlot(seal.invocations, k.0, k.1) == FindSlot(es, k.0, k.1) {
      FindFiltered2(es, k.0, Candidate, k.1);
    }
  }

  /** Sealing what is committed, with evidence of exactly the expected attempts, makes a
      stage that verifies. */
  lemma SealVerifies(cfg: Config, s: State, role: Role, n: nat)
    requires Sound(cfg, s) && EvidenceOf(cfg, s, role) && role in Workflow(cfg.condition)
    requires Committed(cfg, role, s.roles[role], s.List(role)) && Sorted(Attempts(s.List(role))) == Upto(n)
    ensures MaySeal(cfg, s, role, n)
    ensures AllAllowed(cfg, s, role, Sealing(cfg, role, s.List(role), n))
    ensures VerifySealed(cfg, After(s, role, Sealing(cfg, role, s.List(role), n)), role)
  {
    var es := s.List(role);
    var seal := SealFor(cfg, role, es, n);
    OfDistinct(s.manifest, role);
    OfDistinct(es, role);
    SoundManifest(cfg, s);
    SealOkFor(cfg, role, s.roles[role], es, n);
    SealingIs(cfg, s, role, n);
  }

  lemma SealingIs(cfg: Config, s: State, role: Role, n: nat)
    requires s.Total()
    ensures var ts := Sealing(cfg, role, s.List(role), n);
            && AllAllowed(cfg, s, role, ts) && After(s, role, ts).manifest == s.manifest
            && After(s, role, ts).At(role) == WithSeal(s.At(role), SealFor(cfg, role, s.List(role), n))
  {
    var seal := SealFor(cfg, role, s.List(role), n);
    AfterTwo(s, role, Nothing, PutSeal(seal), MarkSealed);
    assert AllAllowed(cfg, s, role, And(Nothing, PutSeal(seal)));
  }

  lemma {:induction false} FindFiltered2(m: Entries, role: Role, name: Name, slot: Slot)
    ensures Find(Models(m), role, name) == Find(m, role, name)
    ensures FindSlot(Invocations(m), role, slot) == FindSlot(m, role, slot)
  {
    if m.Append? {
      FindFiltered2(m.past, role, name, slot);
    }
  }

  function PromotedIn(cfg: Config, s: State, role: Role, name: Name, data: Octets): (r: State)
    requires s.Total()
    ensures r.Total()
  {
    Touched(Touched(Touched(s, role, Place(name, data)), role, Trust(name, cfg.sha(data))), role,
      ListModel(name, cfg.sha(data), |data|))
  }

  lemma AfterPromotedIs(cfg: Config, s: State, role: Role, past: Touches, name: Name, data: Octets)
    requires s.Total()
    ensures After(s, role, Promoted(cfg, name, data, past)) == PromotedIn(cfg, After(s, role, past), role, name, data)
    ensures After(s, role, Promoted(cfg, name, data, past)).roles[role].disk.files == After(s, role,
            past).roles[role].disk.files[name := data]
  {
    var place, trust := Place(name, data), Trust(name, cfg.sha(data));
    assert After(s, role, And(past, place)) == Touched(After(s, role, past), role, place);
    assert After(s, role, And(And(past, place), trust)) == Touched(After(s, role, And(past, place)), role, trust);
  }

  lemma PromotedSound(cfg: Config, s: State, role: Role, name: Name, data: Octets)
    requires Sound(cfg, s) && role in Workflow(cfg.condition) && name in Order(role)
             && name !in s.roles[role].disk.files
    ensures Sound(cfg, PromotedIn(cfg, s, role, name, data))
    ensures PromotedIn(cfg, s, role, name, data).roles[role].disk.files == s.roles[role].disk.files[name := data]
    ensures var u := Touched(Touched(s, role, Place(name, data)), role, Trust(name, cfg.sha(data)));
            Allowed(cfg, u, role, ListModel(name, cfg.sha(data), |data|))
  {
    var place, trust := Place(name, data), Trust(name, cfg.sha(data));
    assert (role, name) !in Keys(s.manifest);
    SoundStep(cfg, s, role, place);
    SoundStep(cfg, Touched(s, role, place), role, trust);
    SoundStep(cfg, Touched(Touched(s, role, place), role, trust), role, ListModel(name, cfg.sha(data), |data|));
  }

  lemma AfterPromoted(cfg: Config, s: State, role: Role, past: Touches, name: Name, data: Octets)
    requires s.Total() && AllAllowed(cfg, s, role, past) && Sound(cfg, After(s, role, past))
    requires role in Workflow(cfg.condition) && name in Order(role)
             && name !in After(s, role, past).roles[role].disk.files
    ensures AllAllowed(cfg, s, role, Promoted(cfg, name, data, past))
    ensures After(s, role, Promoted(cfg, name, data, past)) == PromotedIn(cfg, After(s, role, past), role, name, data)
    ensures Sound(cfg, PromotedIn(cfg, After(s, role, past), role, name, data))
    ensures PromotedIn(cfg, After(s, role, past), role, name, data).roles[role].disk.files == After(s, role,
            past).roles[role].disk.files[name := data]
  {
    PromotedSound(cfg, After(s, role, past), role, name, data);
    AfterPromotedIs(cfg, s, role, past, name, data);
    var place, trust := And(past, Place(name, data)), And(And(past, Place(name, data)), Trust(name, cfg.sha(data)));
    assert AllAllowed(cfg, s, role, place);
    assert AllAllowed(cfg, s, role, trust);
  }

  lemma {:induction false} PromotionsFile(cfg: Config, s: State, role: Role, staging: map<Name, Octets>,
    names: seq<Name>, i: nat, n: Name)
    requires s.Total() && (forall k :: 0 <= k < |names| ==> names[k] in staging)
    requires i <= |names| && forall k :: 0 <= k < i ==> names[k] != n
    ensures var v := After(s, role, Promotions(cfg, staging, names, i));
            n in v.roles[role].disk.files <==> n in s.roles[role].disk.files
  {
    if i > 0 {
      PromotionsFile(cfg, s, role, staging, names, i - 1, n);
      AfterPromotedIs(cfg, s, role, Promotions(cfg, staging, names, i - 1), names[i - 1], staging[names[i - 1]]);
    }
  }

  /** Promoting new files is allowed throughout. */
  lemma {:induction false} AfterPromotions(cfg: Config, s: State, role: Role, staging: map<Name, Octets>,
    names: seq<Name>, i: nat)
    requires Sound(cfg, s) && role in Workflow(cfg.condition) && i <= |names|
    requires forall k :: 0 <= k < |names| ==> names[k] in staging && names[k] in Order(role)
    requires forall k :: 0 <= k < i ==> names[k] !in s.roles[role].disk.files
    requires NoRepeat(names)
    ensures AllAllowed(cfg, s, role, Promotions(cfg, staging, names, i))
    ensures Sound(cfg, After(s, role, Promotions(cfg, staging, names, i)))
  {
    if i > 0 {
      AfterPromotions(cfg, s, role, staging, names, i - 1);
      PromotionsFile(cfg, s, role, staging, names, i - 1, names[i - 1]);
      AfterPromoted(cfg, s, role, Promotions(cfg, staging, names, i - 1), names[i - 1], staging[names[i - 1]]);
    }
  }

  lemma {:induction false} PickMeans(names: seq<Name>, n: nat, staging: map<Name, Octets>, i: nat) returns (k: nat)
    requires n <= |names| && i < |Pick(names, n, staging)|
    ensures k < n && names[k] == Pick(names, n, staging)[i]
  {
    if i < |Pick(names, n - 1, staging)| {
      k := PickMeans(names, n - 1, staging, i);
    } else {
      k := n - 1;
    }
  }

  lemma {:induction false} PickDistinct(names: seq<Name>, n: nat, staging: map<Name, Octets>)
    requires n <= |names| && NoRepeat(names)
    ensures NoRepeat(Pick(names, n, staging))
  {
    if n > 0 {
      PickDistinct(names, n - 1, staging);
      var before := Pick(names, n - 1, staging);
      forall i | 0 <= i < |before| ensures before[i] != names[n - 1] {
        var k := PickMeans(names, n - 1, staging, i);
        assert names[k] != names[n - 1];
      }
    }
  }

  // -------------------------------------------------------- a complete commit

  lemma {:induction false} PickAll(names: seq<Name>, n: nat, staging: map<Name, Octets>)
    requires n <= |names| && forall i :: 0 <= i < |names| ==> names[i] in staging
    ensures Pick(names, n, staging) == names[..n]
  {
    if n > 0 {
      PickAll(names, n - 1, staging);
    }
  }

  lemma {:induction false} TakenNone(names: seq<Name>, files: map<Name, Octets>, n: nat)
    requires n <= |names| && files == map[]
    ensures Taken(names, files, n) == |names|
    decreases |names| - n
  {
    if n < |names| {
      TakenNone(names, files, n + 1);
    }
  }

  lemma PromotedEffect(cfg: Config, s: State, role: Role, name: Name, data: Octets)
    requires s.Total()
    ensures var r, v := s.At(role), PromotedIn(cfg, s, role, name, data);
            && v.At(role) == RoleState(r.disk.(files := r.disk.files[name := data]),
                                       r.memory.(authoritative := r.memory.authoritative[name := cfg.sha(data)]))
            && v.manifest == Append(s.manifest, Model(role, name, cfg.sha(data), |data|))
  {
  }

  /** What promoting the first `n` names of a role with nothing committed has done. */
  ghost predicate Promoting(cfg: Config, role: Role, before: RoleState, beforeList: Entries, v: RoleState, es: Entries,
                      names: seq<Name>, n: nat)
    requires n <= |names|
  {
    && v == before.(disk := before.disk.(files := v.disk.files),
      memory := before.memory.(authoritative := v.memory.authoritative))
    && (forall k :: k in Keys(es) <==> k.0 == role && k.1 in names[..n])
    && (forall i :: 0 <= i < n ==> Places(cfg, role, v, es, names[i]))
    && Invocations(es) == Invocations(beforeList)
  }

  lemma PromotingStep(cfg: Config, role: Role, before: RoleState, beforeList: Entries, u: RoleState, es: Entries,
                      names: seq<Name>, n: nat)
    requires 0 < n <= |names| && NoRepeat(names) && names[n - 1] in before.disk.staging
    requires Promoting(cfg, role, before, beforeList, u, es, names, n - 1)
    ensures var name, data := names[n - 1], before.disk.staging[names[n - 1]];
            Promoting(cfg, role, before, beforeList,
              RoleState(u.disk.(files := u.disk.files[name := data]),
                        u.memory.(authoritative := u.memory.authoritative[name := cfg.sha(data)])),
              Append(es, Model(role, name, cfg.sha(data), |data|)), names, n)
  {
    var name, data := names[n - 1], before.disk.staging[names[n - 1]];
    var v := RoleState(u.disk.(files := u.disk.files[name := data]),
                       u.memory.(authoritative := u.memory.authoritative[name := cfg.sha(data)]));
    var vs := Append(es, Model(role, name, cfg.sha(data), |data|));
    assert names[..n] == names[..n - 1] + [name];
    forall i | 0 <= i < n ensures Places(cfg, role, v, vs, names[i]) {
      if i < n - 1 {
        assert Places(cfg, role, u, es, names[i]) && names[i] != name;
      }
    }
  }

  lemma {:induction false} PromotionsCommit(cfg: Config, s: State, role: Role, names: seq<Name>, n: nat)
    requires s.Total() && n <= |names| && NoRepeat(names)
    requires (forall i :: 0 <= i < |names| ==> names[i] in s.At(role).disk.staging) && Keys(s.List(role)) == {}
    ensures var v := After(s, role, Promotions(cfg, s.At(role).disk.staging, names, n));
            Promoting(cfg, role, s.At(role), s.List(role), v.At(role), v.List(role), names, n)
  {
    if n > 0 {
      var staging := s.At(role).disk.staging;
      var past := Promotions(cfg, staging, names, n - 1);
      PromotionsCommit(cfg, s, role, names, n - 1);
      var u := After(s, role, past);
      AfterPromotedIs(cfg, s, role, past, names[n - 1], staging[names[n - 1]]);
      PromotedEffect(cfg, u, role, names[n - 1], staging[names[n - 1]]);
      PromotingStep(cfg, role, s.At(role), s.List(role), u.At(role), u.List(role), names, n);
    }
  }

  lemma {:induction false} NoKeys(m: Entries)
    requires Models(m).Blank?
    ensures Keys(m) == {}
  {
    if m.Append? {
      NoKeys(m.past);
    }
  }

  lemma {:induction false} EvidenceMoved(cfg: Config, role: Role, r: RoleState, v: RoleState, m: Entries, es: Entries)
    requires EvidenceOk(cfg, role, r, m) && v.disk.evidence == r.disk.evidence && v.memory.hashes == r.memory.hashes
    requires Invocations(es) == Invocations(m)
    ensures EvidenceOk(cfg, role, v, es)
    decreases m, es
  {
    if m.Append? && m.last.Model? {
      EvidenceMoved(cfg, role, r, v, m.past, es);
    } else if es.Append? && es.last.Model? {
      EvidenceMoved(cfg, role, r, v, m, es.past);
    } else if m.Append? {
      EvidenceMoved(cfg, role, r, v, m.past, es.past);
    }
  }

  /** A complete set of candidates is staged for a role with nothing committed. */
  predicate Staged(s: State, role: Role)
    requires s.Total()
  {
    var r := s.At(role);
    && r.disk.staging.Keys == Expected(role) && r.disk.files == map[] && r.disk.seal.None?
    && !r.memory.sealed && r.memory.authoritative == map[] && Models(s.List(role)).Blank?
  }

  ghost predicate CommitDone(cfg: Config, s: State, role: Role, ts: Touches)
    requires s.Total()
  {
    var v := After(s, role, ts);
    && AllAllowed(cfg, s, role, ts) && Sound(cfg, v) && EvidenceOf(cfg, v, role)
    && Committed(cfg, role, v.At(role), v.List(role)) && Attempts(v.List(role)) == Attempts(s.List(role))
    && v.At(role).disk.attempts == s.At(role).disk.attempts
  }

  lemma StagedIsOrder(role: Role, staging: map<Name, Octets>)
    requires staging.Keys == Expected(role)
    ensures StagedNames(role, staging) == Order(role)
  {
    var names := Order(role);
    assert forall i :: 0 <= i < |names| ==> names[i] in staging.Keys;
    PickAll(names, |names|, staging);
    assert names[..|names|] == names;
  }

  lemma CommitAdmitted(cfg: Config, s: State, role: Role)
    requires role in Workflow(cfg.condition) && s.Total() && Staged(s, role)
    ensures StagedNames(role, s.At(role).disk.staging) == Order(role) && Commits(cfg, role, s.At(role))
    ensures Committing(cfg, role,
            s.At(role)) == And(Promotions(cfg, s.At(role).disk.staging, Order(role), |Order(role)|), Unstage)
  {
    StagedIsOrder(role, s.At(role).disk.staging);
    TakenNone(Order(role), s.At(role).disk.files, 0);
  }

  lemma PromotionsKeep(cfg: Config, s: State, role: Role, names: seq<Name>)
    requires Sound(cfg, s) && EvidenceOf(cfg, s, role) && role in Workflow(cfg.condition)
    requires names == Order(role) && NoRepeat(names) && s.At(role).disk.files == map[] && Keys(s.List(role)) == {}
    requires forall i :: 0 <= i < |names| ==> names[i] in s.At(role).disk.staging
    ensures CommitDone(cfg, s, role, And(Promotions(cfg, s.At(role).disk.staging, names, |names|), Unstage))
  {
    var past := Promotions(cfg, s.At(role).disk.staging, names, |names|);
    PromotionsCommit(cfg, s, role, names, |names|);
    AfterPromotions(cfg, s, role, s.At(role).disk.staging, names, |names|);
    UnstageKeeps(cfg, s, role, past);
  }

  /** Committing a complete set of candidates commits it. */
  lemma CommitKeeps(cfg: Config, s: State, role: Role)
    requires Sound(cfg, s) && EvidenceOf(cfg, s, role) && role in Workflow(cfg.condition) && Staged(s, role)
    ensures CommitDone(cfg, s, role, Committing(cfg, role, s.At(role)))
  {
    CommitAdmitted(cfg, s, role);
    NoKeys(s.List(role));
    PromotionsKeep(cfg, s, role, Order(role));
  }

  lemma UnstageKeeps(cfg: Config, s: State, role: Role, past: Touches)
    requires Sound(cfg, s) && EvidenceOf(cfg, s, role) && AllAllowed(cfg, s, role, past)
             && Sound(cfg, After(s, role, past))
    requires var u := After(s, role, past);
             Promoting(cfg, role, s.At(role), s.List(role), u.At(role), u.List(role), Order(role), |Order(role)|)
    ensures CommitDone(cfg, s, role, And(past, Unstage))
  {
    var u, v := After(s, role, past), After(s, role, And(past, Unstage));
    assert v == Touched(u, role, Unstage);
    SoundStep(cfg, u, role, Unstage);
    EvidenceMoved(cfg, role, s.At(role), v.At(role), s.List(role), v.List(role));
    AttemptsFiltered(s.List(role));
    AttemptsFiltered(v.List(role));
    KeysFiltered(s.List(role), role);
    KeysFiltered(v.List(role), role);
    AllPlaced(cfg, role, s.At(role), s.List(role), u.At(role), u.List(role), v.At(role));
  }

  lemma AllPlaced(cfg: Config, role: Role, before: RoleState, beforeList: Entries, u: RoleState, es: Entries,
    v: RoleState)
    requires Promoting(cfg, role, before, beforeList, u, es, Order(role), |Order(role)|)
    requires v.disk.files == u.disk.files && v.memory.authoritative == u.memory.authoritative
    ensures Committed(cfg, role, v, es)
  {
    var names := Order(role);
    assert names[..|names|] == names;
    forall name | name in names ensures Places(cfg, role, v, es, name) {
      var i :| 0 <= i < |names| && names[i] == name;
      assert Places(cfg, role, u, es, names[i]);
    }
  }

  lemma OneAttemptMore(cfg: Config, s: State, v: State, role: Role, n: nat)
    requires s.Total() && v.Total() && VerifySealed(cfg, s, role) && v.At(role).disk.seal == s.At(role).disk.seal
    requires Attempts(v.List(role)) == Attempts(s.List(role)) + [n]
    ensures !VerifySealed(cfg, v, role)
  {
    SortedLength(Attempts(s.List(role)));
    SortedLength(Attempts(v.List(role)));
    UptoMeans(s.At(role).disk.seal.value.expectedAttempts);
  }

  lemma RecordedNoSeal(cfg: Config, role: Role, ev: RawEvidence.Evidence, record: Record)
    ensures NoSeal(Recorded(cfg, role, ev, record))
  {
    var begun := And(Nothing, OpenAttempt(record.attempt));
    assert NoSeal(begun);
    assert NoSeal(RawRecorded(cfg, role, record.attempt, ev));
  }

  // ------------------------------------------------------- any sequence of calls

  lemma {:induction false} TakenFree(names: seq<Name>, files: map<Name, Octets>, n: nat)
    requires n <= |names|
    ensures forall k :: n <= k < Taken(names, files, n) ==> names[k] !in files
    decreases |names| - n
  {
    if n < |names| && names[n] !in files {
      TakenFree(names, files, n + 1);
    }
  }

  lemma CommittingAllowed(cfg: Config, s: State, role: Role)
    requires Sound(cfg, s)
    ensures AllAllowed(cfg, s, role, Committing(cfg, role, s.At(role)))
  {
    var staging := s.At(role).disk.staging;
    var names := StagedNames(role, staging);
    var done := Taken(names, s.At(role).disk.files, 0);
    PickDistinct(Order(role), |Order(role)|, staging);
    TakenFree(names, s.At(role).disk.files, 0);
    if role in Workflow(cfg.condition) {
      AfterPromotions(cfg, s, role, staging, names, done);
    }
  }

  lemma RawAllowed(cfg: Config, s: State, role: Role, n: nat, ev: RawEvidence.Evidence)
    requires Sound(cfg, s) && n !in s.At(role).disk.attempts
    ensures var ts := RawRecorded(cfg, role, n, ev);
            && AllAllowed(cfg, s, role, ts) && n in After(s, role, ts).At(role).disk.attempts
            && (role, Slot(n, false)) !in Slots(After(s, role, ts).manifest)
  {
    var begun := And(Nothing, OpenAttempt(n));
    assert After(s, role, begun) == Touched(s, role, OpenAttempt(n)) && AllAllowed(cfg, s, role, begun);
    if ev.Present? {
      var data := Utf8.Encode(ev.text);
      var put := And(begun, PutEvidence(Slot(n, true), data, cfg.sha(data)));
      assert After(s, role, put) == Touched(After(s, role, begun), role, put.last) && AllAllowed(cfg, s, role, put);
    }
  }

  lemma NotingAllowed(cfg: Config, s: State, role: Role, attempt: nat, record: Record, raw: Option<Text>)
    requires Sound(cfg, s)
    ensures AllAllowed(cfg, s, role, Noting(cfg, role, attempt, record, raw, s.At(role)))
  {
    var bounded := RawEvidence.Bounded(cfg.markers, raw, cfg.limit);
    if Records(cfg, role, attempt, s.At(role)) && bounded.Ok? {
      var past, meta := RawRecorded(cfg, role, attempt, bounded.value), cfg.render(record);
      RawAllowed(cfg, s, role, attempt, bounded.value);
      var put := And(past, PutEvidence(Slot(attempt, false), meta, cfg.sha(meta)));
      assert After(s, role, put) == Touched(After(s, role, past), role, put.last) && AllAllowed(cfg, s, role, put);
    }
  }

  /** Every call, accepted or refused, has effects that the manifest allows. */
  lemma CallAllowed(cfg: Config, s: State, call: Call)
    requires Sound(cfg, s) && !call.Abort?
    ensures AllAllowed(cfg, s, call.role, Effects(cfg, s, call))
  {
    match call
    case Write(_, _, _) =>
    case Commit(role) => CommittingAllowed(cfg, s, role);
    case Note(role, attempt, record, raw) => NotingAllowed(cfg, s, role, attempt, record, raw);
    case SealUp(role, n, late) => SealingIs(cfg, s, role, n);
  }

  lemma CallSound(cfg: Config, s: State, call: Call)
    requires Sound(cfg, s)
    ensures Sound(cfg, Called(cfg, s, call))
  {
    if call.Abort? {
      SoundAborted(cfg, s, call.role);
    } else {
      CallAllowed(cfg, s, call);
      SoundAfter(cfg, s, call.role, Effects(cfg, s, call));
    }
  }

  datatype Calls = Quiet | Then(past: Calls, last: Call)

  function AfterCalls(cfg: Config, s: State, calls: Calls): (r: State)
    requires s.Total()
    ensures r.Total()
  {
    match calls
    case Quiet => s
    case Then(past, call) => Called(cfg, AfterCalls(cfg, s, past), call)
  }

  predicate NoneOn(role: Role, calls: Calls) { calls.Then? ==> NoneOn(role, calls.past) && calls.last.role != role }

  lemma CallStands(cfg: Config, s: State, role: Role, call: Call)
    requires Sound(cfg, s) && VerifySealed(cfg, s, role) && call.role != role
    ensures var v := Called(cfg, s, call); Sound(cfg, v) && VerifySealed(cfg, v, role) && v.At(role) == s.At(role)
  {
    CallSound(cfg, s, call);
    if call.Abort? {
      SealSurvivesAbort(cfg, s, role, call.role);
      AbortKeepsOthers(s, call.role, role);
    } else {
      CallAllowed(cfg, s, call);
      SealStands(cfg, s, role, call.role, Effects(cfg, s, call));
      SoundAfter(cfg, s, call.role, Effects(cfg, s, call));
      OthersKept(s, call.role, Effects(cfg, s, call), role);
    }
  }

  /** Stability: a stage that verifies keeps verifying, and keeps its files and what the
      store remembers of them, through any sequence of calls on other roles: aborts, refused
      calls and calls that stop part-way included. */
  lemma {:induction false} SealsStable(cfg: Config, s: State, role: Role, calls: Calls)
    requires Sound(cfg, s) && VerifySealed(cfg, s, role) && NoneOn(role, calls)
    ensures var v := AfterCalls(cfg, s, calls); Sound(cfg, v) && VerifySealed(cfg, v, role) && v.At(role) == s.At(role)
  {
    if calls.Then? {
      SealsStable(cfg, s, role, calls.past);
      CallStands(cfg, AfterCalls(cfg, s, calls.past), role, calls.last);
    }
  }

  /** Soundness: what a store has committed, and remembers, is what any later verification
      that succeeds finds in the files, for every expected artifact and whatever was done to
      files, seals and manifest in between; or a hash collision is at hand. */
  lemma SealsSound(cfg: Config, s: State, tampered: State, role: Role, name: Name)
    requires s.Total() && tampered.Total() && Committed(cfg, role, s.At(role), s.List(role))
    requires tampered.At(role).memory.authoritative == s.At(role).memory.authoritative
    requires VerifySealed(cfg, tampered, role) && name in Order(role)
    ensures name in s.At(role).disk.files && name in tampered.At(role).disk.files
    ensures var a, b := s.At(role).disk.files[name], tampered.At(role).disk.files[name];
            a == b || (a != b && cfg.sha(a) == cfg.sha(b))
  {
    assert Places(cfg, role, s.At(role), s.List(role), name);
    assert ArtifactOk(cfg, role, name, tampered.At(role).disk.seal.value, tampered.List(role), tampered.At(role), true);
  }

  /** Evidence for the sealed role itself is not refused, and always costs it its seal. */
  lemma RecordBreaksOwnSeal(cfg: Config, s: State, role: Role, raw: Option<Text>, record: Record)
    requires cfg.Lawful() && Sound(cfg, s) && EvidenceOf(cfg, s, role) && VerifySealed(cfg, s, role)
    requires record.role == role && Plain(cfg, raw) && RawEvidence.Bounded(cfg.markers, raw, cfg.limit).Ok?
    requires Records(cfg, role, record.attempt, s.At(role))
    ensures !VerifySealed(cfg,
            After(s, role, Recorded(cfg, role, RawEvidence.Bounded(cfg.markers, raw, cfg.limit).value, record)), role)
  {
    var ev := RawEvidence.Bounded(cfg.markers, raw, cfg.limit).value;
    RecordKeeps(cfg, s, role, raw, record);
    RecordedNoSeal(cfg, role, ev, record);
    SealKept(s, role, Recorded(cfg, role, ev, record));
    OneAttemptMore(cfg, s, After(s, role, Recorded(cfg, role, ev, record)), role, record.attempt);
  }

  predicate NoSeal(ts: Touches) { ts.And? ==> NoSeal(ts.past) && !ts.last.PutSeal? }

  lemma {:induction false} SealKept(s: State, role: Role, ts: Touches)
    requires s.Total() && NoSeal(ts)
    ensures After(s, role, ts).At(role).disk.seal == s.At(role).disk.seal
  {
    if ts.And? {
      SealKept(s, role, ts.past);
    }
  }
}
