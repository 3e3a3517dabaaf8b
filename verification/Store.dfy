/** The artifact store of one run: staged, committed and sealed artifacts, untrusted
    invocation evidence, the manifest on disk and the hashes kept in memory. */
module Store {
  import opened Wrappers
  import opened Roles
  import opened Manifest
  import Utf8
  import RawEvidence

  type Octets = Utf8.Octets
  type Text = Utf8.Text

  datatype Decision = Promote | Retry | Stop

  datatype FailureClass =
    | TimeoutClass | BudgetClass | ModelClass | ProviderClass
    | InfrastructureClass | GovernanceClass | ContractClass

  /** The runner's own account of one attempt. */
  datatype Record = Record(
    role: Role, attempt: nat, decision: Decision, failure: Option<FailureClass>,
    began: bool, projected: nat, consumed: nat, cumulative: nat, attemptTimeout: int)

  datatype Seal = Seal(role: Role, artifacts: Entries, invocations: Entries, expectedAttempts: nat, digest: Digest)

  /** Hashing and the record format, of which only the stated law is used. */
  datatype Config = Config(
    condition: Condition, limit: int, markers: RawEvidence.Markers,
    sha: Octets -> Digest, sealDigest: (Entries, Entries, nat) -> Digest,
    render: Record -> Octets, parse: Octets -> Option<Record>)
  {
    ghost predicate Lawful() {
      markers.Apart() && forall r :: parse(render(r)) == Some(r)
    }
  }

  datatype RoleDisk = RoleDisk(
    staging: map<Name, Octets>, files: map<Name, Octets>, seal: Option<Seal>,
    evidence: map<Slot, Octets>, attempts: set<nat>)

  datatype RoleMemory = RoleMemory(sealed: bool, authoritative: map<Name, Digest>, hashes: map<Slot, Digest>)

  datatype RoleState = RoleState(disk: RoleDisk, memory: RoleMemory)

  const EMPTY := RoleState(RoleDisk(map[], map[], None, map[], {}), RoleMemory(false, map[], map[]))

  datatype State = State(roles: map<Role, RoleState>, manifest: Entries)
  {
    predicate Total() { forall r: Role :: r in roles }

    function At(role: Role): RoleState
      requires Total()
    {
      roles[role]
    }

    function List(role: Role): Entries { Of(manifest, role) }
  }

  // ------------------------------------------------------- elementary effects

  /** One effect on one role: a file, an in-memory entry or a manifest line. */
  datatype Touch =
    | Stage(name: Name, data: Octets)
    | Place(name: Name, data: Octets)
    | Trust(name: Name, digest: Digest)
    | ListModel(name: Name, digest: Digest, bytes: nat)
    | Unstage
    | OpenAttempt(attempt: nat)
    | PutEvidence(slot: Slot, data: Octets, digest: Digest)
    | ListEvidence(entry: Entry)
    | PutSeal(seal: Seal)
    | MarkSealed

  function RoleTouched(r: RoleState, t: Touch): RoleState {
    match t
    case Stage(name, data) => r.(disk := r.disk.(staging := r.disk.staging[name := data]))
    case Place(name, data) => r.(disk := r.disk.(files := r.disk.files[name := data]))
    case Trust(name, digest) => r.(memory := r.memory.(authoritative := r.memory.authoritative[name := digest]))
    case Unstage => r.(disk := r.disk.(staging := map[]))
    case OpenAttempt(attempt) => r.(disk := r.disk.(attempts := r.disk.attempts + {attempt}))
    case PutEvidence(slot, data, digest) =>
      RoleState(r.disk.(evidence := r.disk.evidence[slot := data]),
        r.memory.(hashes := r.memory.hashes[slot := digest]))
    case PutSeal(seal) => r.(disk := r.disk.(seal := Some(seal)))
    case MarkSealed => r.(memory := r.memory.(sealed := true))
    case _ => r
  }

  function Listed(m: Entries, role: Role, t: Touch): Entries {
    match t
    case ListModel(name, digest, bytes) => Append(m, Model(role, name, digest, bytes))
    case ListEvidence(entry) => Append(m, entry)
    case _ => m
  }

  function Touched(s: State, role: Role, t: Touch): State
    requires s.Total()
  {
    State(s.roles[role := RoleTouched(s.roles[role], t)], Listed(s.manifest, role, t))
  }

  /** What the store's checks guarantee of its own effects. */
  predicate Fair(role: Role, t: Touch) {
    && (t.Place? || t.Trust? ==> t.name in Expected(role))
    && (t.ListEvidence? ==> !t.entry.Model? && t.entry.role == role)
  }

  datatype Touches = Nothing | And(past: Touches, last: Touch)

  predicate AllFair(role: Role, ts: Touches) { ts.And? ==> AllFair(role, ts.past) && Fair(role, ts.last) }

  function After(s: State, role: Role, ts: Touches): (r: State)
    requires s.Total()
    ensures r.Total()
  {
    match ts
    case Nothing => s
    case And(past, t) => Touched(After(s, role, past), role, t)
  }

  // ------------------------------------------------------------------ rollback

  function RoleAborted(role: Role, r: RoleState): RoleState {
    RoleState(r.disk.(staging := map[], files := r.disk.files - Expected(role), seal := None),
              r.memory.(sealed := false, authoritative := r.memory.authoritative - Expected(role)))
  }

  /** `abort_uncommitted_stage`: everything but the invocation evidence of the role. */
  function Aborted(s: State, role: Role): State
    requires s.Total()
  {
    State(s.roles[role := RoleAborted(role, s.roles[role])], WithoutModels(s.manifest, role))
  }

  predicate IsEvidence(t: Touch) { t.OpenAttempt? || t.PutEvidence? || t.ListEvidence? }

  function EvidenceOnly(ts: Touches): Touches {
    match ts
    case Nothing => Nothing
    case And(past, t) => if IsEvidence(t) then And(EvidenceOnly(past), t) else EvidenceOnly(past)
  }

  /** Nothing of the role is staged, committed or sealed. */
  predicate Clean(s: State, role: Role)
    requires s.Total()
  {
    var r := s.At(role);
    && r.disk.staging == map[] && r.disk.files == map[] && r.disk.seal.None?
    && !r.memory.sealed && r.memory.authoritative == map[]
    && Models(s.List(role)).Blank?
  }

  predicate Named(s: State, role: Role)
    requires s.Total()
  {
    s.roles[role].disk.files.Keys <= Expected(role) && s.roles[role].memory.authoritative.Keys <= Expected(role)
  }

  lemma AbortClean(s: State, role: Role)
    requires s.Total() && Clean(s, role)
    ensures Aborted(s, role) == s
  {
    WithoutModelsAgain(s.manifest, role);
    assert RoleAborted(role, s.roles[role]) == s.roles[role];
    assert s.roles[role := s.roles[role]] == s.roles;
  }

  lemma AbortCleans(s: State, role: Role)
    requires s.Total() && Named(s, role)
    ensures Aborted(s, role).Total() && Clean(Aborted(s, role), role)
  {
    WithoutModelsOf(s.manifest, role, role);
    NoModels(s.List(role));
  }

  lemma {:induction false} NoModels(m: Entries)
    ensures Models(Invocations(m)).Blank?
  {
    if m.Append? {
      NoModels(m.past);
    }
  }

  lemma RoleAbortAfter(role: Role, r: RoleState, t: Touch)
    requires Fair(role, t)
    ensures RoleAborted(role, RoleTouched(r, t)) == if IsEvidence(t) then RoleTouched(RoleAborted(role, r), t)
            else RoleAborted(role, r)
  {
    match t
    case Place(name, data) => assert r.disk.files[name := data] - Expected(role) == r.disk.files - Expected(role);
    case Trust(name, digest) =>
      assert r.memory.authoritative[name := digest] - Expected(role) == r.memory.authoritative - Expected(role);
    case _ =>
  }

  /** Aborting forgets an effect, or, for evidence, lets it stand. */
  lemma AbortAfter(s: State, role: Role, t: Touch)
    requires s.Total() && Fair(role, t)
    ensures Aborted(s, role).Total()
    ensures Aborted(Touched(s, role, t), role) == if IsEvidence(t) then Touched(Aborted(s, role), role, t)
            else Aborted(s, role)
  {
    RoleAbortAfter(role, s.roles[role], t);
    assert RoleAborted(role, RoleTouched(s.roles[role], t))
        == if IsEvidence(t) then RoleTouched(RoleAborted(role, s.roles[role]), t) else RoleAborted(role, s.roles[role]);
    assert s.roles[role := RoleTouched(s.roles[role], t)][role := RoleAborted(role, RoleTouched(s.roles[role], t))]
        == s.roles[role := RoleAborted(role, RoleTouched(s.roles[role], t))];
    if IsEvidence(t) {
      assert s.roles[role := RoleAborted(role, s.roles[role])][role := RoleTouched(RoleAborted(role, s.roles[role]), t)]
          == s.roles[role := RoleTouched(RoleAborted(role, s.roles[role]), t)];
    }
  }

  /** Rollback is an inverse: whatever a stage did to its role, in whatever order and
      wherever it stopped, aborting leaves the clean state it started from plus exactly
      the invocation evidence. */
  lemma {:induction false} RollbackInverts(s: State, role: Role, ts: Touches)
    requires s.Total() && Clean(s, role) && AllFair(role, ts)
    ensures Aborted(After(s, role, ts), role) == After(s, role, EvidenceOnly(ts))
  {
    if ts.And? {
      RollbackInverts(s, role, ts.past);
      AbortAfter(After(s, role, ts.past), role, ts.last);
    } else {
      AbortClean(s, role);
    }
  }

  lemma RollbackIdempotent(s: State, role: Role)
    requires s.Total()
    ensures Aborted(s, role).Total() && Aborted(Aborted(s, role), role) == Aborted(s, role)
  {
    WithoutModelsAgain(s.manifest, role);
    var r := s.roles[role];
    assert r.disk.files - Expected(role) - Expected(role) == r.disk.files - Expected(role);
    assert r.memory.authoritative - Expected(role) - Expected(role) == r.memory.authoritative - Expected(role);
    assert RoleAborted(role, RoleAborted(role, r)) == RoleAborted(role, r);
  }

  /** Everything about another role stays as it was. */
  lemma {:induction false} OthersKept(s: State, role: Role, ts: Touches, other: Role)
    requires s.Total() && AllFair(role, ts) && other != role
    ensures After(s, role, ts).At(other) == s.At(other) && After(s, role, ts).List(other) == s.List(other)
  {
    if ts.And? {
      OthersKept(s, role, ts.past, other);
    }
  }

  lemma AbortKeepsOthers(s: State, role: Role, other: Role)
    requires s.Total() && other != role
    ensures Aborted(s, role).Total() && Aborted(s, role).At(other) == s.At(other)
    ensures Aborted(s, role).List(other) == s.List(other)
  {
    WithoutModelsOf(s.manifest, role, other);
  }

  // ------------------------------------------------------------ verifying a seal

  /** One manifest line about invocation evidence, against the file it names. */
  predicate EntryOk(cfg: Config, role: Role, r: RoleState, e: Entry) {
    e.Model? ||
    var slot := SlotOf(e);
    && e.role == role && 1 <= e.attempt && slot in r.disk.evidence
    && var data := r.disk.evidence[slot];
    && cfg.sha(data) == e.sha && |data| == e.bytes
    && (slot in r.memory.hashes ==> r.memory.hashes[slot] == e.sha)
    && match e
       case Meta(_, attempt, _, _) =>
         cfg.parse(data).Some? && cfg.parse(data).value.role == role && cfg.parse(data).value.attempt == attempt
       case Raw(_, _, _, bytes, truncated, storedBytes, observed) =>
         RawEvidence.Verified(cfg.markers, data, truncated, storedBytes, observed) && storedBytes == bytes
       case Model(_, _, _, _) => true
  }

  predicate EvidenceOk(cfg: Config, role: Role, r: RoleState, es: Entries) {
    es.Blank? || (EvidenceOk(cfg, role, r, es.past) && EntryOk(cfg, role, r, es.last))
  }

  function ExpectedKeys(role: Role): set<(Role, Name)> { set n | n in Order(role) :: (role, n) }

  predicate SealShape(cfg: Config, role: Role, seal: Seal) {
    && seal.role == role && Distinct(seal.artifacts) && Keys(seal.artifacts) == ExpectedKeys(role)
    && seal.digest == cfg.sealDigest(seal.artifacts, seal.invocations, seal.expectedAttempts)
  }

  /** Seal, manifest, file and, while the run is active, memory agree on one artifact. */
  predicate ArtifactOk(cfg: Config, role: Role, name: Name, seal: Seal, es: Entries, r: RoleState, active: bool) {
    var entry, record := Find(seal.artifacts, role, name), Find(es, role, name);
    && entry.Some? && record.Some? && entry.value.Model? && record.value.Model?
    && entry.value.sha == record.value.sha && entry.value.bytes == record.value.bytes
    && name in r.disk.files
    && cfg.sha(r.disk.files[name]) == record.value.sha && |r.disk.files[name]| == record.value.bytes
    && (active && name in r.memory.authoritative ==> r.memory.authoritative[name] == record.value.sha)
  }

  predicate Bound(role: Role, seal: Seal, es: Entries) {
    && Slots(seal.invocations) == Slots(es)
    && (forall k :: k in Slots(es) ==> FindSlot(seal.invocations, k.0, k.1) == FindSlot(es, k.0, k.1))
    && Sorted(Attempts(es)) == Upto(seal.expectedAttempts)
  }

  /** What verifying a seal asks of its role alone. */
  predicate SealOk(cfg: Config, role: Role, r: RoleState, es: Entries, active: bool) {
    && r.disk.seal.Some? && SealShape(cfg, role, r.disk.seal.value) && Keys(es) == ExpectedKeys(role)
    && (forall name :: name in Order(role) ==> ArtifactOk(cfg, role, name, r.disk.seal.value, es, r, active))
    && (active ==> EvidenceOk(cfg, role, r, es))
    && Bound(role, r.disk.seal.value, es)
  }

  /** What it asks of the whole manifest: one entry a key, and no unexpected one. */
  predicate ManifestOk(cfg: Config, m: Entries) {
    && Distinct(Models(m))
    && forall k :: k in Keys(m) ==> k.0 in Workflow(cfg.condition) && k.1 in Order(k.0)
  }

  /** `verify_sealed_stage`. */
  predicate VerifySealed(cfg: Config, s: State, role: Role)
    requires s.Total()
  {
    role in Workflow(cfg.condition) && ManifestOk(cfg, s.manifest)
      && SealOk(cfg, role, s.roles[role], s.List(role), true)
  }

  // ----------------------------------------------------- what every call keeps

  /** The manifest never lists an artifact or an invocation file twice, and lists only
      files that were written, under names that are expected. */
  predicate Sound(cfg: Config, s: State) {
    && s.Total() && Distinct(s.manifest)
    && (forall k ::
      k in Keys(s.manifest) ==> k.0 in Workflow(cfg.condition) && k.1 in Order(k.0) && k.1 in s.roles[k.0].disk.files)
    && (forall k :: k in Slots(s.manifest) ==> k.1.attempt in s.roles[k.0].disk.attempts)
    && (forall role :: Named(s, role))
  }

  /** The guards under which the store's methods produce their effects. */
  predicate Allowed(cfg: Config, s: State, role: Role, t: Touch)
    requires s.Total()
  {
    && Fair(role, t)
    && (t.ListModel? ==>
          role in Workflow(cfg.condition) && t.name in Order(role) && t.name in s.roles[role].disk.files
          && (role, t.name) !in Keys(s.manifest))
    && (t.ListEvidence? ==>
          t.entry.attempt in s.roles[role].disk.attempts && (role, SlotOf(t.entry)) !in Slots(s.manifest))
  }

  predicate AllAllowed(cfg: Config, s: State, role: Role, ts: Touches)
    requires s.Total()
  {
    ts.And? ==> AllAllowed(cfg, s, role, ts.past) && Allowed(cfg, After(s, role, ts.past), role, ts.last)
  }

  lemma SoundStep(cfg: Config, s: State, role: Role, t: Touch)
    requires Sound(cfg, s) && Allowed(cfg, s, role, t)
    ensures Sound(cfg, Touched(s, role, t))
  {
    var v := Touched(s, role, t);
    if t.ListModel? {
      KeysFind(s.manifest, role, t.name, Slot(0, false));
    } else if t.ListEvidence? {
      KeysFind(s.manifest, role, Candidate, SlotOf(t.entry));
    }
    forall r ensures Named(v, r) {
      assert Named(s, r);
    }
  }

  lemma {:induction false} SoundAfter(cfg: Config, s: State, role: Role, ts: Touches)
    requires Sound(cfg, s) && AllAllowed(cfg, s, role, ts)
    ensures Sound(cfg, After(s, role, ts)) && AllFair(role, ts)
  {
    if ts.And? {
      SoundAfter(cfg, s, role, ts.past);
      SoundStep(cfg, After(s, role, ts.past), role, ts.last);
    }
  }

  lemma SoundAborted(cfg: Config, s: State, role: Role)
    requires Sound(cfg, s)
    ensures Sound(cfg, Aborted(s, role))
  {
    var v := Aborted(s, role);
    WithoutModelsDistinct(s.manifest, role);
    forall k | k in Keys(v.manifest) ensures k.0 != role && k in Keys(s.manifest) {
      KeysFind(v.manifest, k.0, k.1, Slot(0, false));
      KeysFind(s.manifest, k.0, k.1, Slot(0, false));
      WithoutModelsFind(s.manifest, role, k.0, k.1, Slot(0, false));
    }
    forall k | k in Slots(v.manifest) ensures k in Slots(s.manifest) {
      KeysFind(v.manifest, k.0, Candidate, k.1);
      KeysFind(s.manifest, k.0, Candidate, k.1);
      WithoutModelsFind(s.manifest, role, k.0, Candidate, k.1);
    }
    forall r ensures Named(v, r) {
      assert Named(s, r);
    }
  }

  lemma SoundManifest(cfg: Config, s: State)
    requires Sound(cfg, s)
    ensures ManifestOk(cfg, s.manifest)
  {
    OfDistinct(s.manifest, Solver);
  }

  /** A stage that verifies keeps verifying under any effects on another role. */
  lemma SealStands(cfg: Config, s: State, role: Role, other: Role, ts: Touches)
    requires Sound(cfg, s) && VerifySealed(cfg, s, role) && other != role && AllAllowed(cfg, s, other, ts)
    ensures VerifySealed(cfg, After(s, other, ts), role)
  {
    SoundAfter(cfg, s, other, ts);
    SoundManifest(cfg, After(s, other, ts));
    OthersKept(s, other, ts, role);
  }

  lemma SealSurvivesAbort(cfg: Config, s: State, role: Role, other: Role)
    requires Sound(cfg, s) && VerifySealed(cfg, s, role) && other != role
    ensures VerifySealed(cfg, Aborted(s, other), role)
  {
    SoundAborted(cfg, s, other);
    SoundManifest(cfg, Aborted(s, other));
    AbortKeepsOthers(s, other, role);
  }
}
