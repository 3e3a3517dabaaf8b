/** What the independent verifier asks of a finished run: which attempts may exist, how
    the stage list must match the seals, and which statuses a topology admits. */
module Terminal {
  import opened Wrappers
  import opened Roles
  import opened Manifest
  import opened Store
  import opened ArtifactStores

  datatype StageStatus = Succeeded | RetryExhausted | HardFailed

  datatype StageResult = StageResult(role: Role, attempt: nat, status: StageStatus, outputs: set<Name>)

  datatype RunStatus =
    | RunSucceeded | FailedBudget | FailedContract | FailedGovernance | FailedEvaluation
    | RunRetryExhausted | InfrastructureFailure

  datatype Outcome = Outcome(passed: bool, version: string, configDigest: string)

  /** evaluation.json: an evaluator's outcome, or a failed evaluation with its error. */
  datatype EvaluationRecord = Evaluated(outcome: Outcome) | Errored(error: string)

  datatype EvaluatorBinding = EvaluatorBinding(version: string, configDigest: string)

  /** The terminal record. */
  datatype Payload = Payload(
    status: RunStatus, stages: seq<StageResult>, candidate: Option<(Role, Name)>,
    evaluation: Option<Outcome>, evaluationError: Option<string>)

  // ---------------------------------------------------------------- attempts

  /** The stage record of a role; the last one if there are several. */
  function StageOf(stages: seq<StageResult>, role: Role): Option<StageResult> {
    if stages == [] then None
    else if stages[|stages| - 1].role == role then Some(stages[|stages| - 1])
    else StageOf(stages[..|stages| - 1], role)
  }

  function IndexOf(roles: seq<Role>, role: Role): (r: nat)
    ensures r <= |roles| && (r < |roles| ==> roles[r] == role)
  {
    if roles == [] then 0 else if roles[0] == role then 0 else 1 + IndexOf(roles[1..], role)
  }

  /** Only the first unrecorded role after successes may have attempts on record. */
  predicate MayHaveAttempts(workflow: seq<Role>, stages: seq<StageResult>, role: Role)
    requires workflow != []
  {
    if exists i :: 0 <= i < |stages| && stages[i].role == role then true
    else if stages == [] then role == workflow[0]
    else
      var last := stages[|stages| - 1];
      var i := IndexOf(workflow, last.role);
      last.status == Succeeded && i + 1 < |workflow| && workflow[i + 1] == role
  }

  predicate AttemptsFit(workflow: seq<Role>, stages: seq<StageResult>, role: Role, attempts: seq<nat>)
    requires workflow != []
  {
    var recorded := StageOf(stages, role);
    if recorded.Some? then 1 <= recorded.value.attempt && attempts == Upto(recorded.value.attempt)
    else if MayHaveAttempts(workflow, stages, role)
      then attempts == [] || attempts == Upto(attempts[|attempts| - 1])
    else attempts == []
  }

  /** `_assert_invocation_attempt_topology`. */
  predicate AttemptTopology(condition: Condition, stages: seq<StageResult>, s: State)
    requires s.Total()
  {
    var workflow := Workflow(condition);
    && (forall k :: k in Slots(s.manifest) ==> k.0 in workflow)
    && forall role :: role in workflow ==> AttemptsFit(workflow, stages, role, Sorted(Attempts(s.List(role))))
  }

  // --------------------------------------------------------- stages and seals

  predicate Sealed(s: State, role: Role)
    requires s.Total()
  {
    s.roles[role].disk.seal.Some?
  }

  predicate StageFits(workflow: seq<Role>, s: State, stage: StageResult, i: nat)
    requires s.Total()
  {
    && i < |workflow| && workflow[i] == stage.role
    && (stage.status == Succeeded ==>
          && Sealed(s, stage.role) && stage.outputs == Expected(stage.role)
          && forall name :: name in Order(stage.role) ==> name in s.roles[stage.role].disk.files)
    && (stage.status != Succeeded ==> !Sealed(s, stage.role))
  }

  /** `_assert_terminal_stage_status_coherence`. */
  ghost predicate StageCoherence(condition: Condition, stages: seq<StageResult>, s: State)
    requires s.Total()
  {
    && (forall i :: 0 <= i < |stages| ==> StageFits(Workflow(condition), s, stages[i], i))
    && forall role: Role :: Sealed(s, role) ==>
         exists i :: 0 <= i < |stages| && stages[i].role == role && stages[i].status == Succeeded
                     && forall j :: 0 <= j < i ==> stages[j].role != role
  }

  /** `_complete_successful_sealed_topology`: seals are judged from disk alone. */
  ghost predicate Complete(cfg: Config, s: State)
    requires s.Total()
  {
    var workflow := Workflow(cfg.condition);
    && (forall role: Role :: Sealed(s, role) <==> role in workflow)
    && Distinct(Models(s.manifest))
    && (forall k :: k in Keys(s.manifest) ==> k.0 in workflow && k.1 in Order(k.0))
    && forall role :: role in workflow ==> SealOk(cfg, role, s.roles[role], s.List(role), false)
  }

  // ----------------------------------------------------------------- statuses

  predicate BoundTo(outcome: Outcome, binding: EvaluatorBinding) {
    outcome.version == binding.version && outcome.configDigest == binding.configDigest
  }

  /** `_assert_evaluation_coherence`. */
  predicate EvaluationCoherence(p: Payload, record: Option<EvaluationRecord>, binding: EvaluatorBinding) {
    match p.status
    case RunSucceeded =>
      record.Some? && record.value.Evaluated? && record.value.outcome.passed
      && p.evaluation == Some(record.value.outcome) && BoundTo(record.value.outcome, binding)
    case FailedEvaluation =>
      record.Some? && (match record.value
        case Evaluated(outcome) =>
          !outcome.passed && p.evaluation == Some(outcome) && BoundTo(outcome, binding) && p.evaluationError.None?
        case Errored(error) => p.evaluation.None? && p.evaluationError == Some(error))
    case _ =>
      p.evaluation.Some? ==> record.Some? && record.value.Evaluated? && p.evaluation == Some(record.value.outcome)
  }

  /** `_assert_terminal_status_topology`. */
  ghost predicate StatusTopology(cfg: Config, s: State, p: Payload, record: Option<EvaluationRecord>,
    binding: EvaluatorBinding)
    requires s.Total()
  {
    && StageCoherence(cfg.condition, p.stages, s)
    && EvaluationCoherence(p, record, binding)
    && match p.status
       case RunSucceeded => Complete(cfg, s) && p.candidate.Some?
       case FailedEvaluation => Complete(cfg, s)
       case _ => !Complete(cfg, s)
  }

  /** `_verify_all_invocation_evidence`, from disk alone. */
  ghost predicate EvidenceVerified(cfg: Config, s: State)
    requires s.Total()
  {
    && Distinct(Invocations(s.manifest))
    && (forall k :: k in Slots(s.manifest) ==> k.0 in Workflow(cfg.condition))
    && forall role: Role ::
         && EvidenceOk(cfg, role, RoleState(s.roles[role].disk, EMPTY.memory), s.List(role))
         && forall slot :: slot in s.roles[role].disk.evidence <==> (role, slot) in Slots(s.List(role))
  }

  /** `_verify_persisted_seal` of every seal on disk. */
  ghost predicate SealsVerified(cfg: Config, s: State)
    requires s.Total()
  {
    forall role: Role :: Sealed(s, role) ==>
      role in Workflow(cfg.condition) && SealOk(cfg, role, s.roles[role], s.List(role), false)
  }

  /** `verify_completed`: every artifact is listed, every stage sealed, and the candidate is
      the last stage's primary artifact, with the bytes the manifest lists. */
  ghost predicate CompletedVerified(cfg: Config, s: State, p: Payload)
    requires s.Total()
  {
    var workflow := Workflow(cfg.condition);
    var last := workflow[|workflow| - 1];
    && Complete(cfg, s) && (forall k: (Role, Name) :: k.0 in workflow && k.1 in Order(k.0) ==> k in Keys(s.manifest))
    && p.candidate == Some((last, Primary(last))) && Primary(last) in s.roles[last].disk.files
    && Find(s.manifest, last, Primary(last)).Some? && Find(s.manifest, last, Primary(last)).value.Model?
    && cfg.sha(s.roles[last].disk.files[Primary(last)]) == Find(s.manifest, last, Primary(last)).value.sha
  }

  /** Everything the verifier of a terminal run looks at in this model. */
  ghost predicate Accepted(cfg: Config, s: State, p: Payload, record: Option<EvaluationRecord>,
    binding: EvaluatorBinding)
    requires s.Total()
  {
    && EvidenceVerified(cfg, s) && AttemptTopology(cfg.condition, p.stages, s)
    && StatusTopology(cfg, s, p, record, binding)
    && if p.status == RunSucceeded then CompletedVerified(cfg, s, p) else SealsVerified(cfg, s)
  }

  // ------------------------------------------------- what the runner maintains

  predicate Untouched(s: State, role: Role)
    requires s.Total()
  {
    s.roles[role] == EMPTY && s.List(role).Blank?
  }

  /** A finished stage: it verifies, and its record says what its seal says. */
  ghost predicate Finished(cfg: Config, s: State, role: Role, stage: StageResult)
    requires s.Total()
  {
    && VerifySealed(cfg, s, role) && stage.role == role && stage.status == Succeeded
    && stage.outputs == Expected(role) && 1 <= stage.attempt
    && stage.attempt == s.roles[role].disk.seal.value.expectedAttempts
  }

  /** The global part: the manifest is sound and all evidence is as it says. */
  ghost predicate Healthy(cfg: Config, s: State) {
    Sound(cfg, s) && EvidenceSound(cfg, s)
  }

  /** Stages before `i` are finished, stages after it untouched, and the attempts of stage
      `i` are the first `k`. */
  ghost predicate Progress(cfg: Config, s: State, stages: seq<StageResult>, i: nat, k: nat) {
    var workflow := Workflow(cfg.condition);
    && Healthy(cfg, s) && i <= |workflow| && i <= |stages|
    && (forall j :: 0 <= j < i ==> Finished(cfg, s, workflow[j], stages[j]))
    && (i < |workflow| ==> Attempts(s.List(workflow[i])) == Upto(k))
    && (forall j :: i < j < |workflow| ==> Untouched(s, workflow[j]))
    && forall role: Role :: role !in workflow ==> Untouched(s, role)
  }

  // ---------------------------------------- what is maintained is what is accepted

  lemma {:induction false} EvidenceFromDisk(cfg: Config, role: Role, r: RoleState, es: Entries)
    requires EvidenceOk(cfg, role, r, es)
    ensures EvidenceOk(cfg, role, RoleState(r.disk, EMPTY.memory), es)
  {
    if es.Append? {
      EvidenceFromDisk(cfg, role, r, es.past);
    }
  }

  lemma {:induction false} ListedEvidence(cfg: Config, role: Role, r: RoleState, es: Entries, k: (Role, Slot))
    requires EvidenceOk(cfg, role, r, es) && k in Slots(es)
    ensures k.0 == role && k.1 in r.disk.evidence
  {
    if es.last.Model? || k != (es.last.role, SlotOf(es.last)) {
      ListedEvidence(cfg, role, r, es.past, k);
    }
  }

  lemma HealthyEvidence(cfg: Config, s: State)
    requires Healthy(cfg, s) && forall role: Role :: role !in Workflow(cfg.condition) ==> Untouched(s, role)
    ensures EvidenceVerified(cfg, s)
  {
    OfDistinct(s.manifest, Solver);
    forall k | k in Slots(s.manifest) ensures k.0 in Workflow(cfg.condition) {
      KeysFiltered(s.manifest, k.0);
      assert k in Slots(s.List(k.0));
    }
    forall role: Role
      ensures EvidenceOk(cfg, role, RoleState(s.roles[role].disk, EMPTY.memory), s.List(role))
      ensures forall slot :: slot in s.roles[role].disk.evidence <==> (role, slot) in Slots(s.List(role))
    {
      assert EvidenceOf(cfg, s, role);
      EvidenceFromDisk(cfg, role, s.roles[role], s.List(role));
      forall slot | (role, slot) in Slots(s.List(role)) ensures slot in s.roles[role].disk.evidence {
        ListedEvidence(cfg, role, s.roles[role], s.List(role), (role, slot));
      }
    }
  }

  lemma {:induction false} RecordedAt(stages: seq<StageResult>, i: nat)
    requires i < |stages| && forall j :: 0 <= j < |stages| && j != i ==> stages[j].role != stages[i].role
    ensures StageOf(stages, stages[i].role) == Some(stages[i])
  {
    if i < |stages| - 1 {
      RecordedAt(stages[..|stages| - 1], i);
    }
  }

  lemma {:induction false} RecordedNone(stages: seq<StageResult>, role: Role)
    requires forall j :: 0 <= j < |stages| ==> stages[j].role != role
    ensures StageOf(stages, role).None?
  {
    if stages != [] {
      RecordedNone(stages[..|stages| - 1], role);
    }
  }

  lemma {:induction false} IndexAt(roles: seq<Role>, i: nat)
    requires i < |roles| && forall a, b :: 0 <= a < b < |roles| ==> roles[a] != roles[b]
    ensures IndexOf(roles, roles[i]) == i
  {
    if i > 0 {
      IndexAt(roles[1..], i - 1);
    }
  }

  /** The stage list a run leaves: finished stages, then at most one that failed. */
  ghost predicate Leaves(cfg: Config, s: State, stages: seq<StageResult>, i: nat, k: nat) {
    var workflow := Workflow(cfg.condition);
    && Progress(cfg, s, stages, i, k)
    && (i < |workflow| ==> Clean(s, workflow[i]))
    && (|stages| == i
        || (|stages| == i + 1 && i < |workflow| && stages[i].role == workflow[i] && stages[i].status != Succeeded
            && stages[i].attempt == k && 1 <= k))
  }

  lemma SealedAttempts(cfg: Config, s: State, role: Role, stage: StageResult)
    requires s.Total() && Finished(cfg, s, role, stage)
    ensures Sorted(Attempts(s.List(role))) == Upto(stage.attempt) && Sealed(s, role)
    ensures forall name :: name in Order(role) ==> name in s.roles[role].disk.files
  {
    forall name | name in Order(role) ensures name in s.roles[role].disk.files {
      assert ArtifactOk(cfg, role, name, s.roles[role].disk.seal.value, s.List(role), s.roles[role], true);
    }
  }

  predicate Follow(workflow: seq<Role>, stages: seq<StageResult>) {
    |stages| <= |workflow| && forall j :: 0 <= j < |stages| ==> stages[j].role == workflow[j]
  }

  /** A role with a stage record: its attempts are those of the record. */
  lemma FitRecorded(workflow: seq<Role>, stages: seq<StageResult>, j: nat, attempts: seq<nat>)
    requires workflow != [] && Follow(workflow, stages) && j < |stages|
    requires forall a, b :: 0 <= a < b < |workflow| ==> workflow[a] != workflow[b]
    ensures AttemptsFit(workflow, stages, workflow[j], attempts)
            <==> 1 <= stages[j].attempt && attempts == Upto(stages[j].attempt)
  {
    RecordedAt(stages, j);
  }

  /** A role without one: any first attempts right after successes, none later. */
  lemma FitUnrecorded(workflow: seq<Role>, stages: seq<StageResult>, j: nat, n: nat)
    requires Follow(workflow, stages) && |stages| <= j < |workflow|
    requires forall a, b :: 0 <= a < b < |workflow| ==> workflow[a] != workflow[b]
    requires n == 0 || (j == |stages| && forall a :: 0 <= a < |stages| ==> stages[a].status == Succeeded)
    ensures AttemptsFit(workflow, stages, workflow[j], Upto(n))
  {
    RecordedNone(stages, workflow[j]);
    UptoMeans(n);
    if n > 0 && stages != [] {
      IndexAt(workflow, |stages| - 1);
    }
  }

  lemma StagesFitAttempts(cfg: Config, s: State, stages: seq<StageResult>, i: nat, k: nat, j: nat)
    requires Leaves(cfg, s, stages, i, k) && j < |Workflow(cfg.condition)|
    ensures AttemptsFit(Workflow(cfg.condition), stages, Workflow(cfg.condition)[j],
            Sorted(Attempts(s.List(Workflow(cfg.condition)[j]))))
  {
    var workflow := Workflow(cfg.condition);
    SortedUpto(k);
    if j < |stages| {
      FitRecorded(workflow, stages, j, Sorted(Attempts(s.List(workflow[j]))));
      if j < i {
        SealedAttempts(cfg, s, workflow[j], stages[j]);
      }
    } else if j == i {
      FitUnrecorded(workflow, stages, j, k);
    } else {
      assert Untouched(s, workflow[j]);
      FitUnrecorded(workflow, stages, j, 0);
    }
  }

  /** Attempts: whatever a run leaves, its attempts are as the topology verifier wants. */
  lemma LeavesAttempts(cfg: Config, s: State, stages: seq<StageResult>, i: nat, k: nat)
    requires Leaves(cfg, s, stages, i, k)
    ensures AttemptTopology(cfg.condition, stages, s) && EvidenceVerified(cfg, s)
  {
    HealthyEvidence(cfg, s);
    forall role | role in Workflow(cfg.condition)
      ensures AttemptsFit(Workflow(cfg.condition), stages, role, Sorted(Attempts(s.List(role))))
    {
      var j :| 0 <= j < |Workflow(cfg.condition)| && Workflow(cfg.condition)[j] == role;
      StagesFitAttempts(cfg, s, stages, i, k, j);
    }
  }

  lemma LeavesStage(cfg: Config, s: State, stages: seq<StageResult>, i: nat, k: nat, j: nat)
    requires Leaves(cfg, s, stages, i, k) && j < |stages|
    ensures stages[j].role == Workflow(cfg.condition)[j] && StageFits(Workflow(cfg.condition), s, stages[j], j)
  {
    if j < i {
      assert Finished(cfg, s, Workflow(cfg.condition)[j], stages[j]);
      SealedAttempts(cfg, s, Workflow(cfg.condition)[j], stages[j]);
    }
  }

  /** Only finished stages are sealed. */
  lemma SealedIsFinished(cfg: Config, s: State, stages: seq<StageResult>, i: nat, k: nat, role: Role) returns (j: nat)
    requires Leaves(cfg, s, stages, i, k) && Sealed(s, role)
    ensures j < i && role == Workflow(cfg.condition)[j] && Finished(cfg, s, role, stages[j])
  {
    assert !Untouched(s, role);
    j :| 0 <= j < |Workflow(cfg.condition)| && Workflow(cfg.condition)[j] == role;
  }

  /** Stages: the list matches the seals. */
  lemma LeavesStages(cfg: Config, s: State, stages: seq<StageResult>, i: nat, k: nat)
    requires Leaves(cfg, s, stages, i, k)
    ensures StageCoherence(cfg.condition, stages, s)
  {
    forall j | 0 <= j < |stages|
      ensures stages[j].role == Workflow(cfg.condition)[j] && StageFits(Workflow(cfg.condition), s, stages[j], j)
    {
      LeavesStage(cfg, s, stages, i, k, j);
    }
    forall role: Role | Sealed(s, role)
      ensures exists j :: 0 <= j < |stages| && stages[j].role == role && stages[j].status == Succeeded
                          && forall a :: 0 <= a < j ==> stages[a].role != role
    {
      var j := SealedIsFinished(cfg, s, stages, i, k, role);
      assert stages[j].role == role;
    }
  }

  lemma CompleteWhenAll(cfg: Config, s: State, stages: seq<StageResult>, i: nat, k: nat)
    requires Leaves(cfg, s, stages, i, k) && i == |Workflow(cfg.condition)|
    ensures Complete(cfg, s)
  {
    SoundManifest(cfg, s);
    forall role: Role ensures Sealed(s, role) <==> role in Workflow(cfg.condition) {
      if role in Workflow(cfg.condition) {
        var j := FinishedRole(cfg, s, stages, i, k, role);
      } else if Sealed(s, role) {
        var j := SealedIsFinished(cfg, s, stages, i, k, role);
      }
    }
    forall role | role in Workflow(cfg.condition) ensures SealOk(cfg, role, s.roles[role], s.List(role), false) {
      var j := FinishedRole(cfg, s, stages, i, k, role);
      PersistedOk(cfg, role, s.roles[role], s.List(role));
    }
  }

  lemma FinishedRole(cfg: Config, s: State, stages: seq<StageResult>, i: nat, k: nat, role: Role) returns (j: nat)
    requires Leaves(cfg, s, stages, i, k) && i == |Workflow(cfg.condition)| && role in Workflow(cfg.condition)
    ensures j < |stages| && Finished(cfg, s, role, stages[j])
  {
    j :| 0 <= j < |Workflow(cfg.condition)| && Workflow(cfg.condition)[j] == role;
  }

  /** Completeness: every seal stands exactly when no stage is missing. */
  lemma LeavesComplete(cfg: Config, s: State, stages: seq<StageResult>, i: nat, k: nat)
    requires Leaves(cfg, s, stages, i, k)
    ensures Complete(cfg, s) <==> i == |Workflow(cfg.condition)|
  {
    if i == |Workflow(cfg.condition)| {
      CompleteWhenAll(cfg, s, stages, i, k);
    } else {
      assert !Sealed(s, Workflow(cfg.condition)[i]) && Workflow(cfg.condition)[i] in Workflow(cfg.condition);
    }
  }

  lemma PersistedOk(cfg: Config, role: Role, r: RoleState, es: Entries)
    requires SealOk(cfg, role, r, es, true)
    ensures SealOk(cfg, role, r, es, false)
  {
    forall name | name in Order(role) ensures ArtifactOk(cfg, role, name, r.disk.seal.value, es, r, false) {
      assert ArtifactOk(cfg, role, name, r.disk.seal.value, es, r, true);
    }
  }

  /** Every seal on disk verifies once more, from disk alone. */
  lemma LeavesSeals(cfg: Config, s: State, stages: seq<StageResult>, i: nat, k: nat)
    requires Leaves(cfg, s, stages, i, k)
    ensures SealsVerified(cfg, s)
  {
    forall role: Role | Sealed(s, role)
      ensures role in Workflow(cfg.condition) && SealOk(cfg, role, s.roles[role], s.List(role), false)
    {
      var j := SealedIsFinished(cfg, s, stages, i, k, role);
      PersistedOk(cfg, role, s.roles[role], s.List(role));
    }
  }

  /** A stage without a seal has left nothing but its evidence. */
  lemma LeavesNoResidue(cfg: Config, s: State, stages: seq<StageResult>, i: nat, k: nat)
    requires Leaves(cfg, s, stages, i, k)
    ensures forall role: Role :: Sealed(s, role) || Clean(s, role)
  {
    var workflow := Workflow(cfg.condition);
    forall role: Role ensures Sealed(s, role) || Clean(s, role) {
      if role in workflow {
        var j :| 0 <= j < |workflow| && workflow[j] == role;
        assert j < i ==> Finished(cfg, s, workflow[j], stages[j]);
        assert i < j ==> Untouched(s, workflow[j]);
      } else {
        assert Untouched(s, role);
      }
    }
  }

  lemma CompleteIsVerified(cfg: Config, s: State, p: Payload)
    requires s.Total() && Complete(cfg, s)
    requires var last := Workflow(cfg.condition)[|Workflow(cfg.condition)| - 1];
             p.candidate == Some((last, Primary(last)))
    ensures CompletedVerified(cfg, s, p)
  {
    var workflow := Workflow(cfg.condition);
    forall k: (Role, Name) | k.0 in workflow && k.1 in Order(k.0) ensures k in Keys(s.manifest) {
      KeysFiltered(s.manifest, k.0);
      assert SealOk(cfg, k.0, s.roles[k.0], s.List(k.0), false);
      assert k in ExpectedKeys(k.0);
    }
    var last := workflow[|workflow| - 1];
    assert ArtifactOk(cfg, last, Primary(last), s.roles[last].disk.seal.value, s.List(last), s.roles[last], false);
    FindFiltered(s.manifest, last, Primary(last), Slot(0, false));
  }

  /** Agreement: what the runner leaves, with a status that fits how far it came, is what
      the verifier accepts. */
  lemma LeavesAccepted(cfg: Config, s: State, p: Payload, i: nat, k: nat, record: Option<EvaluationRecord>,
    binding: EvaluatorBinding)
    requires Leaves(cfg, s, p.stages, i, k)
    requires EvaluationCoherence(p, record, binding)
    requires (p.status == RunSucceeded || p.status == FailedEvaluation) <==> i == |Workflow(cfg.condition)|
    requires var last := Workflow(cfg.condition)[|Workflow(cfg.condition)| - 1];
             p.status == RunSucceeded ==> p.candidate == Some((last, Primary(last)))
    ensures Accepted(cfg, s, p, record, binding)
  {
    LeavesAttempts(cfg, s, p.stages, i, k);
    LeavesStages(cfg, s, p.stages, i, k);
    LeavesComplete(cfg, s, p.stages, i, k);
    LeavesSeals(cfg, s, p.stages, i, k);
    if p.status == RunSucceeded {
      CompleteIsVerified(cfg, s, p);
    }
  }

  // ------------------------------------------------------------- changed bytes

  predicate SameOrCollide(cfg: Config, a: Octets, b: Octets) { a == b || (a != b && cfg.sha(a) == cfg.sha(b)) }

  lemma {:induction false} EntryVerified(cfg: Config, role: Role, r: RoleState, es: Entries, slot: Slot)
    requires EvidenceOk(cfg, role, r, es) && FindSlot(es, role, slot).Some?
    ensures !FindSlot(es, role, slot).value.Model? && EntryOk(cfg, role, r, FindSlot(es, role, slot).value)
    ensures SlotOf(FindSlot(es, role, slot).value) == slot
  {
    if es.last.Model? || es.last.role != role || SlotOf(es.last) != slot {
      EntryVerified(cfg, role, r, es.past, slot);
    }
  }

  /** Two disks that the verifier accepts with one manifest hold the same evidence. */
  lemma EvidenceShows(cfg: Config, s: State, t: State, role: Role, slot: Slot)
    requires s.Total() && t.Total() && s.manifest == t.manifest && EvidenceVerified(cfg, s) && EvidenceVerified(cfg, t)
    ensures slot in s.At(role).disk.evidence <==> slot in t.At(role).disk.evidence
    ensures slot in s.At(role).disk.evidence ==>
              SameOrCollide(cfg, s.At(role).disk.evidence[slot], t.At(role).disk.evidence[slot])
  {
    var es := s.List(role);
    KeysFind(es, role, Candidate, slot);
    if slot in s.At(role).disk.evidence {
      EntryVerified(cfg, role, RoleState(s.roles[role].disk, EMPTY.memory), es, slot);
      EntryVerified(cfg, role, RoleState(t.roles[role].disk, EMPTY.memory), es, slot);
    }
  }

  lemma ArtifactsShow(cfg: Config, s: State, t: State, role: Role, name: Name)
    requires s.Total() && t.Total() && s.manifest == t.manifest && name in Order(role)
    requires SealOk(cfg, role, s.roles[role], s.List(role), false)
             && SealOk(cfg, role, t.roles[role], t.List(role), false)
    ensures name in s.At(role).disk.files && name in t.At(role).disk.files
    ensures SameOrCollide(cfg, s.At(role).disk.files[name], t.At(role).disk.files[name])
  {
    assert ArtifactOk(cfg, role, name, s.roles[role].disk.seal.value, s.List(role), s.roles[role], false);
    assert ArtifactOk(cfg, role, name, t.roles[role].disk.seal.value, t.List(role), t.roles[role], false);
  }

  lemma AcceptedSeal(cfg: Config, s: State, p: Payload, record: Option<EvaluationRecord>, binding: EvaluatorBinding,
    role: Role)
    requires s.Total() && Accepted(cfg, s, p, record, binding) && Sealed(s, role)
    ensures SealOk(cfg, role, s.roles[role], s.List(role), false)
  {
  }

  /** Detection: whatever else was rewritten, if the verifier accepts both a run, however it
      ended, and what became of its disk under the same manifest, then no artifact that both
      have sealed and no evidence has changed, or a hash collision is at hand. */
  lemma ChangedBytesShow(cfg: Config, s: State, t: State, p: Payload, q: Payload, record: Option<EvaluationRecord>,
                         other: Option<EvaluationRecord>, binding: EvaluatorBinding, role: Role, name: Name, slot: Slot)
    requires s.Total() && t.Total() && s.manifest == t.manifest
    requires Accepted(cfg, s, p, record, binding) && Accepted(cfg, t, q, other, binding)
    ensures Sealed(s, role) && Sealed(t, role) && name in Order(role) ==>
              && name in s.At(role).disk.files && name in t.At(role).disk.files
              && SameOrCollide(cfg, s.At(role).disk.files[name], t.At(role).disk.files[name])
    ensures slot in s.At(role).disk.evidence <==> slot in t.At(role).disk.evidence
    ensures slot in s.At(role).disk.evidence ==>
              SameOrCollide(cfg, s.At(role).disk.evidence[slot], t.At(role).disk.evidence[slot])
  {
    if Sealed(s, role) && Sealed(t, role) && name in Order(role) {
      AcceptedSeal(cfg, s, p, record, binding, role);
      AcceptedSeal(cfg, t, q, other, binding, role);
      ArtifactsShow(cfg, s, t, role, name);
    }
    EvidenceShows(cfg, s, t, role, slot);
  }
}
