/** What follows for a run when the independent verifier accepts it: its attempts, its stage
    list, its status, and how much a single seal digest pins. */
module Acceptance {
  import opened Wrappers
  import opened Roles
  import opened Manifest
  import opened Store
  import opened ArtifactStores
  import opened Terminal

  // ---------------------------------------------------------------- attempts

  lemma {:induction false} InsertKeeps(x: nat, xs: seq<nat>)
    ensures multiset(Insert(x, xs)) == multiset(xs) + multiset{x}
  {
    if xs != [] && xs[|xs| - 1] > x {
      var init, last := xs[..|xs| - 1], xs[|xs| - 1];
      InsertKeeps(x, init);
      assert xs == init + [last];
    }
  }

  predicate Ascending(xs: seq<nat>) { forall i, j :: 0 <= i < j < |xs| ==> xs[i] <= xs[j] }

  lemma {:induction false} InsertAscends(x: nat, xs: seq<nat>)
    requires Ascending(xs)
    ensures Ascending(Insert(x, xs))
  {
    if xs != [] && xs[|xs| - 1] > x {
      var init, last := xs[..|xs| - 1], xs[|xs| - 1];
      InsertAscends(x, init);
      InsertKeeps(x, init);
      var more := Insert(x, init);
      forall i | 0 <= i < |more| ensures more[i] <= last {
        assert more[i] in multiset(init) + multiset{x};
      }
    }
  }

  /** Sorting puts the same numbers into ascending order. */
  lemma {:induction false} SortedIs(xs: seq<nat>)
    ensures multiset(Sorted(xs)) == multiset(xs) && Ascending(Sorted(xs))
  {
    if xs != [] {
      var init, last := xs[..|xs| - 1], xs[|xs| - 1];
      SortedIs(init);
      InsertKeeps(last, Sorted(init));
      InsertAscends(last, Sorted(init));
      assert xs == init + [last];
    }
  }

  /** The numbers 1 to n, each once, in any order. */
  ghost predicate Numbered(xs: seq<nat>, n: nat) {
    |xs| == n && forall k :: k in xs <==> 1 <= k <= n
  }

  lemma UptoNumbered(xs: seq<nat>, n: nat)
    requires Sorted(xs) == Upto(n)
    ensures Numbered(xs, n)
  {
    SortedIs(xs);
    UptoMeans(n);
    assert |xs| == |multiset(xs)| == |multiset(Upto(n))|;
    forall k ensures k in xs <==> 1 <= k <= n {
      assert k in xs <==> k in multiset(xs);
      assert k in multiset(Upto(n)) <==> k in Upto(n);
      if 1 <= k <= n {
        assert Upto(n)[k - 1] == k;
      }
    }
  }

  /** A stage that verifies has exactly the attempts its seal expects: 1 to n, each once. */
  lemma SealedAttemptsNumbered(cfg: Config, s: State, role: Role)
    requires s.Total() && VerifySealed(cfg, s, role)
    ensures s.At(role).disk.seal.Some?
    ensures Numbered(Attempts(s.List(role)), s.At(role).disk.seal.value.expectedAttempts)
  {
    UptoNumbered(Attempts(s.List(role)), s.At(role).disk.seal.value.expectedAttempts);
  }

  // -------------------------------------------------------------- seal digests

  /** Two different seals' contents with one digest. */
  predicate SealCollision(cfg: Config, a: Seal, b: Seal) {
    && (a.artifacts, a.invocations, a.expectedAttempts) != (b.artifacts, b.invocations, b.expectedAttempts)
    && cfg.sealDigest(a.artifacts, a.invocations, a.expectedAttempts)
       == cfg.sealDigest(b.artifacts, b.invocations, b.expectedAttempts)
  }

  /** The digest of a seal pins the whole stage: any two states that verify, whatever else
      their manifests say, and whose seals carry the same digest hold the same artifacts,
      the same evidence and equally many attempts, or a hash collision is at hand. */
  lemma DigestPins(cfg: Config, s: State, t: State, role: Role, name: Name, slot: Slot)
    requires s.Total() && t.Total() && VerifySealed(cfg, s, role) && VerifySealed(cfg, t, role)
    requires s.At(role).disk.seal.value.digest == t.At(role).disk.seal.value.digest
    requires !SealCollision(cfg, s.At(role).disk.seal.value, t.At(role).disk.seal.value)
    ensures |Attempts(s.List(role))| == |Attempts(t.List(role))|
    ensures name in Order(role) ==>
              && name in s.At(role).disk.files && name in t.At(role).disk.files
              && SameOrCollide(cfg, s.At(role).disk.files[name], t.At(role).disk.files[name])
    ensures (role, slot) in Slots(s.List(role)) <==> (role, slot) in Slots(t.List(role))
    ensures (role, slot) in Slots(s.List(role)) ==>
              && slot in s.At(role).disk.evidence && slot in t.At(role).disk.evidence
              && SameOrCollide(cfg, s.At(role).disk.evidence[slot], t.At(role).disk.evidence[slot])
  {
    SealedAttemptsNumbered(cfg, s, role);
    SealedAttemptsNumbered(cfg, t, role);
    var (a, b) := (s.At(role).disk.seal.value, t.At(role).disk.seal.value);
    if name in Order(role) {
      assert ArtifactOk(cfg, role, name, a, s.List(role), s.At(role), true);
      assert ArtifactOk(cfg, role, name, b, t.List(role), t.At(role), true);
    }
    if (role, slot) in Slots(s.List(role)) {
      KeysFind(s.List(role), role, Candidate, slot);
      KeysFind(t.List(role), role, Candidate, slot);
      EntryVerified(cfg, role, s.At(role), s.List(role), slot);
      EntryVerified(cfg, role, t.At(role), t.List(role), slot);
    }
  }

  /** While a run is active its memory pins what verifies as well: a file whose hash is
      remembered is the file with that hash. */
  lemma MemoryPins(cfg: Config, s: State, role: Role, name: Name, slot: Slot)
    requires s.Total() && VerifySealed(cfg, s, role)
    ensures name in Order(role) && name in s.At(role).memory.authoritative ==>
              name in s.At(role).disk.files
              && cfg.sha(s.At(role).disk.files[name]) == s.At(role).memory.authoritative[name]
    ensures (role, slot) in Slots(s.List(role)) && slot in s.At(role).memory.hashes ==>
              slot in s.At(role).disk.evidence
              && cfg.sha(s.At(role).disk.evidence[slot]) == s.At(role).memory.hashes[slot]
  {
    if name in Order(role) {
      assert ArtifactOk(cfg, role, name, s.At(role).disk.seal.value, s.List(role), s.At(role), true);
    }
    if (role, slot) in Slots(s.List(role)) {
      KeysFind(s.List(role), role, Candidate, slot);
      EntryVerified(cfg, role, s.At(role), s.List(role), slot);
    }
  }

  // ------------------------------------------------------------- accepted runs

  /** What is listed of an attempt can be read: a record of this role and attempt, or a raw
      text whose metadata the marker bears out. */
  ghost predicate EvidenceReads(cfg: Config, s: State, role: Role, slot: Slot)
    requires s.Total()
  {
    var es := s.List(role);
    && FindSlot(es, role, slot).Some? && slot in s.At(role).disk.evidence
    && var (e, data) := (FindSlot(es, role, slot).value, s.At(role).disk.evidence[slot]);
       && !e.Model? && e.role == role && 1 <= slot.attempt && SlotOf(e) == slot
       && cfg.sha(data) == e.sha && |data| == e.bytes
       && (e.Meta? ==> cfg.parse(data).Some? && cfg.parse(data).value.role == role
                       && cfg.parse(data).value.attempt == slot.attempt)
       && (e.Raw? ==> RawEvidence.Verified(cfg.markers, data, e.truncated, e.storedBytes, e.observed))
  }

  lemma AcceptedEvidence(cfg: Config, s: State, p: Payload, record: Option<EvaluationRecord>, binding: EvaluatorBinding,
    role: Role, slot: Slot)
    requires s.Total() && Accepted(cfg, s, p, record, binding) && slot in s.At(role).disk.evidence
    ensures role in Workflow(cfg.condition) && EvidenceReads(cfg, s, role, slot)
  {
    var es := s.List(role);
    KeysFind(es, role, Candidate, slot);
    KeysFiltered(s.manifest, role);
    assert (role, slot) in Slots(s.manifest);
    EntryVerified(cfg, role, RoleState(s.roles[role].disk, EMPTY.memory), es, slot);
  }

  /** The stage list of an accepted run follows the workflow; its succeeded stages are the
      sealed ones; a recorded stage has the attempts 1 to its own, each once; and no role
      has attempts but those and, after successes only, the next in turn. */
  lemma AcceptedStages(cfg: Config, s: State, p: Payload, record: Option<EvaluationRecord>, binding: EvaluatorBinding,
    i: nat)
    requires s.Total() && Accepted(cfg, s, p, record, binding) && i < |p.stages|
    ensures var (workflow, stage) := (Workflow(cfg.condition), p.stages[i]);
      && i < |workflow| && stage.role == workflow[i] && (stage.status == Succeeded <==> Sealed(s, stage.role))
      && 1 <= stage.attempt && Numbered(Attempts(s.List(stage.role)), stage.attempt)
  {
    var workflow := Workflow(cfg.condition);
    assert StageFits(workflow, s, p.stages[i], i);
    forall j | 0 <= j < |p.stages| ensures j < |workflow| && p.stages[j].role == workflow[j] {
      assert StageFits(workflow, s, p.stages[j], j);
    }
    assert Follow(workflow, p.stages);
    FitRecorded(workflow, p.stages, i, Sorted(Attempts(s.List(workflow[i]))));
    assert workflow[i] in workflow;
    UptoNumbered(Attempts(s.List(workflow[i])), p.stages[i].attempt);
  }

  lemma AcceptedUnrecorded(cfg: Config, s: State, p: Payload, record: Option<EvaluationRecord>,
    binding: EvaluatorBinding, j: nat)
    requires s.Total() && Accepted(cfg, s, p, record, binding) && |p.stages| <= j < |Workflow(cfg.condition)|
    ensures !Sealed(s, Workflow(cfg.condition)[j])
    ensures Attempts(s.List(Workflow(cfg.condition)[j])) != [] ==>
              && j == |p.stages| && (p.stages != [] ==> p.stages[|p.stages| - 1].status == Succeeded)
              && Numbered(Attempts(s.List(Workflow(cfg.condition)[j])), |Attempts(s.List(Workflow(cfg.condition)[j]))|)
  {
    var workflow := Workflow(cfg.condition);
    var role, attempts := workflow[j], Attempts(s.List(workflow[j]));
    forall i | 0 <= i < |p.stages| ensures i < |workflow| && p.stages[i].role == workflow[i] {
      assert StageFits(workflow, s, p.stages[i], i);
    }
    RecordedNone(p.stages, role);
    SortedIs(attempts);
    assert |attempts| == |multiset(attempts)| == |multiset(Sorted(attempts))| == |Sorted(attempts)|;
    assert role in workflow && AttemptsFit(workflow, p.stages, role, Sorted(attempts));
    if attempts != [] {
      var n := Sorted(attempts)[|attempts| - 1];
      UptoNumbered(attempts, n);
      if p.stages != [] {
        IndexAt(workflow, |p.stages| - 1);
      }
    }
  }

  /** A run is accepted as succeeded or as failed in its evaluation exactly if its sealed
      topology is complete, and so only with all stages recorded, succeeded and sealed; as
      succeeded only with an evaluation on file that passed and that this evaluator made. */
  lemma AcceptedStatus(cfg: Config, s: State, p: Payload, record: Option<EvaluationRecord>, binding: EvaluatorBinding)
    requires s.Total() && Accepted(cfg, s, p, record, binding)
    ensures p.status == RunSucceeded || p.status == FailedEvaluation <==> Complete(cfg, s)
    ensures p.status == RunSucceeded || p.status == FailedEvaluation ==>
              && |p.stages| == |Workflow(cfg.condition)|
              && forall i :: 0 <= i < |p.stages| ==> p.stages[i].status == Succeeded && Sealed(s, p.stages[i].role)
    ensures p.status == RunSucceeded ==>
              && p.candidate.Some? && record.Some? && record.value.Evaluated? && record.value.outcome.passed
              && BoundTo(record.value.outcome, binding) && p.evaluation == Some(record.value.outcome)
              && p.candidate.value.0 == p.stages[|p.stages| - 1].role
              && p.candidate.value.1 == Primary(p.candidate.value.0)
    ensures p.status == FailedEvaluation ==>
              record.Some? && if record.value.Evaluated?
                              then !record.value.outcome.passed && BoundTo(record.value.outcome, binding)
                                   && p.evaluation == Some(record.value.outcome) && p.evaluationError.None?
                              else p.evaluation.None? && p.evaluationError == Some(record.value.error)
    ensures p.evaluation.Some? ==> record == Some(Evaluated(p.evaluation.value))
  {
    if p.status == RunSucceeded || p.status == FailedEvaluation {
      var workflow := Workflow(cfg.condition);
      forall j | 0 <= j < |p.stages| ensures j < |workflow| && p.stages[j].role == workflow[j] {
        assert StageFits(workflow, s, p.stages[j], j);
      }
      var last := workflow[|workflow| - 1];
      assert last in workflow && Sealed(s, last);
      var i :| 0 <= i < |p.stages| && p.stages[i].role == last && p.stages[i].status == Succeeded;
      assert i == |workflow| - 1;
      forall i | 0 <= i < |p.stages| ensures p.stages[i].status == Succeeded && Sealed(s, p.stages[i].role) {
        assert p.stages[i].role in workflow;
        AcceptedStages(cfg, s, p, record, binding, i);
      }
    }
  }
}
