/** How each store call moves a stage in progress: the lemmas the runner's methods use. */
module ProgressLemmas {
  import opened Wrappers
  import opened Roles
  import opened Manifest
  import opened Store
  import opened ArtifactStores
  import opened Terminal
  import opened Accounts
  import Utf8
  import RawEvidence

  predicate OthersAs(s0: State, s: State, role: Role)
    requires s0.Total() && s.Total()
  {
    forall r: Role :: r != role ==> s.roles[r] == s0.roles[r] && s.List(r) == s0.List(r)
  }

  /** A stage in progress since `s0`, with its first `k` attempts on record. */
  ghost predicate Mid(cfg: Config, s0: State, s: State, role: Role, k: nat)
    requires s0.Total()
  {
    && Healthy(cfg, s) && OthersAs(s0, s, role) && role in Workflow(cfg.condition)
    && Attempts(s.List(role)) == Upto(k)
  }

  /** No attempt beyond the first `k` has a directory. */
  predicate OpenUpto(s: State, role: Role, k: nat)
    requires s.Total()
  {
    forall a :: a in s.roles[role].disk.attempts ==> 1 <= a <= k
  }

  lemma HealthyFrom(cfg: Config, s0: State, s: State, role: Role)
    requires Healthy(cfg, s0) && Sound(cfg, s) && EvidenceOf(cfg, s, role) && OthersAs(s0, s, role)
    ensures Healthy(cfg, s)
  {
    forall r: Role ensures EvidenceOf(cfg, s, r) {
      assert EvidenceOf(cfg, s0, r);
    }
  }

  lemma AfterOthers(s0: State, s: State, role: Role, ts: Touches)
    requires s0.Total() && s.Total() && OthersAs(s0, s, role) && AllFair(role, ts)
    ensures OthersAs(s0, After(s, role, ts), role)
  {
    forall r: Role | r != role
      ensures After(s, role, ts).roles[r] == s0.roles[r] && After(s, role, ts).List(r) == s0.List(r)
    {
      OthersKept(s, role, ts, r);
    }
  }

  /** Any allowed effects that leave the evidence sound keep a stage in progress. */
  lemma EffectsMid(cfg: Config, s0: State, s: State, role: Role, k: nat, ts: Touches, n: nat)
    requires s0.Total() && Mid(cfg, s0, s, role, k) && AllAllowed(cfg, s, role, ts)
    requires EvidenceOf(cfg, After(s, role, ts), role) && Attempts(After(s, role, ts).List(role)) == Upto(n)
    ensures Mid(cfg, s0, After(s, role, ts), role, n)
  {
    SoundAfter(cfg, s, role, ts);
    AfterOthers(s0, s, role, ts);
    AfterOthers(s, s, role, ts);
    HealthyFrom(cfg, s, After(s, role, ts), role);
  }

  lemma RefusedMid(cfg: Config, s0: State, s: State, role: Role, k: nat, n: nat)
    requires s0.Total() && Mid(cfg, s0, s, role, k) && n !in s.At(role).disk.attempts
    ensures Mid(cfg, s0, After(s, role, And(Nothing, OpenAttempt(n))), role, k)
  {
    var ts := And(Nothing, OpenAttempt(n));
    assert EvidenceOf(cfg, s, role);
    OpenKeeps(cfg, s, role, n);
    assert After(s, role, ts) == Touched(s, role, OpenAttempt(n));
    EffectsMid(cfg, s0, s, role, k, ts, k);
  }

  lemma RecordedMid(cfg: Config, s0: State, s: State, role: Role, k: nat, raw: Option<Text>, record: Record)
    requires cfg.Lawful() && s0.Total() && Mid(cfg, s0, s, role, k) && Plain(cfg, raw)
    requires record.role == role && record.attempt == k + 1 && Records(cfg, role, k + 1, s.At(role))
    requires RawEvidence.Bounded(cfg.markers, raw, cfg.limit).Ok?
    ensures Mid(cfg, s0,
            After(s, role, Recorded(cfg, role, RawEvidence.Bounded(cfg.markers, raw, cfg.limit).value, record)), role,
              k + 1)
  {
    assert EvidenceOf(cfg, s, role);
    RecordKeeps(cfg, s, role, raw, record);
    EffectsMid(cfg, s0, s, role, k,
      Recorded(cfg, role, RawEvidence.Bounded(cfg.markers, raw, cfg.limit).value, record), k + 1);
  }

  /** Recording changes only evidence. */
  lemma {:induction false} RecordShape(s: State, role: Role, ts: Touches, k: nat)
    requires s.Total() && OnlyEvidence(ts, k + 1) && AllFair(role, ts)
    ensures var v := After(s, role, ts);
            && v.roles[role].disk == s.roles[role].disk.(evidence := v.roles[role].disk.evidence,
              attempts := v.roles[role].disk.attempts)
            && v.roles[role].memory == s.roles[role].memory.(hashes := v.roles[role].memory.hashes)
            && Models(v.List(role)) == Models(s.List(role)) && Keys(v.List(role)) == Keys(s.List(role))
            && (forall name :: Find(v.List(role), role, name) == Find(s.List(role), role, name))
            && v.roles[role].disk.attempts <= s.roles[role].disk.attempts + {k + 1}
  {
    if ts.And? {
      RecordShape(s, role, ts.past, k);
    }
  }

  predicate OnlyEvidence(ts: Touches, n: nat) {
    ts.And? ==> OnlyEvidence(ts.past, n) && IsEvidence(ts.last) && (ts.last.OpenAttempt? ==> ts.last.attempt == n)
                && (ts.last.ListEvidence? ==> !ts.last.entry.Model?)
  }

  lemma RecordedShape(cfg: Config, s: State, role: Role, ev: RawEvidence.Evidence, record: Record)
    requires s.Total() && record.role == role
    ensures var ts := Recorded(cfg, role, ev, record);
            OnlyEvidence(ts, record.attempt) && AllFair(role, ts)
  {
    var begun := And(Nothing, OpenAttempt(record.attempt));
    var past := RawRecorded(cfg, role, record.attempt, ev);
    assert OnlyEvidence(begun, record.attempt) && AllFair(role, begun);
    if ev.Present? {
      var data := Utf8.Encode(ev.text);
      var put := And(begun, PutEvidence(Slot(record.attempt, true), data, cfg.sha(data)));
      assert OnlyEvidence(put, record.attempt) && AllFair(role, put);
    }
    assert OnlyEvidence(past, record.attempt) && AllFair(role, past);
  }

  /** Recording neither commits nor seals: a bare role stays bare, a committed one
      committed, and only the one attempt is opened. */
  lemma RecordedKeeps(cfg: Config, s: State, role: Role, ev: RawEvidence.Evidence, record: Record)
    requires s.Total() && record.role == role && 1 <= record.attempt
    ensures var v := After(s, role, Recorded(cfg, role, ev, record));
            && (Clean(s, role) ==> Clean(v, role))
            && (Committed(cfg, role, s.At(role), s.List(role)) ==> Committed(cfg, role, v.At(role), v.List(role)))
            && v.At(role).disk.seal == s.At(role).disk.seal && v.At(role).memory.sealed == s.At(role).memory.sealed
            && (OpenUpto(s, role, record.attempt - 1) ==> OpenUpto(v, role, record.attempt))
  {
    var ts := Recorded(cfg, role, ev, record);
    RecordedShape(cfg, s, role, ev, record);
    RecordShape(s, role, ts, record.attempt - 1);
    var v := After(s, role, ts);
    if Committed(cfg, role, s.At(role), s.List(role)) {
      forall name | name in Order(role) ensures Places(cfg, role, v.At(role), v.List(role), name) {
        assert Places(cfg, role, s.At(role), s.List(role), name);
      }
    }
  }

  /** The two together, for the state `v` a recording left. */
  lemma RecordedAll(cfg: Config, s0: State, s: State, v: State, role: Role, k: nat, raw: Option<Text>, record: Record)
    requires cfg.Lawful() && s0.Total() && Mid(cfg, s0, s, role, k) && OpenUpto(s, role, k) && Plain(cfg, raw)
    requires record.role == role && record.attempt == k + 1 && Records(cfg, role, k + 1, s.At(role))
    requires RawEvidence.Bounded(cfg.markers, raw, cfg.limit).Ok?
    requires v == After(s, role, Recorded(cfg, role, RawEvidence.Bounded(cfg.markers, raw, cfg.limit).value, record))
    ensures v.Total() && Mid(cfg, s0, v, role, k + 1) && OpenUpto(v, role, k + 1) && (Clean(s, role) ==> Clean(v, role))
    ensures Committed(cfg, role, s.At(role), s.List(role)) ==> Committed(cfg, role, v.At(role), v.List(role))
  {
    RecordedMid(cfg, s0, s, role, k, raw, record);
    RecordedKeeps(cfg, s, role, RawEvidence.Bounded(cfg.markers, raw, cfg.limit).value, record);
  }

  /** Recording an attempt puts its line on disk and touches no other evidence. */
  lemma RecordedEvidence(cfg: Config, s: State, role: Role, line: Line, n: nat)
    requires Sound(cfg, s) && EvidenceOf(cfg, s, role) && n !in s.At(role).disk.attempts && line.record.attempt == n
    requires RawEvidence.Bounded(cfg.markers, KeptRaw(line.heard), cfg.limit).Ok?
    ensures var ev := RawEvidence.Bounded(cfg.markers, KeptRaw(line.heard), cfg.limit).value;
            var v := After(s, role, Recorded(cfg, role, ev, line.record));
            LineOnDisk(cfg, v.At(role), n, line) && SameBut(s.At(role), v.At(role), n)
            && v.At(role).disk.files == s.At(role).disk.files
  {
    KeysFiltered(s.manifest, role);
    assert Slot(n, true) !in s.At(role).disk.evidence;
    MetaPlaced(cfg, s, role, line.record, RawEvidence.Bounded(cfg.markers, KeptRaw(line.heard), cfg.limit).value);
  }

  /** The evidence with attempt `n`'s raw text, if there is one. */
  function WithRaw(evidence: map<Slot, Octets>, n: nat, ev: RawEvidence.Evidence): map<Slot, Octets> {
    if ev.Absent? then evidence else evidence[Slot(n, true) := Utf8.Encode(ev.text)]
  }

  lemma MetaPlaced(cfg: Config, s: State, role: Role, record: Record, ev: RawEvidence.Evidence)
    requires s.Total()
    ensures var r, v := s.At(role), After(s, role, Recorded(cfg, role, ev, record)).At(role);
            && v.disk.files == r.disk.files
            && v.disk.evidence == WithRaw(r.disk.evidence, record.attempt,
              ev)[Slot(record.attempt, false) := cfg.render(record)]
  {
    var n, meta := record.attempt, cfg.render(record);
    RawPlaced(cfg, s, role, n, ev);
    AfterTwo(s, role, RawRecorded(cfg, role, n, ev), PutEvidence(Slot(n, false), meta, cfg.sha(meta)),
             ListEvidence(Meta(role, n, cfg.sha(meta), |meta|)));
  }

  lemma RawPlaced(cfg: Config, s: State, role: Role, n: nat, ev: RawEvidence.Evidence)
    requires s.Total()
    ensures var v := After(s, role, RawRecorded(cfg, role, n, ev)).At(role);
            && v.disk.files == s.At(role).disk.files
            && v.disk.evidence == WithRaw(s.At(role).disk.evidence, n, ev)
  {
    var begun := And(Nothing, OpenAttempt(n));
    assert After(s, role, begun) == Touched(s, role, OpenAttempt(n));
    if ev.Present? {
      var data := Utf8.Encode(ev.text);
      AfterTwo(s, role, begun, PutEvidence(Slot(n, true), data, cfg.sha(data)),
               ListEvidence(Raw(role, n, cfg.sha(data), |data|, ev.truncated, ev.storedBytes, ev.observed)));
    }
  }

  /** Staging a candidate. */
  lemma StagedMid(cfg: Config, s0: State, s: State, role: Role, k: nat, name: Name, data: Octets)
    requires s0.Total() && Mid(cfg, s0, s, role, k)
    ensures var v := Touched(s, role, Stage(name, data));
            && Mid(cfg, s0, v, role, k) && v.List(role) == s.List(role)
            && v.At(role) == s.At(role).(disk := s.At(role).disk.(staging := s.At(role).disk.staging[name := data]))
  {
    var ts := And(Nothing, Stage(name, data));
    var v := Touched(s, role, Stage(name, data));
    assert After(s, role, ts) == v && AllAllowed(cfg, s, role, ts);
    assert EvidenceOf(cfg, s, role);
    EvidenceSame(cfg, role, s.At(role), v.At(role), s.List(role));
    EffectsMid(cfg, s0, s, role, k, ts, k);
  }

  /** Committing a complete set of candidates. */
  lemma CommitMid(cfg: Config, s0: State, s: State, role: Role, k: nat)
    requires s0.Total() && Mid(cfg, s0, s, role, k) && Staged(s, role) && OpenUpto(s, role, k)
    ensures Commits(cfg, role, s.At(role))
    ensures var v := After(s, role, Committing(cfg, role, s.At(role)));
            Mid(cfg, s0, v, role, k) && Committed(cfg, role, v.At(role), v.List(role)) && OpenUpto(v, role, k)
  {
    assert EvidenceOf(cfg, s, role);
    CommitAdmitted(cfg, s, role);
    CommitKeeps(cfg, s, role);
    EffectsMid(cfg, s0, s, role, k, Committing(cfg, role, s.At(role)), k);
  }

  /** The staged bytes of the first `n` names. */
  function Chosen(staging: map<Name, Octets>, names: seq<Name>, n: nat): map<Name, Octets>
    requires n <= |names| && forall i :: 0 <= i < |names| ==> names[i] in staging
  {
    if n == 0 then map[] else Chosen(staging, names, n - 1)[names[n - 1] := staging[names[n - 1]]]
  }

  lemma {:induction false} ChosenAll(staging: map<Name, Octets>, names: seq<Name>, n: nat)
    requires n <= |names| && forall i :: 0 <= i < |names| ==> names[i] in staging
    ensures forall name :: name in Chosen(staging, names, n) <==> name in names[..n]
    ensures forall name :: name in Chosen(staging, names, n) ==> Chosen(staging, names, n)[name] == staging[name]
  {
    if n > 0 {
      ChosenAll(staging, names, n - 1);
      assert names[..n] == names[..n - 1] + [names[n - 1]];
    }
  }

  lemma {:induction false} PromotionsFiles(cfg: Config, s: State, role: Role, staging: map<Name, Octets>,
    names: seq<Name>, n: nat)
    requires s.Total() && n <= |names| && (forall i :: 0 <= i < |names| ==> names[i] in staging)
             && s.At(role).disk.files == map[]
    ensures After(s, role, Promotions(cfg, staging, names, n)).At(role).disk.files == Chosen(staging, names, n)
  {
    if n > 0 {
      PromotionsFiles(cfg, s, role, staging, names, n - 1);
      AfterPromotedIs(cfg, s, role, Promotions(cfg, staging, names, n - 1), names[n - 1], staging[names[n - 1]]);
    }
  }

  lemma ChosenIsStaging(role: Role, staging: map<Name, Octets>)
    requires staging.Keys == Expected(role)
    ensures (forall i :: 0 <= i < |Order(role)| ==> Order(role)[i] in staging)
            && Chosen(staging, Order(role), |Order(role)|) == staging
  {
    var names := Order(role);
    assert forall i :: 0 <= i < |names| ==> names[i] in staging.Keys;
    ChosenAll(staging, names, |names|);
    assert names[..|names|] == names;
    assert forall name :: name in staging <==> name in names;
  }

  /** A commit leaves exactly the staged bytes as the role's files, and touches no evidence. */
  lemma CommittedFiles(cfg: Config, s: State, role: Role)
    requires role in Workflow(cfg.condition) && s.Total() && Staged(s, role)
    ensures var v := After(s, role, Committing(cfg, role, s.At(role)));
            && v.At(role).disk.files == s.At(role).disk.staging && v.At(role).disk.evidence == s.At(role).disk.evidence
            && v.At(role).disk.seal.None?
  {
    CommitAdmitted(cfg, s, role);
    ChosenIsStaging(role, s.At(role).disk.staging);
    NoKeys(s.List(role));
    PromotionsLeave(cfg, s, role, Order(role));
  }

  lemma PromotionsLeave(cfg: Config, s: State, role: Role, names: seq<Name>)
    requires s.Total() && NoRepeat(names) && Keys(s.List(role)) == {} && s.At(role).disk.files == map[]
    requires forall i :: 0 <= i < |names| ==> names[i] in s.At(role).disk.staging
    ensures var v := After(s, role, And(Promotions(cfg, s.At(role).disk.staging, names, |names|), Unstage)).At(role);
            && v.disk.files == Chosen(s.At(role).disk.staging, names, |names|)
            && v.disk.evidence == s.At(role).disk.evidence && v.disk.seal == s.At(role).disk.seal
  {
    PromotionsCommit(cfg, s, role, names, |names|);
    PromotionsFiles(cfg, s, role, s.At(role).disk.staging, names, |names|);
  }

  /** Sealing what is committed after exactly `k` attempts. */
  lemma SealMid(cfg: Config, s0: State, s: State, role: Role, k: nat)
    requires s0.Total() && Mid(cfg, s0, s, role, k) && Committed(cfg, role, s.At(role), s.List(role))
    ensures MaySeal(cfg, s, role, k)
    ensures var v := After(s, role, Sealing(cfg, role, s.List(role), k));
            && Mid(cfg, s0, v, role, k) && VerifySealed(cfg, v, role)
            && v.At(role).disk.seal.value.expectedAttempts == k
            && v.At(role).disk.attempts == s.At(role).disk.attempts
  {
    var v := After(s, role, Sealing(cfg, role, s.List(role), k));
    assert EvidenceOf(cfg, s, role);
    SortedUpto(k);
    SealVerifies(cfg, s, role, k);
    SealingIs(cfg, s, role, k);
    EvidenceSame(cfg, role, s.At(role), v.At(role), s.List(role));
    EffectsMid(cfg, s0, s, role, k, Sealing(cfg, role, s.List(role), k), k);
  }

  /** Commit, record and seal, one after the other. */
  function Transacted(cfg: Config, s: State, role: Role, ev: RawEvidence.Evidence, record: Record): State
    requires s.Total()
  {
    var u := After(s, role, Committing(cfg, role, s.At(role)));
    var v := After(u, role, Recorded(cfg, role, ev, record));
    After(v, role, Sealing(cfg, role, v.List(role), record.attempt))
  }

  lemma RecordedCommits(cfg: Config, u: State, role: Role, ev: RawEvidence.Evidence, record: Record)
    requires u.Total() && Committed(cfg, role, u.At(role), u.List(role)) && record.role == role && 1 <= record.attempt
    ensures var v := After(u, role, Recorded(cfg, role, ev, record));
            var w := After(v, role, Sealing(cfg, role, v.List(role), record.attempt));
            && w.Total() && Committed(cfg, role, w.At(role), w.List(role))
            && w.At(role).disk.files == u.At(role).disk.files
  {
    RecordedKeeps(cfg, u, role, ev, record);
    MetaPlaced(cfg, u, role, record, ev);
    var v := After(u, role, Recorded(cfg, role, ev, record));
    SealingIs(cfg, v, role, record.attempt);
    var w := After(v, role, Sealing(cfg, role, v.List(role), record.attempt));
    forall name | name in Order(role) ensures Places(cfg, role, w.At(role), w.List(role), name) {
      assert Places(cfg, role, v.At(role), v.List(role), name);
    }
  }

  /** The whole transaction: what was staged, then committed, recorded and sealed, is what
      any later verification that succeeds finds, or a hash collision is at hand. */
  lemma TransactionSound(cfg: Config, s: State, role: Role, ev: RawEvidence.Evidence, record: Record, tampered: State,
    name: Name)
    requires Sound(cfg, s) && EvidenceOf(cfg, s, role) && role in Workflow(cfg.condition) && Staged(s, role)
    requires record.role == role && 1 <= record.attempt
    requires tampered.Total() && VerifySealed(cfg, tampered, role) && name in Order(role)
    requires Transacted(cfg, s, role, ev, record).Total()
             && tampered.At(role).memory.authoritative == Transacted(cfg, s, role, ev,
               record).At(role).memory.authoritative
    ensures name in s.At(role).disk.staging && name in tampered.At(role).disk.files
    ensures var a, b := s.At(role).disk.staging[name], tampered.At(role).disk.files[name];
            a == b || (a != b && cfg.sha(a) == cfg.sha(b))
  {
    CommitKeeps(cfg, s, role);
    CommittedFiles(cfg, s, role);
    RecordedCommits(cfg, After(s, role, Committing(cfg, role, s.At(role))), role, ev, record);
    SealsSound(cfg, Transacted(cfg, s, role, ev, record), tampered, role, name);
  }

  /** Rolling back at any point. */
  lemma AbortMid(cfg: Config, s0: State, s: State, role: Role, k: nat)
    requires s0.Total() && Mid(cfg, s0, s, role, k)
    ensures var v := Aborted(s, role);
            Mid(cfg, s0, v, role, k) && Clean(v, role) && v.At(role).disk.attempts == s.At(role).disk.attempts
            && v.At(role).disk.evidence == s.At(role).disk.evidence
  {
    var v := Aborted(s, role);
    SoundAborted(cfg, s, role);
    assert Named(s, role) && EvidenceOf(cfg, s, role);
    AbortCleans(s, role);
    WithoutModelsOf(s.manifest, role, role);
    AttemptsFiltered(s.List(role));
    KeysFiltered(s.List(role), role);
    EvidenceSame(cfg, role, s.At(role), v.At(role), s.List(role));
    forall r: Role | r != role ensures v.roles[r] == s0.roles[r] && v.List(r) == s0.List(r) {
      AbortKeepsOthers(s, role, r);
    }
    forall r: Role ensures EvidenceOf(cfg, v, r) {
      if r != role {
        assert EvidenceOf(cfg, s, r);
        AbortKeepsOthers(s, role, r);
      }
    }
  }

  // ------------------------------------------------------------- the whole run

  /** A stage in progress leaves the finished ones finished and the later ones untouched. */
  lemma ProgressMid(cfg: Config, s0: State, s: State, stages: seq<StageResult>, i: nat, k0: nat, k: nat)
    requires Progress(cfg, s0, stages, i, k0) && i < |Workflow(cfg.condition)|
    requires Mid(cfg, s0, s, Workflow(cfg.condition)[i], k)
    ensures Progress(cfg, s, stages, i, k)
  {
    var workflow := Workflow(cfg.condition);
    SoundManifest(cfg, s);
    forall j | 0 <= j < i ensures Finished(cfg, s, workflow[j], stages[j]) {
      assert Finished(cfg, s0, workflow[j], stages[j]) && workflow[j] != workflow[i];
    }
    forall j | i < j < |workflow| ensures Untouched(s, workflow[j]) {
      assert Untouched(s0, workflow[j]) && workflow[j] != workflow[i];
    }
    forall role: Role | role !in workflow ensures Untouched(s, role) {
      assert Untouched(s0, role);
    }
  }

  /** A stage that verifies is one more finished stage. */
  lemma ProgressNext(cfg: Config, s: State, stages: seq<StageResult>, i: nat, k: nat, stage: StageResult)
    requires Progress(cfg, s, stages, i, k) && i < |Workflow(cfg.condition)| && |stages| == i
    requires Finished(cfg, s, Workflow(cfg.condition)[i], stage)
    ensures Progress(cfg, s, stages + [stage], i + 1, 0)
  {
    var workflow := Workflow(cfg.condition);
    if i + 1 < |workflow| {
      assert Untouched(s, workflow[i + 1]);
    }
  }

  /** Remembering that a finished stage is sealed changes nothing that is asked of it. */
  lemma MarkKeeps(cfg: Config, s: State, stages: seq<StageResult>, i: nat, k: nat, j: nat)
    requires Progress(cfg, s, stages, i, k) && j < i
    ensures Progress(cfg, Touched(s, Workflow(cfg.condition)[j], MarkSealed), stages, i, k)
    ensures Finished(cfg, Touched(s, Workflow(cfg.condition)[j], MarkSealed), Workflow(cfg.condition)[j], stages[j])
  {
    var workflow := Workflow(cfg.condition);
    var role := workflow[j];
    var v := Touched(s, role, MarkSealed);
    SoundStep(cfg, s, role, MarkSealed);
    assert EvidenceOf(cfg, s, role);
    EvidenceSame(cfg, role, s.At(role), v.At(role), s.List(role));
    HealthyFrom(cfg, s, v, role);
    forall a | 0 <= a < i ensures Finished(cfg, v, workflow[a], stages[a]) {
      assert Finished(cfg, s, workflow[a], stages[a]);
      if workflow[a] == role {
        MarkedSealOk(cfg, role, s.At(role), s.List(role));
      }
    }
    forall a | i < a < |workflow| ensures Untouched(v, workflow[a]) {
      assert Untouched(s, workflow[a]) && workflow[a] != role;
    }
    forall r: Role | r !in workflow ensures Untouched(v, r) {
      assert Untouched(s, r);
    }
  }

  lemma MarkedSealOk(cfg: Config, role: Role, r: RoleState, es: Entries)
    requires SealOk(cfg, role, r, es, true)
    ensures SealOk(cfg, role, r.(memory := r.memory.(sealed := true)), es, true)
  {
    var v := r.(memory := r.memory.(sealed := true));
    EvidenceSame(cfg, role, r, v, es);
    forall name | name in Order(role) ensures ArtifactOk(cfg, role, name, v.disk.seal.value, es, v, true) {
      assert ArtifactOk(cfg, role, name, r.disk.seal.value, es, r, true);
    }
  }

  /** Rolling back the first unfinished stage. */
  lemma AbortProgress(cfg: Config, s: State, stages: seq<StageResult>, i: nat, k: nat)
    requires Progress(cfg, s, stages, i, k) && i < |Workflow(cfg.condition)|
    ensures var v := Aborted(s, Workflow(cfg.condition)[i]);
            && v.Total() && Progress(cfg, v, stages, i, k) && Clean(v, Workflow(cfg.condition)[i])
            && Attempts(v.List(Workflow(cfg.condition)[i])) == Attempts(s.List(Workflow(cfg.condition)[i]))
  {
    AbortMid(cfg, s, s, Workflow(cfg.condition)[i], k);
    ProgressMid(cfg, s, Aborted(s, Workflow(cfg.condition)[i]), stages, i, k, k);
  }
}
