/** The experiment runner: one stage after another through the retrying loop, the commit
    transaction and its rollback, the evaluation, and what an interrupt leaves. */
module Runner {
  import opened Wrappers
  import opened Roles
  import opened Manifest
  import opened Store
  import opened ArtifactStores
  import opened Terminal
  import opened ProgressLemmas
  import opened Accounts
  import opened Handoff
  import FindingLists = Findings
  import RawEvidence
  import Utf8

  datatype EvaluatorAnswer = Judged(passed: bool) | EvaluatorRaised(error: string) | EvaluatorInterrupted

  /** Why a transaction stopped: the clock was seen past the deadline, or something was thrown. */
  datatype Setback = TooLate(late: Reading) | Thrown(raise: Raise)

  /** How many looks at the clock attempt `n` of a stage may come after the first. */
  function Span(n: nat): nat { 5 * n + 12 }

  /** The first `n` expected texts are staged and nothing is committed. */
  predicate StagedPart(s: State, role: Role, names: seq<Name>, n: nat, texts: map<Name, Text>)
    requires s.Total() && n <= |names|
  {
    var r := s.roles[role];
    && r.disk.staging.Keys == (set name | name in names[..n]) && r.disk.files == map[] && r.disk.seal.None?
    && (forall i :: 0 <= i < n ==> names[i] in texts && r.disk.staging[names[i]] == Utf8.Encode(texts[names[i]]))
    && !r.memory.sealed && r.memory.authoritative == map[] && Models(s.List(role)).Blank?
  }

  class ExperimentRunner {
    const store: ArtifactStore
    const limits: Limits
    const estimate: Role -> nat
    const clock: nat -> int
    /** What call number n answers, for a role and the inputs it is given. */
    const answers: (nat, Role, Context) -> Answer
    const raws: nat -> Option<Text>
    const task: Text
    const evaluator: EvaluatorAnswer
    const binding: EvaluatorBinding
    var ticks: nat
    var calls: nat
    /** The reading of the clock that the stage's deadline is counted from. */
    var start: nat
    /** What the stages have handed on, what this stage may see of it, and the findings. */
    var context: Context
    var inputs: Context
    var known: seq<FindingLists.Finding>
    /** The interrupt arrives once this many more pauses have passed. */
    var fuel: nat
    /** The attempts of the current stage, and how many stages are finished. */
    ghost var log: seq<Line>
    ghost var done: nat
    var stages: seq<StageResult>
    var executed: seq<Role>
    var status: RunStatus
    var candidate: Option<(Role, Name)>
    var evaluationStarted: bool
    var evaluationCommitted: bool
    var evaluation: Option<Outcome>
    var evaluationError: Option<string>
    /** evaluation.json */
    var evaluationFile: Option<EvaluationRecord>

    constructor (store: ArtifactStore, limits: Limits, estimate: Role -> nat, clock: nat -> int,
                 answers: (nat, Role, Context) -> Answer, raws: nat -> Option<Text>, task: Text,
                 evaluator: EvaluatorAnswer, binding: EvaluatorBinding, fuel: nat)
      ensures this.store == store && this.limits == limits && this.estimate == estimate && this.clock == clock
      ensures this.answers == answers && this.raws == raws && this.task == task
      ensures this.evaluator == evaluator && this.binding == binding
      ensures context == map[Task := task] && known == []
      ensures stages == [] && executed == [] && status == RunSucceeded && candidate.None? && done == 0
              && this.fuel == fuel
      ensures !evaluationStarted && !evaluationCommitted && evaluation.None? && evaluationError.None?
              && evaluationFile.None?
    {
      this.store, this.limits, this.estimate, this.clock, this.answers := store, limits, estimate, clock, answers;
      this.raws, this.task, this.evaluator, this.binding, this.fuel := raws, task, evaluator, binding, fuel;
      ticks, calls, start, log, done := 0, 0, 0, [], 0;
      context, inputs, known := map[Task := task], map[], [];
      stages, executed, status, candidate := [], [], RunSucceeded, None;
      evaluationStarted, evaluationCommitted, evaluation, evaluationError, evaluationFile := false, false, None, None,
        None;
    }

    /** What the world outside answers, as functions that no state can change. */
    function Time(n: nat): int { clock(n) }

    function Tokens(role: Role): nat { estimate(role) }

    function Reply(n: nat, role: Role, i: Context): Answer { answers(n, role, i) }

    function RawText(n: nat): Option<Text> { raws(n) }

    /** Lawful formats, and raw texts the evidence classifier does not mistake. */
    ghost predicate Setting() {
      store.cfg.Lawful() && limits.condition == store.cfg.condition && forall n :: Plain(store.cfg, RawText(n))
    }

    // ---------------------------------------------------------------- accounts

    /** The answer of a call of this role with these inputs. */
    ghost predicate Given(role: Role, e: Exchange) {
      && (exists n :: Reply(n, role, e.inputs) == e.answer && RawText(n) == e.raw)
      && Informed(role, e.inputs, e.known)
    }

    /** Findings that a verifier stated in some answer, or none. */
    ghost predicate Learned(findings: seq<FindingLists.Finding>) {
      findings == [] || exists n, i: Context :: Stated(n, i, findings)
    }

    ghost predicate Stated(n: nat, i: Context, findings: seq<FindingLists.Finding>) {
      Reply(n, Verifier, i).Responded? && FindingsOf(limits, Reply(n, Verifier, i).response) == findings
    }

    /** What a reviser of Condition C is shown of the known findings is their canonical text. */
    ghost predicate Informed(role: Role, i: Context, findings: seq<FindingLists.Finding>) {
      && Learned(findings)
      && (role == Reviser && limits.condition == C ==>
            VerifierFindings in i && i[VerifierFindings] == FindingLists.CanonicalText(limits.grammar, findings))
    }

    /** A reading of this clock, compared with a deadline one timeout after the stage began,
        and not many readings after it. */
    ghost predicate Real(r: Reading, attempt: nat) {
      && r.at == Time(r.tick) && r.deadlineAt == Time(r.start) + limits.timeout
      && r.start < r.tick <= r.start + Span(attempt)
    }

    ghost predicate Genuine(line: Line) {
      && Real(line.reading, line.record.attempt)
      && (line.heard.Some? ==> Real(line.heard.value.launched, line.record.attempt))
    }

    ghost predicate Witnessed(role: Role, line: Line) {
      && Genuine(line) && line.record.projected == Tokens(role)
      && (line.heard.Some? ==> Given(role, line.heard.value))
    }

    /** The lines are about answers that were given and readings that were taken, and they
        are on disk. */
    ghost predicate Kept(s: State, role: Role, log: seq<Line>)
      requires s.Total()
    {
      && (forall j {:trigger Witnessed(role, log[j])} :: 0 <= j < |log| ==> Witnessed(role, log[j]))
      && OnDisk(store.cfg, s.At(role), log)
    }

    predicate Uses(line: Line, i: Context) { line.heard.Some? ==> line.heard.value.inputs == i }

    predicate SameInputs(log: seq<Line>, i: Context) {
      forall j {:trigger Uses(log[j], i)} :: 0 <= j < |log| ==> Uses(log[j], i)
    }

    /** Every call of the stage was given the same inputs: the assignment and what is sealed. */
    ghost predicate Supplied(s: State, role: Role, log: seq<Line>, i: Context)
      requires s.Total()
    {
      SameInputs(log, i) && ((exists j :: 0 <= j < |log| && log[j].heard.Some?) ==> Fed(limits, task, s, role, i))
    }

    /** The evidence of a role is a whole account of its attempts, and what it has sealed is
        the output of the response that the last of them accepted. */
    ghost predicate IsAccount(s: State, role: Role, log: seq<Line>, i: Context)
      requires s.Total()
    {
      && |log| == |Attempts(s.List(role))| && Closing(log, role, limits) && Kept(s, role, log)
      && Supplied(s, role, log, i) && (Sealed(s, role) ==> Sourced(limits, s.At(role), role, log))
    }

    ghost predicate HasAccount(s: State, role: Role)
      requires s.Total()
    {
      exists log: seq<Line>, i: Context :: IsAccount(s, role, log, i)
    }

    ghost predicate AllHaveAccounts(s: State) { s.Total() && forall r: Role :: HasAccount(s, r) }

    lemma SuppliedSame(s: State, v: State, role: Role, log: seq<Line>, i: Context)
      requires s.Total() && v.Total() && Supplied(s, role, log, i) && (log != [] ==> FeedSame(limits, s, v, role))
      ensures Supplied(v, role, log, i)
    {
      if exists j :: 0 <= j < |log| && log[j].heard.Some? {
        FedSame(limits, task, s, v, role, i);
      }
    }

    lemma AccountSame(s: State, v: State, role: Role)
      requires s.Total() && v.Total() && HasAccount(s, role) && Attempts(v.List(role)) == Attempts(s.List(role))
      requires Attempts(s.List(role)) == [] || FeedSame(limits, s, v, role)
      requires v.At(role).disk.evidence == s.At(role).disk.evidence
      requires v.At(role).disk.seal.None?
               || (v.At(role).disk.files == s.At(role).disk.files && v.At(role).disk.seal == s.At(role).disk.seal)
      ensures HasAccount(v, role)
    {
      var log: seq<Line>, i: Context :| IsAccount(s, role, log, i);
      OnDiskSame(store.cfg, s.At(role), v.At(role), log);
      SuppliedSame(s, v, role, log, i);
      assert IsAccount(v, role, log, i);
    }

    /** Nobody has read what a role puts out, or it is unchanged. */
    ghost predicate Unread(s0: State, s: State, role: Role)
      requires s0.Total() && s.Total()
    {
      || (s.At(role).disk.files == s0.At(role).disk.files && s.At(role).disk.seal == s0.At(role).disk.seal)
      || forall r: Role :: Feeds(limits.condition, role, r) ==> Attempts(s0.List(r)) == []
    }

    lemma AllAccountsFrom(s0: State, s: State, role: Role)
      requires AllHaveAccounts(s0) && s.Total() && OthersAs(s0, s, role) && HasAccount(s, role) && Unread(s0, s, role)
      ensures AllHaveAccounts(s)
    {
      forall r: Role ensures HasAccount(s, r) {
        if r != role {
          assert HasAccount(s0, r);
          FeedFrom(s0, s, role, r);
          AccountSame(s0, s, r);
        }
      }
    }

    lemma FeedFrom(s0: State, s: State, role: Role, r: Role)
      requires s0.Total() && s.Total() && OthersAs(s0, s, role) && Unread(s0, s, role)
      ensures Attempts(s0.List(r)) == [] || FeedSame(limits, s0, s, r)
    {
      if Attempts(s0.List(r)) != [] {
        forall source: Role | Feeds(limits.condition, source, r)
          ensures s.At(source).disk.files == s0.At(source).disk.files
                  && s.At(source).disk.seal == s0.At(source).disk.seal
        {
        }
      }
    }

    /** The stages that could read this one's output have not begun. */
    lemma LaterUnread(s0: State, s: State, i: nat, k: nat)
      requires limits.condition == store.cfg.condition && i < |Flow()| && s.Total()
      requires Progress(store.cfg, s0, stages, i, k)
      ensures Unread(s0, s, Flow()[i])
    {
      forall r: Role | Feeds(limits.condition, Flow()[i], r) ensures Attempts(s0.List(r)) == [] {
        FeedsLater(limits.condition, i, r);
        var j :| i < j < |Flow()| && Flow()[j] == r;
        assert Untouched(s0, Flow()[j]);
      }
    }

    /** What can have been thrown, and by whom. */
    ghost predicate Cause(raise: Raise)
      reads this`fuel
    {
      match raise
      case Interrupt => fuel == 0 || evaluator.EvaluatorInterrupted? 
        || exists n, role: Role, i: Context :: role in Flow() && Reply(n, role, i) == OtherFailed(Interrupt)
      case GovernanceRaise => exists n, role: Role, i: Context :: role in Flow() && Improper(Reply(n, role, i))
      case OrdinaryRaise =>
        exists n, role: Role, i: Context :: role in Flow() && Faulty(role, Reply(n, role, i), RawText(n))
    }

    ghost predicate Improper(answer: Answer) {
      answer == OtherFailed(GovernanceRaise) || (answer.Responded? && !answer.response.identityOk)
    }

    /** The harness failed, or something was said that cannot be written down. */
    ghost predicate Faulty(role: Role, answer: Answer, raw: Option<Text>) {
      || answer.HarnessFailed? || answer == OtherFailed(OrdinaryRaise)
      || RawEvidence.Bounded(store.cfg.markers, raw, store.cfg.limit).Err?
      || (answer.Responded? && Unwritable(role, answer.response))
    }

    /** Some text to be committed has no encoding; canonical findings always have one. */
    ghost predicate Unwritable(role: Role, response: Response) {
      exists name :: name in response.artifacts && (role == Verifier ==> name != Findings)
                     && !Utf8.AllScalar(response.artifacts[name])
    }

    // ------------------------------------------------------------ where a stage stands

    /** The inputs of this stage are what it may see of the state it began in. Here and below
        a quantifier, or a name for the whole, keeps a definition from being unfolded where
        it is only passed on. */
    ghost predicate Provided(s0: State, role: Role)
      requires s0.Total()
      reads this`inputs
    {
      forall i: Context {:trigger Fed(limits, task, s0, role, i)} :: i == inputs ==> Fed(limits, task, s0, role, i)
    }

    /** What this stage's role is told of the known findings. */
    ghost predicate Briefed(role: Role)
      reads this`inputs, this`known
    {
      forall f: seq<FindingLists.Finding> {:trigger Informed(role, inputs, f)} ::
        f == known ==> Informed(role, inputs, f)
    }

    /** Since `s0` the role has its first `k` attempts on record and nothing committed. */
    ghost predicate AtWork(s0: State, role: Role, k: nat)
      reads store, this`inputs
    {
      && s0.Total() && Provided(s0, role) && store.Now().Total() && Mid(store.cfg, s0, store.Now(), role, k)
      && OpenUpto(store.Now(), role, k) && Clean(store.Now(), role)
    }

    /** The same, where the number of attempts no longer matters. */
    ghost predicate Halted(s0: State, role: Role)
      reads store
    {
      && s0.Total() && store.Now().Total() && Clean(store.Now(), role) && HasAccount(store.Now(), role)
      && Mid(store.cfg, s0, store.Now(), role, |Attempts(store.Now().List(role))|)
    }

    /** The attempts of this stage so far: witnessed, on disk, with one set of inputs and one
        deadline. */
    ghost predicate Tracked(role: Role)
      requires store.Now().Total()
      reads this`log, this`inputs, this`start, store
    {
      Kept(store.Now(), role, log) && SameInputs(log, inputs) && Since(log, start)
    }

    ghost predicate StillRetrying(role: Role, k: nat, cumulative: nat)
      reads this`log, this`inputs, this`start, store
    {
      store.Now().Total() && Retrying(log, role, limits, k, cumulative) && Tracked(role)
    }

    ghost predicate HasEnded(role: Role, k: nat)
      reads this`log, this`inputs, this`start, store
    {
      store.Now().Total() && Ended(log, role, limits, k) && Tracked(role)
    }

    /** The account so far, whether or not it is finished. */
    ghost predicate Accounted(role: Role, k: nat)
      reads this`log, this`inputs, this`start, store
    {
      store.Now().Total() && |log| == k && Closing(log, role, limits) && Tracked(role)
    }

    function Final(attempt: nat): bool { attempt == limits.maxRetries + 1 }

    /** Some look at the clock in an attempt found the deadline passed. */
    ghost predicate WasLate(attempt: nat) { exists late: Reading :: Real(late, attempt) && !late.InTime() }

    /** How a stage that is lost reports it; a promotion on record was too late. */
    ghost predicate LossFits(log: seq<Line>, result: StageResult, status: RunStatus) {
      && log != [] && (log[|log| - 1].record.decision == Promote ==> WasLate(|log|))
      && status == StatusFor(log[|log| - 1]) && result.outputs == {} && result.attempt == |log|
      && result.status == if status == RunRetryExhausted then RetryExhausted else HardFailed
    }

    /** A look at the clock in this stage's attempt. */
    ghost predicate Looked(r: Reading, attempt: nat)
      reads this`start
    {
      Real(r, attempt) && r.start == start
    }

    /** A call of this stage's attempt. */
    ghost predicate Exchanged(role: Role, attempt: nat, e: Exchange)
      reads this`inputs, this`start
    {
      && role in Flow() && e.inputs == inputs && Looked(e.launched, attempt) && e.launched.InTime()
      && forall x: Exchange {:trigger Given(role, x)} :: x == e ==> Given(role, x)
    }

    /** A response that was accepted in time, with what it puts out; the findings it states
        are known now. */
    ghost predicate Worthy(won: StageOutcome, role: Role)
      reads this`inputs, this`start, this`known
    {
      && won.Won? && 1 <= won.attempt <= limits.maxRetries + 1 && Passed(won, role)
      && won.heard.answer == Responded(won.response) && Exchanged(role, won.attempt, won.heard)
      && Looked(won.reading, won.attempt) && won.reading.InTime() && won.heard.launched.tick < won.reading.tick
      && Tokens(role) <= won.cumulative <= limits.ceiling
    }

    /** The response passed its checks; this is what it puts out and what is known after it. */
    ghost predicate Passed(won: StageOutcome, role: Role)
      requires won.Won?
      reads this`known
    {
      forall r: Response {:trigger Acceptable(limits, role, r, won.heard.known)} :: r == won.response ==>
        && Acceptable(limits, role, r, won.heard.known) && won.artifacts == Output(limits, role, r)
        && known == KnownAfter(limits.grammar, role, r.structured, won.heard.known)
    }

    method Pause() returns (interrupted: bool)
      modifies this`fuel
      ensures interrupted <==> old(fuel) == 0
      ensures fuel == if old(fuel) == 0 then 0 else old(fuel) - 1
    {
      interrupted := fuel == 0;
      fuel := if fuel == 0 then 0 else fuel - 1;
    }

    /** The deadline is counted from the stage's start, and at most `n` readings were taken since. */
    ghost predicate Running(deadlineAt: int, n: nat)
      reads this`start, this`ticks
    {
      deadlineAt == Time(start) + limits.timeout && start < ticks <= start + n
    }

    method Look(deadlineAt: int) returns (reading: Reading)
      modifies this`ticks
      ensures reading == Reading(start, old(ticks), Time(old(ticks)), deadlineAt) && ticks == old(ticks) + 1
    {
      reading := Reading(start, ticks, Time(ticks), deadlineAt);
      ticks := ticks + 1;
    }

    lemma GivenPlain(role: Role, heard: Option<Exchange>)
      requires Setting() && (heard.Some? ==> Given(role, heard.value))
      ensures Plain(store.cfg, KeptRaw(heard))
    {
      if heard.Some? {
        var n :| Reply(n, role, heard.value.inputs) == heard.value.answer && RawText(n) == heard.value.raw;
        assert Plain(store.cfg, RawText(n));
      }
    }

    /** Record the next attempt, or, when its text cannot be kept, only open it. */
    method PutRecord(role: Role, line: Line, ghost s0: State, ghost k: nat) returns (ok: bool)
      requires Setting() && line.record.role == role && line.record.attempt == k + 1
               && (line.heard.Some? ==> Given(role, line.heard.value))
      requires s0.Total() && store.Now().Total() && Mid(store.cfg, s0, store.Now(), role, k)
               && OpenUpto(store.Now(), role, k)
      modifies store
      ensures store.Now().Total() && Mid(store.cfg, s0, store.Now(), role, if ok then k + 1 else k)
      ensures ok ==> OpenUpto(store.Now(), role, k + 1)
      ensures old(Clean(store.Now(), role)) ==> Clean(store.Now(), role)
      ensures ok && old(Committed(store.cfg, role, store.Now().At(role), store.Now().List(role)))
              ==> Committed(store.cfg, role, store.Now().At(role), store.Now().List(role))
      ensures ok ==>
                LineOnDisk(store.cfg, store.Now().At(role), k + 1, line)
                  && SameBut(old(store.Now()).At(role), store.Now().At(role), k + 1)
      ensures ok ==> store.Now().At(role).disk.files == old(store.Now()).At(role).disk.files
      ensures !ok ==> store.Now().At(role).disk.evidence == old(store.Now()).At(role).disk.evidence
      ensures store.Now().At(role).disk.seal == old(store.Now()).At(role).disk.seal
      ensures !ok ==> Cause(OrdinaryRaise)
    {
      ghost var s := store.Now();
      GivenPlain(role, line.heard);
      assert Records(store.cfg, role, k + 1, s.At(role));
      var error := store.RecordInvocation(role, line.record.attempt, line.record, KeptRaw(line.heard));
      ok := error.None?;
      if ok {
        LinePut(s0, s, store.Now(), role, k, line);
      } else {
        LineRefused(s0, s, store.Now(), role, k, line);
      }
    }

    lemma LineRefused(s0: State, s: State, v: State, role: Role, k: nat, line: Line)
      requires s0.Total() && Mid(store.cfg, s0, s, role, k) && OpenUpto(s, role, k)
               && (line.heard.Some? ==> Given(role, line.heard.value))
      requires RawEvidence.Bounded(store.cfg.markers, KeptRaw(line.heard), store.cfg.limit).Err?
      requires v == After(s, role, And(Nothing, OpenAttempt(k + 1)))
      ensures v.Total() && Mid(store.cfg, s0, v, role, k) && (Clean(s, role) ==> Clean(v, role)) && Cause(OrdinaryRaise)
      ensures v.At(role).disk.evidence == s.At(role).disk.evidence && v.At(role).disk.seal == s.At(role).disk.seal
    {
      OpenedOnly(s, role, k + 1);
      RefusedMid(store.cfg, s0, s, role, k, k + 1);
      UnkeptCause(role, line.heard);
    }

    lemma LinePut(s0: State, s: State, v: State, role: Role, k: nat, line: Line)
      requires Setting() && line.record.role == role && line.record.attempt == k + 1
               && Plain(store.cfg, KeptRaw(line.heard))
      requires s0.Total() && Mid(store.cfg, s0, s, role, k) && OpenUpto(s, role, k)
               && Records(store.cfg, role, k + 1, s.At(role))
      requires RawEvidence.Bounded(store.cfg.markers, KeptRaw(line.heard), store.cfg.limit).Ok?
      requires v == After(s, role,
               Recorded(store.cfg, role,
                 RawEvidence.Bounded(store.cfg.markers, KeptRaw(line.heard), store.cfg.limit).value, line.record))
      ensures v.Total() && Mid(store.cfg, s0, v, role, k + 1) && OpenUpto(v, role, k + 1)
              && (Clean(s, role) ==> Clean(v, role))
      ensures Committed(store.cfg, role, s.At(role), s.List(role))
              ==> Committed(store.cfg, role, v.At(role), v.List(role))
      ensures LineOnDisk(store.cfg, v.At(role), k + 1, line) && SameBut(s.At(role), v.At(role), k + 1)
      ensures v.At(role).disk.files == s.At(role).disk.files && v.At(role).disk.seal == s.At(role).disk.seal
    {
      RecordedAll(store.cfg, s0, s, v, role, k, KeptRaw(line.heard), line.record);
      assert EvidenceOf(store.cfg, s, role);
      RecordedEvidence(store.cfg, s, role, line, k + 1);
      RecordedKeeps(store.cfg, s, role,
        RawEvidence.Bounded(store.cfg.markers, KeptRaw(line.heard), store.cfg.limit).value, line.record);
    }

    lemma OpenedOnly(s: State, role: Role, n: nat)
      requires s.Total()
      ensures var v := After(s, role, And(Nothing, OpenAttempt(n)));
              && v == State(s.roles[role := s.At(role).(disk := s.At(role).disk.(attempts := s.At(role).disk.attempts
                + {n}))], s.manifest)
              && (Clean(s, role) ==> Clean(v, role))
    {
      assert After(s, role, And(Nothing, OpenAttempt(n))) == Touched(s, role, OpenAttempt(n));
    }

    /** Text that cannot be kept was somebody's answer. */
    lemma UnkeptCause(role: Role, heard: Option<Exchange>)
      requires role in Flow() && (heard.Some? ==> Given(role, heard.value))
      ensures RawEvidence.Bounded(store.cfg.markers, KeptRaw(heard), store.cfg.limit).Err? ==> Cause(OrdinaryRaise)
    {
      if heard.Some? {
        var n :| Reply(n, role, heard.value.inputs) == heard.value.answer && RawText(n) == heard.value.raw;
        assert RawEvidence.Bounded(store.cfg.markers, KeptRaw(heard), store.cfg.limit).Err?
          ==> Faulty(role, Reply(n, role, heard.value.inputs), RawText(n));
      }
    }

    lemma KeptGrows(s: State, v: State, role: Role, log: seq<Line>, line: Line)
      requires s.Total() && v.Total() && Kept(s, role, log) && Witnessed(role, line)
      requires SameBut(s.At(role), v.At(role), |log| + 1) && LineOnDisk(store.cfg, v.At(role), |log| + 1, line)
      ensures Kept(v, role, log + [line])
    {
      OnDiskGrows(store.cfg, s.At(role), v.At(role), log, line);
      forall j | 0 <= j < |log + [line]| ensures Witnessed(role, (log + [line])[j]) {
        assert j < |log| ==> Witnessed(role, log[j]);
      }
    }

    lemma UsesGrow(log: seq<Line>, line: Line, i: Context)
      requires SameInputs(log, i) && Uses(line, i)
      ensures SameInputs(log + [line], i)
    {
      forall j | 0 <= j < |log + [line]| ensures Uses((log + [line])[j], i) {
        assert j < |log| ==> Uses(log[j], i);
      }
    }

    lemma KeptSame(s: State, v: State, role: Role, log: seq<Line>)
      requires s.Total() && v.Total() && Kept(s, role, log) && v.At(role).disk.evidence == s.At(role).disk.evidence
      ensures Kept(v, role, log)
    {
      OnDiskSame(store.cfg, s.At(role), v.At(role), log);
    }

    /** A witnessed line of this stage. */
    ghost predicate OfStage(role: Role, line: Line)
      reads this`inputs, this`start
    {
      Witnessed(role, line) && line.reading.start == start && Uses(line, inputs)
    }

    method RecordAttempt(role: Role, line: Line, ghost s0: State, ghost k: nat) returns (raise: Option<Raise>)
      requires Setting() && AtWork(s0, role, k) && line.record.role == role && line.record.attempt == k + 1
      requires |log| == k && Tracked(role) && OfStage(role, line)
      modifies store, this`fuel, this`log
      ensures raise.None? ==> AtWork(s0, role, k + 1) && log == old(log) + [line] && Tracked(role)
      ensures raise.Some? ==>
                s0.Total() && store.Now().Total() && Clean(store.Now(), role)
                  && Mid(store.cfg, s0, store.Now(), role, k)
      ensures raise.Some? ==>
                log == old(log) && Tracked(role) && raise != Some(GovernanceRaise) && Cause(raise.value)
    {
      ghost var s := store.Now();
      var interrupted := Pause();
      if interrupted { return Some(Interrupt); }
      var ok := PutRecord(role, line, s0, k);
      if !ok {
        KeptSame(s, store.Now(), role, log);
        return Some(OrdinaryRaise);
      }
      KeptGrows(s, store.Now(), role, log, line);
      UsesGrow(log, line, inputs);
      log := log + [line];
      raise := None;
    }

    /** A clean role with a whole account keeps it. */
    lemma CleanHasAccount(s0: State, role: Role, k: nat)
      requires s0.Total() && store.Now().Total() && Clean(store.Now(), role) && Mid(store.cfg, s0, store.Now(), role, k)
      requires Accounted(role, k) && Provided(s0, role)
      ensures Halted(s0, role)
    {
      UptoMeans(k);
      SuppliedNow(s0, role);
      assert IsAccount(store.Now(), role, log, inputs);
    }

    /** What the stage is fed stays as it was when it began. */
    lemma SuppliedNow(s0: State, role: Role)
      requires s0.Total() && store.Now().Total() && OthersAs(s0, store.Now(), role) && Provided(s0, role)
      requires SameInputs(log, inputs)
      ensures Supplied(store.Now(), role, log, inputs)
    {
      OthersFeed(limits, s0, store.Now(), role);
      assert Fed(limits, task, s0, role, inputs);
      FedSame(limits, task, s0, store.Now(), role, inputs);
    }

    lemma RetryingAccounts(role: Role, k: nat, cumulative: nat)
      requires StillRetrying(role, k, cumulative)
      ensures Accounted(role, k)
    {
      RetryingCloses(log, role, limits, k, cumulative);
    }

    // ---------------------------------------------------------------- attempts

    function LineFor(role: Role, attempt: nat, decision: Decision, failure: FailureClass, heard: Option<Exchange>,
      before: nat, timeout: int, reading: Reading): Line {
      Line(Account(role, attempt, decision, Some(failure), heard.Some?, Tokens(role),
                   before + if heard.Some? then Tokens(role) else 0, timeout), heard, reading)
    }

    /** The attempt about to be recorded comes after `before` tokens and fits what was heard. */
    ghost predicate AttemptIsDue(s0: State, role: Role, attempt: nat, heard: Option<Exchange>, before: nat)
      reads this`log, this`inputs, this`start, this`known, store
    {
      var holds :=
        && Setting() && 1 <= attempt <= limits.maxRetries + 1
        && AtWork(s0, role, attempt - 1) && StillRetrying(role, attempt - 1, before) && Briefed(role)
        && (heard.Some? ==> Exchanged(role, attempt, heard.value) && before + Tokens(role) <= limits.ceiling);
      holds
    }

    /** A failure that may be retried: it ends the stage only on the last attempt. */
    method Settle(role: Role, attempt: nat, failure: FailureClass, heard: Option<Exchange>, before: nat, timeout: int,
      reading: Reading, ghost s0: State)
      returns (o: Option<StageOutcome>)
      requires AttemptIsDue(s0, role, attempt, heard, before) && Looked(reading, attempt)
      requires var line := LineFor(role, attempt, Again(Final(attempt)), failure, heard, before, timeout, reading);
               Explained(limits, role, line, Final(attempt)) && StatusFor(line) == RunRetryExhausted
      modifies store, this`fuel, this`log
      ensures AttemptLeaves(o, before + if heard.Some? then Tokens(role) else 0, role, attempt, s0)
      ensures o.Some? ==> !o.value.Won?
    {
      var line := LineFor(role, attempt, Again(Final(attempt)), failure, heard, before, timeout, reading);
      LogGrows(log, line, role, limits, before);
      RetryingAccounts(role, attempt - 1, before);
      var raise := RecordAttempt(role, line, s0, attempt - 1);
      if raise.Some? {
        CleanHasAccount(s0, role, attempt - 1);
        return Some(Raised(raise.value));
      }
      o := if Final(attempt) then Some(Lost(StageResult(role, attempt, RetryExhausted, {}), RunRetryExhausted))
        else None;
    }

    /** A failure that ends the stage whatever attempts remain. */
    method Refuse(role: Role, attempt: nat, failure: FailureClass, status: RunStatus, heard: Option<Exchange>,
      before: nat, timeout: int, reading: Reading, ghost s0: State)
      returns (o: StageOutcome)
      requires AttemptIsDue(s0, role, attempt, heard, before) && Looked(reading, attempt)
      requires Explained(limits, role, LineFor(role, attempt, Stop, failure, heard, before, timeout, reading),
               Final(attempt))
      modifies store, this`fuel, this`log
      ensures o.Lost? || o.Raised?
      ensures o.Lost? ==> o == Lost(StageResult(role, attempt, HardFailed, {}), status)
      ensures o.Lost? ==> AtWork(s0, role, attempt) && HasEnded(role, attempt)
      ensures o.Lost? ==> log == old(log) + [LineFor(role, attempt, Stop, failure, heard, before, timeout, reading)]
      ensures o.Raised? ==> Halted(s0, role) && Cause(o.raise) && log == old(log)
    {
      var line := LineFor(role, attempt, Stop, failure, heard, before, timeout, reading);
      LogGrows(log, line, role, limits, before);
      RetryingAccounts(role, attempt - 1, before);
      var raise := RecordAttempt(role, line, s0, attempt - 1);
      if raise.Some? {
        CleanHasAccount(s0, role, attempt - 1);
        return Raised(raise.value);
      }
      o := Lost(StageResult(role, attempt, HardFailed, {}), status);
    }

    /** A failure that is recorded and then propagates. */
    method RefuseAndRaise(role: Role, attempt: nat, failure: FailureClass, raise: Raise, heard: Exchange, before: nat,
      timeout: int, reading: Reading, ghost s0: State)
      returns (o: StageOutcome)
      requires AttemptIsDue(s0, role, attempt, Some(heard), before) && Looked(reading, attempt)
      requires raise != Interrupt && Cause(raise)
      requires Explained(limits, role, LineFor(role, attempt, Stop, failure, Some(heard), before, timeout, reading),
               Final(attempt))
      modifies store, this`fuel, this`log
      ensures o.Raised? && Halted(s0, role) && Cause(o.raise)
      ensures log == old(log)
              || (log == old(log) + [LineFor(role, attempt, Stop, failure, Some(heard), before, timeout, reading)]
                  && o == Raised(raise))
    {
      o := Refuse(role, attempt, failure, InfrastructureFailure, Some(heard), before, timeout, reading, s0);
      if o.Lost? {
        CleanHasAccount(s0, role, attempt);
        o := Raised(raise);
      }
    }

    /** How the attempts of a stage may end, with the last of them. */
    ghost predicate Resolved(o: StageOutcome, role: Role, attempt: nat, s0: State)
      requires 1 <= attempt
      reads store, this`log, this`inputs, this`start, this`known, this`fuel
    {
      var holds :=
        match o
        case Lost(result, status) =>
          AtWork(s0, role, attempt) && HasEnded(role, attempt) && result.role == role && LossFits(log, result, status)
        case Raised(raise) => Halted(s0, role) && Cause(raise)
        case Won(n, _, _, _, cumulative, _) =>
          && Worthy(o, role) && n == attempt && AtWork(s0, role, attempt - 1)
          && StillRetrying(role, attempt - 1, cumulative - Tokens(role));
      holds
    }

    /** After so many attempts and tokens, one more attempt is due. */
    ghost predicate MayAttempt(spent: nat, role: Role, attempts: nat, s0: State)
      reads store, this`log, this`inputs, this`start, this`known
    {
      && !Final(attempts) && AtWork(s0, role, attempts) && StillRetrying(role, attempts, spent)
      && Briefed(role)
    }

    /** How one attempt may leave the stage. */
    ghost predicate AttemptLeaves(o: Option<StageOutcome>, spent: nat, role: Role, attempt: nat, s0: State)
      requires 1 <= attempt
      reads store, this`log, this`inputs, this`start, this`known, this`fuel
    {
      var holds :=
        match o
        case None => MayAttempt(spent, role, attempt, s0)
        case Some(ended) => Resolved(ended, role, attempt, s0);
      holds
    }

    /** A retry, or the end of the attempts, that an answer entails. */
    method SettleHeard(role: Role, attempt: nat, failure: FailureClass, heard: Exchange, before: nat,
      reading: Reading, ghost s0: State)
      returns (o: Option<StageOutcome>)
      requires AttemptIsDue(s0, role, attempt, Some(heard), before) && Looked(reading, attempt)
               && Ordered(heard, reading)
      requires Entails(limits, role, heard, Some(failure), Again(Final(attempt)), Final(attempt), reading.InTime())
      requires failure.TimeoutClass? || failure.ModelClass?
               || (failure.ProviderClass? && heard.answer != ProviderFailed(false))
      modifies store, this`fuel, this`log
      ensures AttemptLeaves(o, before + Tokens(role), role, attempt, s0)
      ensures o.Some? ==> !o.value.Won?
    {
      o := Settle(role, attempt, failure, Some(heard), before, heard.launched.Left(), reading, s0);
    }

    /** A hard failure that an answer entails. */
    method RefuseHeard(role: Role, attempt: nat, failure: FailureClass, status: RunStatus, heard: Exchange,
      before: nat, reading: Reading, ghost s0: State)
      returns (o: Option<StageOutcome>)
      requires AttemptIsDue(s0, role, attempt, Some(heard), before) && Looked(reading, attempt)
               && Ordered(heard, reading)
      requires Entails(limits, role, heard, Some(failure), Stop, Final(attempt), reading.InTime())
      requires status != RunRetryExhausted
               && status == StatusFor(LineFor(role, attempt, Stop, failure, Some(heard), before,
                                              heard.launched.Left(), reading))
      modifies store, this`fuel, this`log
      ensures AttemptLeaves(o, before + Tokens(role), role, attempt, s0)
      ensures o.Some? && !o.value.Won?
    {
      var refused := Refuse(role, attempt, failure, status, Some(heard), before, heard.launched.Left(), reading, s0);
      o := Some(refused);
    }

    /** A failure that an answer entails and that then propagates. */
    method RaiseHeard(role: Role, attempt: nat, failure: FailureClass, raise: Raise, heard: Exchange, before: nat,
      reading: Reading, ghost s0: State)
      returns (o: Option<StageOutcome>)
      requires AttemptIsDue(s0, role, attempt, Some(heard), before) && Looked(reading, attempt)
               && Ordered(heard, reading)
      requires raise != Interrupt && Cause(raise)
      requires Entails(limits, role, heard, Some(failure), Stop, Final(attempt), reading.InTime())
      modifies store, this`fuel, this`log
      ensures AttemptLeaves(o, before + Tokens(role), role, attempt, s0)
      ensures o.Some? && !o.value.Won?
    {
      var refused :=
        RefuseAndRaise(role, attempt, failure, raise, heard, before, heard.launched.Left(), reading, s0);
      o := Some(refused);
    }

    /** The checks on a response that came in time, in order: identity, budget, contract. */
    method Judge(role: Role, attempt: nat, before: nat, heard: Exchange, first: Reading, deadlineAt: int,
      ghost s0: State, ghost t: nat)
      returns (o: Option<StageOutcome>)
      requires ticks == t + 4
      requires AttemptIsDue(s0, role, attempt, Some(heard), before) && heard.answer.Responded? && heard.known == known
      requires Looked(first, attempt) && first.InTime() && Ordered(heard, first) && Running(deadlineAt, 5 * attempt)
               && first.tick < ticks
      modifies store, this`fuel, this`log, this`ticks, this`known
      ensures AttemptLeaves(o, before + Tokens(role), role, attempt, s0)
      ensures o.Some? && o.value.Won? <==>
                PassesChecks(role, heard.answer.response, heard.known) && Time(t + 4) < deadlineAt
      ensures o.Some? && o.value.Won? ==> o.value.reading.tick < ticks
      ensures old(ticks) <= ticks <= old(ticks) + 1
    {
      var response := heard.answer.response;
      assert PassesChecks(role, response, heard.known) <==> Acceptable(limits, role, response, heard.known);
      if !response.identityOk {
        GivenImproper(role, heard);
        o := RaiseHeard(role, attempt, GovernanceClass, GovernanceRaise, heard, before, first, s0);
      } else if !response.withinBudget {
        o := RefuseHeard(role, attempt, BudgetClass, FailedBudget, heard, before, first, s0);
      } else {
        var findings := CheckContract(limits.grammar, limits.condition, role, response.artifacts, response.structured,
          known);
        if findings.None? {
          o := RefuseHeard(role, attempt, ContractClass, FailedContract, heard, before, first, s0);
        } else {
          KnownIsLearned(role, heard, findings.value);
          known := findings.value;
          o := Accept(role, attempt, before, heard, deadlineAt, s0, t);
        }
      }
    }

    /** Whatever a role may state, what is known afterwards was stated by a verifier, and a
        reviser's own response changes nothing. */
    lemma KnownIsLearned(role: Role, heard: Exchange, findings: seq<FindingLists.Finding>)
      requires Given(role, heard) && heard.answer.Responded?
      requires Acceptable(limits, role, heard.answer.response, heard.known)
      requires findings == KnownAfter(limits.grammar, role, heard.answer.response.structured, heard.known)
      ensures Informed(role, heard.inputs, findings)
    {
      if role == Verifier {
        var n :| Reply(n, role, heard.inputs) == heard.answer && RawText(n) == heard.raw;
        assert Stated(n, heard.inputs, findings);
      }
    }

    /** A response that passed its checks: won if it is still in time. */
    method Accept(role: Role, attempt: nat, before: nat, heard: Exchange, deadlineAt: int, ghost s0: State,
      ghost t: nat)
      returns (o: Option<StageOutcome>)
      requires ticks == t + 4
      requires AttemptIsDue(s0, role, attempt, Some(heard), before) && heard.answer.Responded?
      requires PassesChecks(role, heard.answer.response, heard.known) && heard.launched.tick < ticks
      requires known == KnownAfter(limits.grammar, role, heard.answer.response.structured, heard.known)
      requires Running(deadlineAt, 5 * attempt)
      modifies store, this`fuel, this`log, this`ticks
      ensures AttemptLeaves(o, before + Tokens(role), role, attempt, s0)
      ensures o.Some? && o.value.Won? <==> Time(t + 4) < deadlineAt
      ensures o.Some? && o.value.Won? ==> o.value.reading.tick < ticks
      ensures ticks == old(ticks) + 1
    {
      var response := heard.answer.response;
      assert Acceptable(limits, role, response, heard.known);
      var second := Look(deadlineAt);
      if second.Left() <= 0 {
        o := SettleLate(role, attempt, heard, before, second, s0);
      } else {
        var artifacts := response.artifacts;
        if role == Verifier {
          artifacts := artifacts[Findings := FindingLists.CanonicalText(limits.grammar, known)];
        }
        o := Some(Won(attempt, response, artifacts, heard, before + Tokens(role), second));
        NowWon(o.value, before, role, attempt, s0);
      }
    }

    /** A response that came too late. */
    method SettleLate(role: Role, attempt: nat, heard: Exchange, before: nat, late: Reading, ghost s0: State)
      returns (o: Option<StageOutcome>)
      requires AttemptIsDue(s0, role, attempt, Some(heard), before) && heard.answer.Responded?
      requires Looked(late, attempt) && !late.InTime() && heard.launched.tick < late.tick
      modifies store, this`fuel, this`log
      ensures AttemptLeaves(o, before + Tokens(role), role, attempt, s0)
      ensures o.Some? ==> !o.value.Won?
    {
      o := SettleHeard(role, attempt, TimeoutClass, heard, before, late, s0);
    }

    lemma NowWon(won: StageOutcome, before: nat, role: Role, attempt: nat, s0: State)
      requires won.Won? && AttemptIsDue(s0, role, attempt, Some(won.heard), before)
      requires won.attempt == attempt && won.cumulative == before + Tokens(role)
      requires won.heard.answer == Responded(won.response) && Looked(won.reading, attempt) && won.reading.InTime()
               && won.heard.launched.tick < won.reading.tick
      requires Acceptable(limits, role, won.response, won.heard.known)
      requires won.artifacts == Output(limits, role, won.response)
      requires known == KnownAfter(limits.grammar, role, won.response.structured, won.heard.known)
      ensures AttemptLeaves(Some(won), before + Tokens(role), role, attempt, s0)
    {
    }

    lemma GivenImproper(role: Role, heard: Exchange)
      requires role in Flow() && Given(role, heard) && Improper(heard.answer)
      ensures Cause(GovernanceRaise)
    {
      var n :| Reply(n, role, heard.inputs) == heard.answer && RawText(n) == heard.raw;
      assert Improper(Reply(n, role, heard.inputs));
    }

    lemma GivenFaulty(role: Role, heard: Exchange)
      requires role in Flow() && Given(role, heard) && Faulty(role, heard.answer, heard.raw)
      ensures Cause(OrdinaryRaise)
    {
      var n :| Reply(n, role, heard.inputs) == heard.answer && RawText(n) == heard.raw;
      assert Faulty(role, Reply(n, role, heard.inputs), RawText(n));
    }

    /** What something other than a known failure throws goes through unrecorded. */
    lemma GivenOther(role: Role, heard: Exchange)
      requires role in Flow() && Given(role, heard) && heard.answer.OtherFailed?
      ensures Cause(heard.answer.raise)
    {
      var n :| Reply(n, role, heard.inputs) == heard.answer && RawText(n) == heard.raw;
      var answer := Reply(n, role, heard.inputs);
      assert heard.answer.raise.GovernanceRaise? ==> Improper(answer);
      assert heard.answer.raise.OrdinaryRaise? ==> Faulty(role, answer, RawText(n));
    }

    /** Every answer that carries no response. */
    method Unanswered(role: Role, attempt: nat, before: nat, heard: Exchange, ghost s0: State)
      returns (o: Option<StageOutcome>)
      requires AttemptIsDue(s0, role, attempt, Some(heard), before) && !heard.answer.Responded?
      modifies store, this`fuel, this`log
      ensures AttemptLeaves(o, before + Tokens(role), role, attempt, s0)
      ensures o.Some? ==> !o.value.Won?
    {
      var reading := heard.launched;
      match heard.answer
      case HarnessFailed =>
        GivenFaulty(role, heard);
        o := RaiseHeard(role, attempt, InfrastructureClass, OrdinaryRaise, heard, before, reading, s0);
      case OtherFailed(raise) =>
        o := Unrecorded(role, attempt, before, heard, s0);
      case ProviderFailed(retryable) =>
        if retryable {
          o := SettleHeard(role, attempt, ProviderClass, heard, before, reading, s0);
        } else {
          o := RefuseHeard(role, attempt, ProviderClass, InfrastructureFailure, heard, before, reading, s0);
        }
      case TimedOut => o := SettleHeard(role, attempt, TimeoutClass, heard, before, reading, s0);
      case ModelFailed => o := SettleHeard(role, attempt, ModelClass, heard, before, reading, s0);
    }

    method Unrecorded(role: Role, attempt: nat, before: nat, heard: Exchange, ghost s0: State)
      returns (o: Option<StageOutcome>)
      requires AttemptIsDue(s0, role, attempt, Some(heard), before) && heard.answer.OtherFailed?
      ensures AttemptLeaves(o, before + Tokens(role), role, attempt, s0)
      ensures o.Some? && !o.value.Won?
    {
      GivenOther(role, heard);
      RetryingAccounts(role, attempt - 1, before);
      CleanHasAccount(s0, role, attempt - 1);
      o := Some(Raised(heard.answer.raise));
    }

    /** The call itself, begun with time left, and what came of it. It is won exactly if no
        interrupt comes, the answer is acceptable, and the clock is in time twice after it. */
    method Invoke(role: Role, attempt: nat, before: nat, reading: Reading, deadlineAt: int, ghost s0: State,
      ghost t: nat)
      returns (o: Option<StageOutcome>)
      requires ticks == t + 3
      requires AttemptIsDue(s0, role, attempt, None, before) && before + Tokens(role) <= limits.ceiling
      requires Looked(reading, attempt) && reading.InTime() && reading.tick < ticks
               && Running(deadlineAt, 5 * attempt - 1)
      modifies store, this`fuel, this`log, this`ticks, this`calls, this`known
      ensures AttemptLeaves(o, before + Tokens(role), role, attempt, s0)
      ensures o.Some? && o.value.Won? <==>
                old(fuel) > 0 && Passes(role, old(calls), inputs, old(known)) && HeardInTime(deadlineAt, t)
      ensures o.Some? && o.value.Won? ==> o.value.reading.tick < ticks
      ensures calls == old(calls) + (if old(fuel) > 0 then 1 else 0)
      ensures old(ticks) <= ticks <= old(ticks) + 2
    {
      var interrupted := Pause();
      if interrupted {
        o := Some(Raised(Interrupt));
        CalledOff(role, attempt, before, s0);
      } else {
        o := Call(role, attempt, before, reading, deadlineAt, s0, t);
      }
    }

    lemma CalledOff(role: Role, attempt: nat, before: nat, s0: State)
      requires AttemptIsDue(s0, role, attempt, None, before) && fuel == 0
      ensures AttemptLeaves(Some(Raised(Interrupt)), before + Tokens(role), role, attempt, s0)
    {
      RetryingAccounts(role, attempt - 1, before);
      CleanHasAccount(s0, role, attempt - 1);
    }

    method Call(role: Role, attempt: nat, before: nat, reading: Reading, deadlineAt: int, ghost s0: State,
      ghost t: nat)
      returns (o: Option<StageOutcome>)
      requires ticks == t + 3
      requires AttemptIsDue(s0, role, attempt, None, before) && before + Tokens(role) <= limits.ceiling
      requires Looked(reading, attempt) && reading.InTime() && reading.tick < ticks
               && Running(deadlineAt, 5 * attempt - 1)
      modifies store, this`fuel, this`log, this`ticks, this`calls, this`known
      ensures AttemptLeaves(o, before + Tokens(role), role, attempt, s0)
      ensures o.Some? && o.value.Won? <==>
                Passes(role, old(calls), inputs, old(known)) && HeardInTime(deadlineAt, t)
      ensures o.Some? && o.value.Won? ==> o.value.reading.tick < ticks
      ensures calls == old(calls) + 1
      ensures old(ticks) <= ticks <= old(ticks) + 2
    {
      var heard := Exchange(Reply(calls, role, inputs), RawText(calls), reading, inputs, known);
      calls := calls + 1;
      assert Given(role, heard);
      if !heard.answer.Responded? {
        o := Unanswered(role, attempt, before, heard, s0);
      } else {
        o := Hear(role, attempt, before, heard, deadlineAt, s0, t);
      }
    }

    /** This call answers with a response that passes every check. */
    ghost predicate Passes(role: Role, call: nat, i: Context, f: seq<FindingLists.Finding>) {
      Reply(call, role, i).Responded? && PassesChecks(role, Reply(call, role, i).response, f)
    }

    ghost predicate PassesChecks(role: Role, response: Response, f: seq<FindingLists.Finding>) {
      forall r: Response {:trigger Acceptable(limits, role, r, f)} :: r == response ==> Acceptable(limits, role, r, f)
    }

    /** Both looks at the clock after a response are in time, in an attempt that begins with
        reading `t`: the fourth of its looks and the fifth. */
    predicate HeardInTime(deadlineAt: int, t: nat) { Time(t + 3) < deadlineAt && Time(t + 4) < deadlineAt }

    /** A response: too late, or judged. */
    method Hear(role: Role, attempt: nat, before: nat, heard: Exchange, deadlineAt: int, ghost s0: State, ghost t: nat)
      returns (o: Option<StageOutcome>)
      requires ticks == t + 3
      requires AttemptIsDue(s0, role, attempt, Some(heard), before) && heard.answer.Responded? && heard.known == known
      requires heard.launched.tick < ticks && Running(deadlineAt, 5 * attempt - 1)
      modifies store, this`fuel, this`log, this`ticks, this`known
      ensures AttemptLeaves(o, before + Tokens(role), role, attempt, s0)
      ensures o.Some? && o.value.Won? <==>
                PassesChecks(role, heard.answer.response, heard.known) && HeardInTime(deadlineAt, t)
      ensures o.Some? && o.value.Won? ==> o.value.reading.tick < ticks
      ensures old(ticks) <= ticks <= old(ticks) + 2
    {
      var first := Look(deadlineAt);
      if first.Left() <= 0 {
        o := SettleLate(role, attempt, heard, before, first, s0);
      } else {
        o := Judge(role, attempt, before, heard, first, deadlineAt, s0, t);
      }
    }

    /** Out of time before the call. */
    method SettleUnheard(role: Role, attempt: nat, before: nat, timeout: int, reading: Reading, ghost s0: State)
      returns (o: Option<StageOutcome>)
      requires AttemptIsDue(s0, role, attempt, None, before) && Looked(reading, attempt) && !reading.InTime()
      modifies store, this`fuel, this`log
      ensures AttemptLeaves(o, before, role, attempt, s0) && (o.Some? ==> !o.value.Won?)
    {
      o := Settle(role, attempt, TimeoutClass, None, before, timeout, reading, s0);
    }

    /** Out of tokens before the call. */
    method RefuseUnheard(role: Role, attempt: nat, before: nat, timeout: int, reading: Reading, ghost s0: State)
      returns (o: Option<StageOutcome>)
      requires AttemptIsDue(s0, role, attempt, None, before) && limits.ceiling < before + Tokens(role)
      requires Looked(reading, attempt) && reading.InTime()
      modifies store, this`fuel, this`log
      ensures AttemptLeaves(o, before, role, attempt, s0) && o.Some? && !o.value.Won?
    {
      var refused := Refuse(role, attempt, BudgetClass, FailedBudget, None, before, timeout, reading, s0);
      o := Some(refused);
    }

    /** Time first, then tokens, then time again, then the call: it is begun exactly if
        nothing stands in its way, and what it answers decides together with the clock. */
    method Attempt(role: Role, attempt: nat, before: nat, deadlineAt: int, ghost s0: State)
      returns (o: Option<StageOutcome>, spent: nat)
      requires AttemptIsDue(s0, role, attempt, None, before) && Running(deadlineAt, 5 * attempt - 4)
      modifies store, this`fuel, this`log, this`ticks, this`calls, this`known
      ensures AttemptLeaves(o, spent, role, attempt, s0) && Running(deadlineAt, 5 * attempt + 1)
      ensures calls > old(calls) <==>
                && Time(old(ticks) + 1) < deadlineAt && Time(old(ticks) + 2) < deadlineAt
                && before + Tokens(role) <= limits.ceiling && old(fuel) > 0
      ensures o.Some? && o.value.Won? <==>
                && calls > old(calls) && Passes(role, old(calls), inputs, old(known))
                && HeardInTime(deadlineAt, old(ticks))
      ensures o.Some? && o.value.Won? ==> o.value.reading.tick < ticks
    {
      var begun, check := LookTwice(deadlineAt);
      if check.Left() <= 0 {
        o := BeginLate(role, attempt, before, deadlineAt, check, s0);
        spent := before;
      } else {
        o, spent := Proceed(role, attempt, before, begun.Left(), deadlineAt, check, s0, old(ticks));
      }
    }

    /** In time to begin: tokens decide whether there is a launch. */
    method Proceed(role: Role, attempt: nat, before: nat, timeout: int, deadlineAt: int, check: Reading,
      ghost s0: State,
      ghost t: nat)
      returns (o: Option<StageOutcome>, spent: nat)
      requires ticks == t + 2
      requires AttemptIsDue(s0, role, attempt, None, before) && Looked(check, attempt) && check.InTime()
      requires Running(deadlineAt, 5 * attempt - 2)
      modifies store, this`fuel, this`log, this`ticks, this`calls, this`known
      ensures AttemptLeaves(o, spent, role, attempt, s0) && Running(deadlineAt, 5 * attempt + 1)
      ensures calls > old(calls) <==>
                Time(t + 2) < deadlineAt && before + Tokens(role) <= limits.ceiling && old(fuel) > 0
      ensures o.Some? && o.value.Won? <==>
                calls > old(calls) && Passes(role, old(calls), inputs, old(known)) && HeardInTime(deadlineAt, t)
      ensures o.Some? && o.value.Won? ==> o.value.reading.tick < ticks
    {
      if limits.ceiling < before + Tokens(role) {
        o := RefuseUnheard(role, attempt, before, timeout, check, s0);
        spent := before;
      } else {
        o, spent := Launch(role, attempt, before, timeout, deadlineAt, s0, t);
      }
    }

    /** What is left at first is what the record says; the second look decides. */
    method LookTwice(deadlineAt: int) returns (begun: Reading, check: Reading)
      modifies this`ticks
      ensures begun == Reading(start, old(ticks), Time(old(ticks)), deadlineAt)
      ensures check == Reading(start, old(ticks) + 1, Time(old(ticks) + 1), deadlineAt) && ticks == old(ticks) + 2
    {
      begun := Look(deadlineAt);
      check := Look(deadlineAt);
    }

    /** The deadline has passed before the attempt begins. */
    method BeginLate(role: Role, attempt: nat, before: nat, deadlineAt: int, check: Reading, ghost s0: State)
      returns (o: Option<StageOutcome>)
      requires AttemptIsDue(s0, role, attempt, None, before) && Looked(check, attempt) && !check.InTime()
      modifies store, this`fuel, this`log, this`ticks
      ensures AttemptLeaves(o, before, role, attempt, s0) && (o.Some? ==> !o.value.Won?) && ticks == old(ticks) + 1
    {
      var now := Look(deadlineAt);
      o := SettleUnheard(role, attempt, before, now.Left(), check, s0);
    }

    /** Tokens allow the call; what is left is time. */
    method Launch(role: Role, attempt: nat, before: nat, timeout: int, deadlineAt: int, ghost s0: State, ghost t: nat)
      returns (o: Option<StageOutcome>, spent: nat)
      requires ticks == t + 2
      requires AttemptIsDue(s0, role, attempt, None, before) && before + Tokens(role) <= limits.ceiling
      requires Running(deadlineAt, 5 * attempt - 2)
      modifies store, this`fuel, this`log, this`ticks, this`calls, this`known
      ensures AttemptLeaves(o, spent, role, attempt, s0) && Running(deadlineAt, 5 * attempt + 1)
      ensures calls > old(calls) <==> Time(t + 2) < deadlineAt && old(fuel) > 0
      ensures o.Some? && o.value.Won? <==>
                calls > old(calls) && Passes(role, old(calls), inputs, old(known)) && HeardInTime(deadlineAt, t)
      ensures o.Some? && o.value.Won? ==> o.value.reading.tick < ticks
    {
      var reading := Look(deadlineAt);
      if reading.Left() <= 0 {
        o := SettleUnheard(role, attempt, before, timeout, reading, s0);
        spent := before;
      } else {
        o := Invoke(role, attempt, before, reading, deadlineAt, s0, t);
        spent := before + Tokens(role);
      }
    }

    ghost method OpenLog(role: Role, s0: State)
      requires AtWork(s0, role, 0) && Briefed(role)
      modifies this`log
      ensures MayAttempt(0, role, 0, s0)
    {
      log := [];
    }

    /** The retrying loop: it never runs out of attempts without an outcome, and all of them
        are held to one deadline. */
    method ExecuteStage(role: Role, deadlineAt: int, ghost s0: State) returns (o: StageOutcome, attempt: nat)
      requires Setting() && AtWork(s0, role, 0) && Briefed(role) && Running(deadlineAt, 1)
      modifies store, this`fuel, this`log, this`ticks, this`calls, this`known
      ensures 1 <= attempt <= limits.maxRetries + 1 && Running(deadlineAt, 5 * attempt + 1)
      ensures Resolved(o, role, attempt, s0) && (o.Won? ==> o.reading.tick < ticks)
    {
      OpenLog(role, s0);
      var ended: Option<StageOutcome>, cumulative: nat := None, 0;
      attempt := 0;
      while ended.None?
        invariant attempt <= limits.maxRetries + 1 && Running(deadlineAt, 5 * attempt + 1)
        invariant if ended.None? then MayAttempt(cumulative, role, attempt, s0)
                  else 1 <= attempt && Resolved(ended.value, role, attempt, s0)
        invariant ended.Some? && ended.value.Won? ==> ended.value.reading.tick < ticks
        decreases limits.maxRetries + 1 - attempt, ended.None?
      {
        attempt := attempt + 1;
        ended, cumulative := Attempt(role, attempt, cumulative, deadlineAt, s0);
      }
      o := ended.value;
    }

    // ----------------------------------------------------------- the transaction

    /** In the middle of a transaction, at whatever point. */
    ghost predicate Ongoing(s0: State, role: Role)
      reads store
    {
      && s0.Total() && store.Now().Total() && HasAccount(store.Now(), role)
      && Mid(store.cfg, s0, store.Now(), role, |Attempts(store.Now().List(role))|)
    }

    /** A transaction with its first `k` attempts on record, accounted for in the log. */
    ghost predicate Working(s0: State, role: Role, k: nat)
      reads store, this`log, this`inputs, this`start
    {
      && s0.Total() && store.Now().Total() && Mid(store.cfg, s0, store.Now(), role, k) && Provided(s0, role)
      && OpenUpto(store.Now(), role, k) && Accounted(role, k)
    }

    /** Of the looks at the clock in between, the last was in time if nothing stopped the
        transaction, and one was late if it was too late. */
    ghost predicate Timed(setback: Option<Setback>, deadlineAt: int, from: nat, to: nat)
      reads this`start
    {
      && from <= to && (setback.None? ==> from < to && Time(to - 1) < deadlineAt)
      && (setback.Some? && setback.value.TooLate? ==>
            var late := setback.value.late;
            && late == Reading(start, late.tick, Time(late.tick), deadlineAt) && from <= late.tick < to
            && !late.InTime())
    }

    lemma WorkingIsOngoing(s0: State, role: Role, k: nat)
      requires Working(s0, role, k) && (Sealed(store.Now(), role) ==> Sourced(limits, store.Now().At(role), role, log))
      ensures Ongoing(s0, role)
    {
      UptoMeans(k);
      SuppliedNow(s0, role);
      assert IsAccount(store.Now(), role, log, inputs);
    }

    /** The account of a transaction: its last attempt is on record as promoted, or not at all. */
    ghost predicate Pending(won: StageOutcome, role: Role, k: nat)
      requires won.Won?
      reads this`log
    {
      if k == won.attempt then Ended(log, role, limits, k) && StatusFor(log[k - 1]) == RunRetryExhausted
      else
        && k + 1 == won.attempt && Tokens(role) <= won.cumulative
        && Retrying(log, role, limits, k, won.cumulative - Tokens(role))
    }

    method StageArtifacts(role: Role, artifacts: map<Name, Text>, deadlineAt: int, ghost s0: State, ghost k: nat)
      returns (setback: Option<Setback>)
      requires AtWork(s0, role, k) && Accounted(role, k) && artifacts.Keys == Expected(role)
      requires (exists name :: name in artifacts && !Utf8.AllScalar(artifacts[name])) ==> Cause(OrdinaryRaise)
      modifies store, this`fuel, this`ticks
      ensures Working(s0, role, k) && !Sealed(store.Now(), role)
      ensures setback.None? ==> Staged(store.Now(), role) && FilesAre(store.Now().At(role).disk.staging, artifacts)
      ensures setback.Some? && setback.value.Thrown? ==> Cause(setback.value.raise)
      ensures Timed(setback, deadlineAt, old(ticks), ticks) && ticks <= old(ticks) + 2
    {
      var names := Order(role);
      for i := 0 to |names|
        invariant Working(s0, role, k) && StagedPart(store.Now(), role, names, i, artifacts)
        invariant (exists name :: name in artifacts && !Utf8.AllScalar(artifacts[name])) ==> Cause(OrdinaryRaise)
        invariant ticks == old(ticks) + i && (0 < i ==> Time(ticks - 1) < deadlineAt)
      {
        setback := StageNext(role, names, i, artifacts, deadlineAt, s0, k);
        if setback.Some? { return; }
      }
      StagedWhole(store.Now(), role, artifacts);
      setback := None;
    }

    lemma StagedWhole(s: State, role: Role, artifacts: map<Name, Text>)
      requires s.Total() && artifacts.Keys == Expected(role)
               && StagedPart(s, role, Order(role), |Order(role)|, artifacts)
      ensures Staged(s, role) && FilesAre(s.At(role).disk.staging, artifacts)
    {
      var names := Order(role);
      assert names[..|names|] == names;
      forall name | name in artifacts ensures Encodes(s.At(role).disk.staging, artifacts, name) {
        assert name in artifacts.Keys;
        var i :| 0 <= i < |names| && names[i] == name;
      }
    }

    /** Stage one text, then look at the clock. */
    method StageNext(role: Role, names: seq<Name>, i: nat, artifacts: map<Name, Text>, deadlineAt: int,
      ghost s0: State, ghost k: nat)
      returns (setback: Option<Setback>)
      requires names == Order(role) && i < |names| && artifacts.Keys == Expected(role)
      requires Working(s0, role, k) && StagedPart(store.Now(), role, names, i, artifacts)
      requires (exists name :: name in artifacts && !Utf8.AllScalar(artifacts[name])) ==> Cause(OrdinaryRaise)
      modifies store, this`fuel, this`ticks
      ensures Working(s0, role, k) && !Sealed(store.Now(), role)
      ensures setback.None? ==> StagedPart(store.Now(), role, names, i + 1, artifacts) && ticks == old(ticks) + 1
      ensures setback.Some? && setback.value.Thrown? ==> Cause(setback.value.raise)
      ensures Timed(setback, deadlineAt, old(ticks), ticks) && ticks <= old(ticks) + 1
    {
      setback := StageOne(role, names, i, artifacts, s0, k);
      if setback.None? {
        var look := Look(deadlineAt);
        if look.Left() <= 0 { setback := Some(TooLate(look)); }
      }
    }

    method StageOne(role: Role, names: seq<Name>, i: nat, artifacts: map<Name, Text>, ghost s0: State, ghost k: nat)
      returns (setback: Option<Setback>)
      requires names == Order(role) && i < |names| && artifacts.Keys == Expected(role)
      requires Working(s0, role, k) && StagedPart(store.Now(), role, names, i, artifacts)
      requires (exists name :: name in artifacts && !Utf8.AllScalar(artifacts[name])) ==> Cause(OrdinaryRaise)
      modifies store, this`fuel
      ensures Working(s0, role, k) && !Sealed(store.Now(), role)
      ensures setback.None? ==> StagedPart(store.Now(), role, names, i + 1, artifacts)
      ensures setback.Some? ==> setback.value.Thrown? && Cause(setback.value.raise)
    {
      var interrupted := Pause();
      if interrupted { return Some(Thrown(Interrupt)); }
      assert names[i] in artifacts.Keys;
      ghost var s := store.Now();
      var error := store.WriteStaged(role, names[i], artifacts[names[i]]);
      if error.Some? { return Some(Thrown(OrdinaryRaise)); }
      OneStaged(s, role, names, i, artifacts, s0, k);
      setback := None;
    }

    lemma OneStaged(s: State, role: Role, names: seq<Name>, i: nat, artifacts: map<Name, Text>, s0: State, k: nat)
      requires i < |names| && names[i] in artifacts && s0.Total() && s.Total() && store.Now().Total()
      requires Mid(store.cfg, s0, s, role, k) && OpenUpto(s, role, k) && Provided(s0, role)
      requires |log| == k && Closing(log, role, limits)
      requires Kept(s, role, log) && SameInputs(log, inputs) && Since(log, start)
      requires StagedPart(s, role, names, i, artifacts)
      requires store.Now() == Touched(s, role, Stage(names[i], Utf8.Encode(artifacts[names[i]])))
      ensures Working(s0, role, k) && StagedPart(store.Now(), role, names, i + 1, artifacts)
              && !Sealed(store.Now(), role)
    {
      StagedMid(store.cfg, s0, s, role, k, names[i], Utf8.Encode(artifacts[names[i]]));
      KeptSame(s, store.Now(), role, log);
      assert names[..i + 1] == names[..i] + [names[i]];
    }

    method CommitArtifacts(role: Role, ghost artifacts: map<Name, Text>, ghost s0: State, ghost k: nat)
      returns (setback: Option<Setback>)
      requires Working(s0, role, k) && Staged(store.Now(), role)
               && FilesAre(store.Now().At(role).disk.staging, artifacts)
      modifies store, this`fuel
      ensures Working(s0, role, k) && !Sealed(store.Now(), role)
      ensures setback.None? ==> Committed(store.cfg, role, store.Now().At(role), store.Now().List(role))
      ensures setback.None? ==> FilesAre(store.Now().At(role).disk.files, artifacts)
      ensures setback.Some? ==> setback == Some(Thrown(Interrupt)) && Cause(Interrupt)
    {
      var interrupted := Pause();
      if interrupted { return Some(Thrown(Interrupt)); }
      ghost var s := store.Now();
      CommitMid(store.cfg, s0, s, role, k);
      CommittedFiles(store.cfg, s, role);
      var error := store.CommitStaged(role);
      KeptSame(s, store.Now(), role, log);
      setback := None;
    }

    /** Commit, then look at the clock. */
    method CommitInTime(role: Role, ghost artifacts: map<Name, Text>, deadlineAt: int, ghost s0: State, ghost k: nat)
      returns (setback: Option<Setback>)
      requires Working(s0, role, k) && Staged(store.Now(), role)
               && FilesAre(store.Now().At(role).disk.staging, artifacts)
      modifies store, this`fuel, this`ticks
      ensures Working(s0, role, k) && !Sealed(store.Now(), role)
      ensures setback.None? ==> Holding(role, artifacts) && ticks == old(ticks) + 1
      ensures setback.Some? && setback.value.Thrown? ==> Cause(setback.value.raise)
      ensures Timed(setback, deadlineAt, old(ticks), ticks) && ticks <= old(ticks) + 1
    {
      setback := CommitArtifacts(role, artifacts, s0, k);
      if setback.None? {
        var look := Look(deadlineAt);
        if look.Left() <= 0 { setback := Some(TooLate(look)); }
      }
    }

    /** Committed but not sealed. */
    ghost predicate Holding(role: Role, artifacts: map<Name, Text>)
      reads store
    {
      && store.Now().Total() && !Sealed(store.Now(), role) && FilesAre(store.Now().At(role).disk.files, artifacts)
      && Committed(store.cfg, role, store.Now().At(role), store.Now().List(role))
    }

    /** The attempt is recorded as promoted, unless its text cannot be kept. */
    method RecordPromotion(role: Role, won: StageOutcome, ghost s0: State) returns (setback: Option<Setback>)
      requires Setting() && Worthy(won, role) && Working(s0, role, won.attempt - 1) && Holding(role, won.artifacts)
      requires Retrying(log, role, limits, won.attempt - 1, won.cumulative - Tokens(role))
      modifies store, this`fuel, this`log
      ensures setback.None? ==> Bound(role, won, s0)
      ensures setback.Some? ==> setback.value.Thrown? && Concluded(setback, won, role, s0)
    {
      ghost var k := won.attempt - 1;
      var interrupted := Pause();
      if interrupted {
        WorkingIsOngoing(s0, role, k);
        ThrownEnds(Interrupt, won, role, s0);
        return Some(Thrown(Interrupt));
      }
      PromotionFits(role, won);
      ghost var s := store.Now();
      var ok := PutRecord(role, PromotionOf(role, won), s0, k);
      if ok {
        PromotionBinds(s, role, won, s0);
        log := log + [PromotionOf(role, won)];
        setback := None;
      } else {
        PromotionRefused(s, role, won, s0);
        setback := Some(Thrown(OrdinaryRaise));
      }
    }

    /** Committed, with the promotion as the last line of the account. */
    ghost predicate Bound(role: Role, won: StageOutcome, s0: State)
      requires won.Won?
      reads store, this`log, this`inputs, this`start
    {
      BoundBy(log, role, won, s0)
    }

    ghost predicate BoundBy(lines: seq<Line>, role: Role, won: StageOutcome, s0: State)
      requires won.Won?
      reads store, this`inputs, this`start
    {
      var bound :=
        && s0.Total() && store.Now().Total() && Mid(store.cfg, s0, store.Now(), role, won.attempt)
        && Provided(s0, role) && OpenUpto(store.Now(), role, won.attempt)
        && Ended(lines, role, limits, won.attempt) && lines[won.attempt - 1] == PromotionOf(role, won)
        && Kept(store.Now(), role, lines) && SameInputs(lines, inputs) && Since(lines, start)
        && Holding(role, won.artifacts);
      bound
    }

    lemma PromotionBinds(s: State, role: Role, won: StageOutcome, s0: State)
      requires Worthy(won, role) && s.Total() && s0.Total() && store.Now().Total() && Provided(s0, role)
      requires Retrying(log, role, limits, won.attempt - 1, won.cumulative - Tokens(role))
      requires Kept(s, role, log) && SameInputs(log, inputs) && Since(log, start)
      requires Mid(store.cfg, s0, store.Now(), role, won.attempt) && OpenUpto(store.Now(), role, won.attempt)
      requires LineOnDisk(store.cfg, store.Now().At(role), won.attempt, PromotionOf(role, won))
      requires SameBut(s.At(role), store.Now().At(role), won.attempt) && Holding(role, won.artifacts)
      ensures BoundBy(log + [PromotionOf(role, won)], role, won, s0)
    {
      PromotionFits(role, won);
      KeptGrows(s, store.Now(), role, log, PromotionOf(role, won));
      UsesGrow(log, PromotionOf(role, won), inputs);
      LogGrows(log, PromotionOf(role, won), role, limits, won.cumulative - Tokens(role));
    }

    lemma PromotionRefused(s: State, role: Role, won: StageOutcome, s0: State)
      requires Worthy(won, role) && s.Total() && s0.Total() && store.Now().Total() && Provided(s0, role)
      requires Retrying(log, role, limits, won.attempt - 1, won.cumulative - Tokens(role))
      requires Kept(s, role, log) && SameInputs(log, inputs) && Mid(store.cfg, s0, store.Now(), role, won.attempt - 1)
      requires store.Now().At(role).disk.evidence == s.At(role).disk.evidence && !Sealed(store.Now(), role)
      requires Cause(OrdinaryRaise)
      ensures Concluded(Some(Thrown(OrdinaryRaise)), won, role, s0)
    {
      KeptSame(s, store.Now(), role, log);
      UptoMeans(won.attempt - 1);
      SuppliedNow(s0, role);
      RetryingCloses(log, role, limits, won.attempt - 1, won.cumulative - Tokens(role));
      assert IsAccount(store.Now(), role, log, inputs);
      ThrownEnds(OrdinaryRaise, won, role, s0);
    }

    /** What sealing a working stage leaves. */
    lemma SealEffect(s0: State, s: State, role: Role, k: nat)
      requires s0.Total() && Mid(store.cfg, s0, s, role, k) && OpenUpto(s, role, k)
               && Committed(store.cfg, role, s.At(role), s.List(role))
      ensures MaySeal(store.cfg, s, role, k)
      ensures var v := After(s, role, Sealing(store.cfg, role, s.List(role), k));
              && v.Total() && Mid(store.cfg, s0, v, role, k) && OpenUpto(v, role, k) && VerifySealed(store.cfg, v, role)
              && v.At(role).disk.seal.value.expectedAttempts == k
              && v.At(role).disk.evidence == s.At(role).disk.evidence && v.At(role).disk.files == s.At(role).disk.files
    {
      SealMid(store.cfg, s0, s, role, k);
      SealingIs(store.cfg, s, role, k);
    }

    method SealCommitted(role: Role, ghost artifacts: map<Name, Text>, attempt: nat, deadlineAt: int, ghost s0: State)
      returns (setback: Option<Setback>)
      requires Working(s0, role, attempt) && Holding(role, artifacts)
               && Sourced(limits, store.Now().At(role), role, log)
      modifies store, this`fuel, this`ticks
      ensures Working(s0, role, attempt) && Sourced(limits, store.Now().At(role), role, log)
      ensures setback.None? ==> VerifySealed(store.cfg, store.Now(), role)
                                && store.Now().At(role).disk.seal.value.expectedAttempts == attempt
      ensures FilesAre(store.Now().At(role).disk.files, artifacts)
      ensures setback.Some? && setback.value.Thrown? ==> setback.value.raise == Interrupt && Cause(Interrupt)
      ensures Timed(setback, deadlineAt, old(ticks), ticks) && ticks <= old(ticks) + 2
    {
      var interrupted := Pause();
      if interrupted {
        setback := Some(Thrown(Interrupt));
      } else {
        setback := SealInTime(role, attempt, deadlineAt, s0);
      }
    }

    method SealInTime(role: Role, attempt: nat, deadlineAt: int, ghost s0: State) returns (setback: Option<Setback>)
      requires Working(s0, role, attempt) && Sourced(limits, store.Now().At(role), role, log)
      requires Committed(store.cfg, role, store.Now().At(role), store.Now().List(role))
      modifies store, this`ticks
      ensures Working(s0, role, attempt) && Sourced(limits, store.Now().At(role), role, log)
      ensures setback.None? ==> VerifySealed(store.cfg, store.Now(), role)
                                && store.Now().At(role).disk.seal.value.expectedAttempts == attempt
      ensures store.Now().At(role).disk.files == old(store.Now()).At(role).disk.files
      ensures setback.Some? ==> setback.value.TooLate?
      ensures Timed(setback, deadlineAt, old(ticks), ticks) && ticks <= old(ticks) + 2
    {
      var late := SealNow(role, attempt, deadlineAt, s0);
      if late.Some? {
        setback := Some(TooLate(late.value));
      } else {
        setback := Declare(role, deadlineAt);
      }
    }

    /** The seal is on disk; the stage is declared a success if it verifies, and in time. */
    method Declare(role: Role, deadlineAt: int) returns (setback: Option<Setback>)
      requires store.Now().Total() && VerifySealed(store.cfg, store.Now(), role)
      modifies this`ticks
      ensures ticks == old(ticks) + 1
      ensures setback == if Time(old(ticks)) < deadlineAt then None
              else Some(TooLate(Reading(start, old(ticks), Time(old(ticks)), deadlineAt)))
    {
      var look := Look(deadlineAt);
      if look.Left() <= 0 { return Some(TooLate(look)); }
      if !VerifySealed(store.cfg, store.Now(), role) { return Some(Thrown(OrdinaryRaise)); }
      setback := None;
    }

    method SealNow(role: Role, attempt: nat, deadlineAt: int, ghost s0: State)
      returns (late: Option<Reading>)
      requires Working(s0, role, attempt) && Sourced(limits, store.Now().At(role), role, log)
      requires Committed(store.cfg, role, store.Now().At(role), store.Now().List(role))
      modifies store, this`ticks
      ensures Working(s0, role, attempt) && Sourced(limits, store.Now().At(role), role, log)
      ensures late.None? ==> VerifySealed(store.cfg, store.Now(), role)
                             && store.Now().At(role).disk.seal.value.expectedAttempts == attempt
      ensures store.Now().At(role).disk.files == old(store.Now()).At(role).disk.files
      ensures ticks == old(ticks) + 1 && (late.None? <==> Time(old(ticks)) < deadlineAt)
      ensures late.Some? ==> late.value == Reading(start, old(ticks), Time(old(ticks)), deadlineAt)
    {
      ghost var s := store.Now();
      SealEffect(s0, s, role, attempt);
      var look := Look(deadlineAt);
      var error := store.SealStage(role, attempt, look.Left() <= 0);
      late := if error.None? then None else Some(look);
      if late.None? {
        KeptSame(s, store.Now(), role, log);
      }
    }

    /** A look at the clock after the response was heard that found it too late. */
    ghost predicate LateAfter(late: Reading, won: StageOutcome)
      requires won.Won?
      reads this`start
    {
      Looked(late, won.attempt) && !late.InTime() && won.heard.launched.tick < late.tick
    }

    /** How a transaction may end: sealed from the response, or stopped with its account. */
    ghost predicate Concluded(setback: Option<Setback>, won: StageOutcome, role: Role, s0: State)
      requires won.Won?
      reads store, this`log, this`inputs, this`start, this`fuel
    {
      var holds :=
        && s0.Total() && store.Now().Total()
        && match setback
           case None =>
             && Working(s0, role, won.attempt) && Pending(won, role, won.attempt)
             && Ongoing(s0, role) && VerifySealed(store.cfg, store.Now(), role)
             && store.Now().At(role).disk.seal.value.expectedAttempts == won.attempt
             && FilesAre(store.Now().At(role).disk.files, won.artifacts)
           case Some(TooLate(late)) =>
             var k := |Attempts(store.Now().List(role))|;
             Ongoing(s0, role) && Working(s0, role, k) && Pending(won, role, k) && LateAfter(late, won)
           case Some(Thrown(raise)) => Ongoing(s0, role) && Cause(raise);
      holds
    }

    /** In a transaction for this response: so many looks at the clock since the start, all
        after the one that accepted it. */
    ghost predicate Pressed(won: StageOutcome, deadlineAt: int, n: nat)
      reads this`start, this`ticks
    {
      won.Won? && won.heard.launched.tick < ticks && Running(deadlineAt, 5 * won.attempt + 1 + n)
    }

    lemma LateIs(setback: Option<Setback>, won: StageOutcome, deadlineAt: int, from: nat, to: nat)
      requires won.Won? && Timed(setback, deadlineAt, from, to) && won.heard.launched.tick < from && start < from
      requires to <= start + Span(won.attempt) + 1 && deadlineAt == Time(start) + limits.timeout
      ensures setback.Some? && setback.value.TooLate? ==> LateAfter(setback.value.late, won)
    {
    }

    /** Write, commit, bind and seal, looking at the deadline before each. */
    method CommitStage(role: Role, won: StageOutcome, deadlineAt: int, ghost s0: State)
      returns (setback: Option<Setback>)
      requires Setting() && Worthy(won, role) && AtWork(s0, role, won.attempt - 1) && Pressed(won, deadlineAt, 0)
      requires StillRetrying(role, won.attempt - 1, won.cumulative - Tokens(role))
      modifies store, this`fuel, this`ticks, this`log
      ensures Concluded(setback, won, role, s0)
      ensures Timed(setback, deadlineAt, old(ticks), ticks) && ticks <= old(ticks) + 8
    {
      ghost var k := won.attempt - 1;
      RetryingAccounts(role, k, won.cumulative - Tokens(role));
      var look := Look(deadlineAt);
      if look.Left() <= 0 {
        setback := Some(TooLate(look));
        StoppedIn(setback, won, role, s0, k);
      } else {
        setback := StageAndCommit(role, won, deadlineAt, s0, k);
      }
    }

    method StageAndCommit(role: Role, won: StageOutcome, deadlineAt: int, ghost s0: State, ghost k: nat)
      returns (setback: Option<Setback>)
      requires Setting() && Worthy(won, role) && k + 1 == won.attempt && AtWork(s0, role, k) && Accounted(role, k)
      requires Retrying(log, role, limits, k, won.cumulative - Tokens(role)) && Pressed(won, deadlineAt, 1)
      modifies store, this`fuel, this`ticks, this`log
      ensures Concluded(setback, won, role, s0)
      ensures Timed(setback, deadlineAt, old(ticks), ticks) && ticks <= old(ticks) + 7
    {
      UnwritableCause(won, role);
      setback := StageArtifacts(role, won.artifacts, deadlineAt, s0, k);
      if setback.None? {
        var look := Look(deadlineAt);
        if look.Left() <= 0 { setback := Some(TooLate(look)); }
      }
      if setback.Some? {
        LateIs(setback, won, deadlineAt, old(ticks), ticks);
        StoppedIn(setback, won, role, s0, k);
      } else {
        setback := CommitAndSeal(role, won, deadlineAt, s0);
      }
    }

    lemma UnwritableCause(won: StageOutcome, role: Role)
      requires Worthy(won, role)
      ensures won.artifacts.Keys == Expected(role)
      ensures (exists name :: name in won.artifacts && !Utf8.AllScalar(won.artifacts[name])) ==> Cause(OrdinaryRaise)
    {
      assert Acceptable(limits, role, won.response, won.heard.known) && Given(role, won.heard);
      CanonicalIsAscii(limits.grammar, FindingsOf(limits, won.response));
      assert Findings in Expected(Verifier);
      if name :| name in won.artifacts && !Utf8.AllScalar(won.artifacts[name]) {
        assert name in won.response.artifacts && Unwritable(role, won.response);
        GivenFaulty(role, won.heard);
      }
    }

    /** Stopped with `k` attempts on record and nothing sealed. */
    lemma StoppedIn(setback: Option<Setback>, won: StageOutcome, role: Role, s0: State, k: nat)
      requires won.Won? && Working(s0, role, k) && Pending(won, role, k) && setback.Some?
      requires if setback.value.TooLate? then LateAfter(setback.value.late, won) else Cause(setback.value.raise)
      requires Sealed(store.Now(), role) ==> Sourced(limits, store.Now().At(role), role, log)
      ensures Concluded(setback, won, role, s0)
    {
      UptoMeans(k);
      WorkingIsOngoing(s0, role, k);
    }

    method CommitAndSeal(role: Role, won: StageOutcome, deadlineAt: int, ghost s0: State)
      returns (setback: Option<Setback>)
      requires Setting() && Worthy(won, role) && Working(s0, role, won.attempt - 1) && Staged(store.Now(), role)
      requires FilesAre(store.Now().At(role).disk.staging, won.artifacts) && Pressed(won, deadlineAt, 4)
      requires Retrying(log, role, limits, won.attempt - 1, won.cumulative - Tokens(role))
      modifies store, this`fuel, this`ticks, this`log
      ensures Concluded(setback, won, role, s0)
      ensures Timed(setback, deadlineAt, old(ticks), ticks) && ticks <= old(ticks) + 4
    {
      setback := CommitInTime(role, won.artifacts, deadlineAt, s0, won.attempt - 1);
      if setback.Some? {
        StoppedIn(setback, won, role, s0, won.attempt - 1);
      } else {
        setback := BindAndSeal(role, won, deadlineAt, s0);
      }
    }

    function PromotionOf(role: Role, won: StageOutcome): Line
      requires won.Won?
    {
      Line(Account(role, won.attempt, Promote, None, true, Tokens(role), won.cumulative, won.heard.launched.Left()),
        Some(won.heard), won.reading)
    }

    lemma PromotionFits(role: Role, won: StageOutcome)
      requires Worthy(won, role)
      ensures Next(PromotionOf(role, won), won.attempt - 1, role, limits, won.cumulative - Tokens(role))
      ensures StatusFor(PromotionOf(role, won)) == RunRetryExhausted && OfStage(role, PromotionOf(role, won))
    {
    }

    method BindAndSeal(role: Role, won: StageOutcome, deadlineAt: int, ghost s0: State)
      returns (setback: Option<Setback>)
      requires Setting() && Worthy(won, role) && Working(s0, role, won.attempt - 1) && Holding(role, won.artifacts)
      requires Retrying(log, role, limits, won.attempt - 1, won.cumulative - Tokens(role))
      requires Pressed(won, deadlineAt, 5)
      modifies store, this`fuel, this`ticks, this`log
      ensures Concluded(setback, won, role, s0)
      ensures Timed(setback, deadlineAt, old(ticks), ticks) && ticks <= old(ticks) + 3
    {
      setback := RecordPromotion(role, won, s0);
      if setback.None? {
        setback := SealBound(role, won, deadlineAt, s0);
      }
    }

    lemma ThrownEnds(raise: Raise, won: StageOutcome, role: Role, s0: State)
      requires won.Won? && Ongoing(s0, role) && Cause(raise)
      ensures Concluded(Some(Thrown(raise)), won, role, s0)
    {
    }

    /** The attempt is on record as promoted; what remains is the seal. */
    method SealBound(role: Role, won: StageOutcome, deadlineAt: int, ghost s0: State) returns (setback: Option<Setback>)
      requires Worthy(won, role) && Bound(role, won, s0) && Pressed(won, deadlineAt, 5)
      modifies store, this`fuel, this`ticks
      ensures Concluded(setback, won, role, s0)
      ensures Timed(setback, deadlineAt, old(ticks), ticks) && ticks <= old(ticks) + 3
    {
      BoundIsSourced(role, won);
      BoundIsPending(role, won);
      var look := Look(deadlineAt);
      if look.Left() <= 0 {
        setback := Some(TooLate(look));
      } else {
        setback := SealCommitted(role, won.artifacts, won.attempt, deadlineAt, s0);
      }
      if setback.Some? {
        LateIs(setback, won, deadlineAt, old(ticks), ticks);
        StoppedIn(setback, won, role, s0, won.attempt);
      } else {
        WorkingIsOngoing(s0, role, won.attempt);
      }
    }

    lemma BoundIsSourced(role: Role, won: StageOutcome)
      requires Worthy(won, role) && Holding(role, won.artifacts)
      requires Ended(log, role, limits, won.attempt) && log[won.attempt - 1] == PromotionOf(role, won)
      ensures Sourced(limits, store.Now().At(role), role, log)
    {
      assert Acceptable(limits, role, won.response, won.heard.known);
    }

    lemma BoundIsPending(role: Role, won: StageOutcome)
      requires Worthy(won, role) && Ended(log, role, limits, won.attempt)
               && log[won.attempt - 1] == PromotionOf(role, won)
      ensures Pending(won, role, won.attempt)
    {
      PromotionFits(role, won);
    }

    /** The record of an accepted response whose stage was rolled back. */
    function RollbackOf(role: Role, won: StageOutcome, timeout: int, late: Reading): Line
      requires won.Won?
    {
      Line(Account(role, won.attempt, Stop, Some(TimeoutClass), true, Tokens(role), won.cumulative, timeout),
        Some(won.heard), late)
    }

    lemma RollbackFits(role: Role, won: StageOutcome, timeout: int, late: Reading)
      requires Worthy(won, role) && LateAfter(late, won)
      ensures var line := RollbackOf(role, won, timeout, late);
              && Next(line, won.attempt - 1, role, limits, won.cumulative - Tokens(role)) && OfStage(role, line)
              && StatusFor(line) == RunRetryExhausted
    {
      assert Acceptable(limits, role, won.response, won.heard.known) && Given(role, won.heard);
    }

    /** The stage is lost with so many attempts on record, the last of them explained. */
    ghost predicate Exhausted(s0: State, role: Role, attempt: nat)
      reads store, this`log, this`inputs, this`start
    {
      && 1 <= attempt && AtWork(s0, role, attempt) && HasEnded(role, attempt)
      && StatusFor(log[attempt - 1]) == RunRetryExhausted
    }

    /** The deadline passed inside the transaction: roll back, keep one record of the
        attempt, and report the stage as exhausted. */
    method RollBackLate(role: Role, won: StageOutcome, late: Reading, deadlineAt: int, ghost s0: State)
      returns (raise: Option<Raise>)
      requires Setting() && Worthy(won, role) && Concluded(Some(TooLate(late)), won, role, s0)
      modifies store, this`fuel, this`log, this`ticks
      ensures Ongoing(s0, role)
      ensures raise != Some(Interrupt) ==> Halted(s0, role)
      ensures raise.None? ==> Exhausted(s0, role, won.attempt)
      ensures raise.Some? ==> Cause(raise.value)
    {
      var interrupted := Pause();
      if interrupted { return Some(Interrupt); }
      raise := RollBackNow(role, won, late, deadlineAt, s0, |Attempts(store.Now().List(role))|);
    }

    method RollBackNow(role: Role, won: StageOutcome, late: Reading, deadlineAt: int, ghost s0: State, ghost k: nat)
      returns (raise: Option<Raise>)
      requires Setting() && Worthy(won, role) && Working(s0, role, k) && Pending(won, role, k) && LateAfter(late, won)
      modifies store, this`fuel, this`log, this`ticks
      ensures Halted(s0, role) && Ongoing(s0, role)
      ensures raise.None? ==> Exhausted(s0, role, won.attempt)
      ensures raise.Some? ==> Cause(raise.value)
    {
      RollBack(role, s0, k);
      AttemptOnRecord(s0, role, k, won.attempt);
      CleanHasAccount(s0, role, k);
      if Slot(won.attempt, false) in store.Now().At(role).disk.evidence {
        raise := None;
      } else {
        raise := RecordRollback(role, won, late, deadlineAt, s0, k);
      }
    }

    method RollBack(role: Role, ghost s0: State, ghost k: nat)
      requires Working(s0, role, k)
      modifies store
      ensures AtWork(s0, role, k) && Accounted(role, k)
    {
      ghost var s := store.Now();
      AbortMid(store.cfg, s0, s, role, k);
      store.AbortUncommittedStage(role);
      KeptSame(s, store.Now(), role, log);
    }

    method RecordRollback(role: Role, won: StageOutcome, late: Reading, deadlineAt: int, ghost s0: State, ghost k: nat)
      returns (raise: Option<Raise>)
      requires Setting() && Worthy(won, role) && AtWork(s0, role, k) && k + 1 == won.attempt && LateAfter(late, won)
      requires StillRetrying(role, k, won.cumulative - Tokens(role))
      modifies store, this`fuel, this`log, this`ticks
      ensures Halted(s0, role) && Ongoing(s0, role)
      ensures raise.None? ==> Exhausted(s0, role, won.attempt)
      ensures raise.Some? ==> Cause(raise.value)
    {
      var now := Look(deadlineAt);
      var line := RollbackOf(role, won, now.Left(), late);
      RollbackFits(role, won, now.Left(), late);
      LogGrows(log, line, role, limits, won.cumulative - Tokens(role));
      RetryingAccounts(role, k, won.cumulative - Tokens(role));
      raise := RecordAttempt(role, line, s0, k);
      if raise.None? {
        CleanHasAccount(s0, role, won.attempt);
      } else {
        CleanHasAccount(s0, role, k);
      }
    }

    /** The record file of the attempt exists exactly when the attempt is on record. */
    lemma AttemptOnRecord(s0: State, role: Role, k: nat, attempt: nat)
      requires AtWork(s0, role, k) && k <= attempt <= k + 1 && 1 <= attempt
      ensures Slot(attempt, false) in store.Now().At(role).disk.evidence <==> k == attempt
    {
      var s := store.Now();
      assert EvidenceOf(store.cfg, s, role);
      AttemptsSlots(s.manifest, role, attempt);
      UptoMeans(k);
      if (role, Slot(attempt, false)) in Slots(s.List(role)) {
        ListedEvidence(store.cfg, role, s.At(role), s.List(role), (role, Slot(attempt, false)));
      }
      if k == attempt {
        assert Upto(k)[k - 1] == attempt;
      }
    }

    // -------------------------------------------------------------- the stages

    function Flow(): seq<Role> { Workflow(store.cfg.condition) }

    /** The attempts on record for the first unfinished stage. */
    ghost function Open(): nat
      reads this`done, store
      requires store.Now().Total()
    {
      OpenIn(store.Now())
    }

    ghost function OpenIn(s: State): nat
      reads this`done
      requires s.Total()
    {
      if done < |Flow()| then |Attempts(s.List(Flow()[done]))| else 0
    }

    /** One more stage is recorded than is finished: the one that failed. */
    ghost predicate LostLast()
      reads this`done, this`stages, store
    {
      store.Now().Total() && LostIn(store.Now())
    }

    ghost predicate LostIn(s: State)
      requires s.Total()
      reads this`done, this`stages
    {
      && |stages| == done + 1 && done < |Flow()|
      && stages[done].role == Flow()[done] && stages[done].status != Succeeded
      && stages[done].attempt == OpenIn(s) && 1 <= OpenIn(s) && Clean(s, Flow()[done])
    }

    /** The stage that failed reports what the last of its attempts came to. */
    ghost predicate Lossy()
      reads this`done, this`stages, this`status, store
    {
      && store.Now().Total() && done < |Flow()| && done < |stages|
      && exists log: seq<Line>, i: Context ::
           IsAccount(store.Now(), Flow()[done], log, i) && LossFits(log, stages[done], status)
    }

    /** Finished stages, perhaps one that failed, and every attempt accounted for. */
    ghost predicate StagesIn(s: State)
      reads this`done, this`stages
    {
      && s.Total() && Progress(store.cfg, s, stages, done, OpenIn(s)) && AllHaveAccounts(s)
      && (|stages| == done || LostIn(s))
    }

    /** The last stage's primary artifact. */
    function FinalCandidate(): Option<(Role, Name)> { Some((Flow()[|Flow()| - 1], Primary(Flow()[|Flow()| - 1]))) }

    predicate ExecutedUpto(n: nat)
      reads this`executed, this`candidate
    {
      && |executed| <= n <= |Flow()| && executed == Flow()[..|executed|]
      && (candidate.None? || candidate == FinalCandidate())
    }

    predicate ExecutedAre(n: nat)
      reads this`executed, this`candidate
    {
      ExecutedUpto(n) && |executed| == n
    }

    /** What holds wherever an interrupt may arrive. */
    ghost predicate Recoverable()
      reads this`done, this`stages, this`executed, this`candidate, store
    {
      limits.condition == store.cfg.condition && StagesIn(store.Now()) && ExecutedUpto(done)
    }

    /** The context after `n` stages: the assignment, and what they have sealed. */
    ghost predicate HandedOn(s: State, n: nat, c: Context)
      requires s.Total()
    {
      && limits.condition == store.cfg.condition && n <= |Flow()| && c.Keys == KeysBefore(limits.condition, n)
      && (Task in c ==> c[Task] == task) && SealedTexts(s, c)
    }

    /** The findings that are known are the ones handed on, if any are. */
    ghost predicate KnownIn(c: Context, findings: seq<FindingLists.Finding>) {
      && Learned(findings)
      && (VerifierFindings in c ==> c[VerifierFindings] == FindingLists.CanonicalText(limits.grammar, findings))
    }

    /** The next stage was given its part of what was handed on before it. */
    ghost predicate Fetched(s0: State, role: Role)
      reads this`done, this`context, this`inputs
    {
      && s0.Total() && done < |Flow()| && role == Flow()[done]
      && forall s: State {:trigger HandedOn(s, done, context)} :: s == s0 ==>
           HandedOn(s, done, context) && StageInputs(limits.condition, role, context) == Some(inputs)
    }

    /** No stage can miss an input: all of it was handed on and is sealed. */
    lemma InputsReady(s0: State, role: Role)
      requires s0.Total() && done < |Flow()| && role == Flow()[done] && HandedOn(s0, done, context)
      requires KnownIn(context, known)
      ensures StageInputs(limits.condition, role, context).Some?
      ensures var i := StageInputs(limits.condition, role, context).value;
              Fed(limits, task, s0, role, i) && Informed(role, i, known)
    {
      InputsThere(limits.condition, done);
      var i := StageInputs(limits.condition, role, context).value;
      assert i.Keys == AllowedInputs(limits.condition, role).value;
      forall source: Role, name: Name | OutputKey(source, name).Some? && OutputKey(source, name).value in i
        ensures FedBy(s0, source, name, i[OutputKey(source, name).value])
      {
        assert OutputKey(source, name).value in context;
      }
    }

    lemma HandNext(s0: State, s: State, role: Role, won: StageOutcome)
      requires Fetched(s0, role) && s.Total() && OthersAs(s0, s, role) && Worthy(won, role)
      requires s.At(role).disk.seal.Some? && FilesAre(s.At(role).disk.files, won.artifacts)
      ensures var after := Applied(role, won.artifacts, Order(role), context);
              HandedOn(s, done + 1, after) && KnownIn(after, known)
    {
      var after := Applied(role, won.artifacts, Order(role), context);
      assert HandedOn(s0, done, context);
      UnwritableCause(won, role);
      HandsOn(role, won.artifacts, context);
      assert KeysBefore(limits.condition, done + 1) == KeysBefore(limits.condition, done) + KeysOf(role);
      TextsHandedOn(s0, s, role, won.artifacts, after);
      KnownHandedOn(role, won, after);
      assert Task !in KeysOf(role);
    }

    lemma TextsHandedOn(s0: State, s: State, role: Role, artifacts: map<Name, Text>, after: Context)
      requires s0.Total() && s.Total() && OthersAs(s0, s, role) && SealedTexts(s0, context)
      requires s.At(role).disk.seal.Some? && FilesAre(s.At(role).disk.files, artifacts)
      requires forall name: Name :: OutputKey(role, name).Some? ==>
                 name in artifacts && OutputKey(role, name).value in after
                 && after[OutputKey(role, name).value] == artifacts[name]
      requires forall k :: k in after && k !in KeysOf(role) ==> k in context && after[k] == context[k]
      ensures SealedTexts(s, after)
    {
      forall source: Role, name: Name | OutputKey(source, name).Some? && OutputKey(source, name).value in after
        ensures FedBy(s, source, name, after[OutputKey(source, name).value])
      {
        if source != role {
          NotMine(role, source, name);
          assert FedBy(s0, source, name, context[OutputKey(source, name).value]);
        } else {
          assert Encodes(s.At(role).disk.files, artifacts, name);
        }
      }
    }

    lemma NotMine(role: Role, source: Role, name: Name)
      requires OutputKey(source, name).Some? && source != role
      ensures OutputKey(source, name).value !in KeysOf(role)
    {
      if OutputKey(source, name).value in KeysOf(role) {
        var own :| own in Expected(role) && OutputKey(role, own) == OutputKey(source, name);
        KeyDetermines(role, own, source, name);
      }
    }

    /** What is known after a response was accepted. */
    lemma WonTells(role: Role, won: StageOutcome)
      requires Worthy(won, role)
      ensures Informed(role, inputs, known)
      ensures role == Verifier ==>
                Findings in won.artifacts
                && won.artifacts[Findings] == FindingLists.CanonicalText(limits.grammar, known)
      ensures role != Verifier ==> known == won.heard.known
    {
      assert Acceptable(limits, role, won.response, won.heard.known) && Given(role, won.heard);
      KnownIsLearned(role, won.heard, known);
    }

    /** What is known after a stage is what its output hands on. */
    lemma KnownHandedOn(role: Role, won: StageOutcome, after: Context)
      requires Worthy(won, role) && done < |Flow()| && role == Flow()[done]
      requires limits.condition == store.cfg.condition && context.Keys == KeysBefore(limits.condition, done)
      requires StageInputs(limits.condition, role, context) == Some(inputs)
      requires forall name: Name :: OutputKey(role, name).Some? ==>
                 name in won.artifacts && OutputKey(role, name).value in after
                 && after[OutputKey(role, name).value] == won.artifacts[name]
      requires forall k :: k in after && k !in KeysOf(role) ==> k in context && after[k] == context[k]
      ensures KnownIn(after, known)
    {
      WonTells(role, won);
      if role == Verifier {
        assert OutputKey(Verifier, Findings) == Some(VerifierFindings);
      } else if VerifierFindings in after {
        NotMine(role, Verifier, Findings);
        FindingsLate(limits.condition, done);
        assert inputs[VerifierFindings] == context[VerifierFindings];
      }
    }

    /** So many stages are finished with these results, and this was handed on. */
    ghost predicate Following(s: State, results: seq<StageResult>, n: nat, c: Context, f: seq<FindingLists.Finding>) {
      var follows :=
        && s.Total() && n <= |Flow()| && Progress(store.cfg, s, results, n, 0) && AllHaveAccounts(s)
        && (n < |Flow()| ==> Untouched(s, Flow()[n])) && limits.condition == store.cfg.condition
        && forall st: State {:trigger HandedOn(st, n, c)} :: st == s ==> HandedOn(st, n, c) && KnownIn(c, f);
      follows
    }

    /** Between two stages. */
    ghost predicate Between()
      reads this`done, this`stages, this`executed, this`candidate, this`context, this`known, store
    {
      Following(store.Now(), stages, done, context, known) && |stages| == done && ExecutedAre(done)
    }

    lemma BetweenStarts()
      requires Between() && done < |Flow()| && Fetched(store.Now(), Flow()[done])
      ensures AtWork(store.Now(), Flow()[done], 0) && Briefed(Flow()[done])
    {
      assert HandedOn(store.Now(), done, context);
      InputsReady(store.Now(), Flow()[done]);
    }

    /** A stage in progress, wherever it stands, is recoverable. */
    lemma OngoingRecovers(s0: State)
      requires done < |Flow()| && Progress(store.cfg, s0, stages, done, 0) && Ongoing(s0, Flow()[done])
      requires |stages| == done && ExecutedAre(done) && AllHaveAccounts(s0) && limits.condition == store.cfg.condition
      ensures Recoverable()
    {
      ProgressMid(store.cfg, s0, store.Now(), stages, done, 0, |Attempts(store.Now().List(Flow()[done]))|);
      LaterUnread(s0, store.Now(), done, 0);
      AllAccountsFrom(s0, store.Now(), Flow()[done]);
    }

    lemma HaltedIsOngoing(s0: State, role: Role)
      requires Halted(s0, role)
      ensures Ongoing(s0, role) && Clean(store.Now(), role)
    {
    }

    /** A stage that failed for good. */
    method Lose(role: Role, result: StageResult, status: RunStatus, ghost s0: State)
      requires done < |Flow()| && role == Flow()[done] && Progress(store.cfg, s0, stages, done, 0)
               && AllHaveAccounts(s0) && limits.condition == store.cfg.condition
      requires |stages| == done && ExecutedAre(done)
      requires 1 <= result.attempt && result.role == role && AtWork(s0, role, result.attempt)
      requires HasEnded(role, result.attempt) && LossFits(log, result, status)
      modifies this`stages, this`status
      ensures Recoverable() && LostLast() && Lossy() && this.status == status && executed == old(executed)
    {
      UptoMeans(result.attempt);
      CleanHasAccount(s0, role, result.attempt);
      SuppliedNow(s0, role);
      LaterUnread(s0, store.Now(), done, 0);
      AllAccountsFrom(s0, store.Now(), role);
      ProgressMid(store.cfg, s0, store.Now(), stages, done, 0, result.attempt);
      ghost var before := stages;
      stages := stages + [result];
      this.status := status;
      ProgressAppend(store.cfg, store.Now(), before, done, result.attempt, result);
      assert IsAccount(store.Now(), role, log, inputs);
    }

    /** The stage after the finished ones is sealed after `attempt` attempts. */
    ghost predicate Sealable(s0: State, role: Role, attempt: nat)
      reads this`done, this`stages, store
    {
      && done < |Flow()| && role == Flow()[done] && Progress(store.cfg, s0, stages, done, 0) && |stages| == done
      && 1 <= attempt && limits.condition == store.cfg.condition
      && store.Now().Total() && Mid(store.cfg, s0, store.Now(), role, attempt) && AllHaveAccounts(s0)
      && HasAccount(store.Now(), role)
      && VerifySealed(store.cfg, store.Now(), role) && store.Now().At(role).disk.seal.value.expectedAttempts == attempt
    }

    /** It is sealed with what its response puts out. */
    ghost predicate Wins(s0: State, role: Role, won: StageOutcome)
      reads this`done, this`stages, this`context, this`inputs, this`start, this`known, store
    {
      var holds :=
        && won.Won? && Sealable(s0, role, won.attempt) && Fetched(s0, role) && Worthy(won, role)
        && FilesAre(store.Now().At(role).disk.files, won.artifacts);
      holds
    }

    /** What a stage that is won leaves behind it. */
    lemma WonLeaves(s0: State, role: Role, won: StageOutcome)
      requires Wins(s0, role, won)
      ensures Following(store.Now(), stages + [StageResult(role, won.attempt, Succeeded, Expected(role))], done + 1,
                        Applied(role, won.artifacts, Order(role), context), known)
    {
      LaterUnread(s0, store.Now(), done, 0);
      AllAccountsFrom(s0, store.Now(), role);
      ProgressMid(store.cfg, s0, store.Now(), stages, done, 0, won.attempt);
      ProgressNext(store.cfg, store.Now(), stages, done, won.attempt,
        StageResult(role, won.attempt, Succeeded, Expected(role)));
      if done + 1 < |Flow()| {
        NextUntouched(store.cfg, store.Now(), stages, done, won.attempt);
      }
      HandNext(s0, store.Now(), role, won);
    }

    /** A stage that succeeded hands on its output and is noted as a result. */
    method NoteResult(role: Role, won: StageOutcome, ghost s0: State)
      requires Wins(s0, role, won) && ExecutedAre(done)
      modifies this`stages, this`done, this`context
      ensures done == old(done) + 1 && Noted() && role == Flow()[done - 1]
    {
      WonLeaves(s0, role, won);
      context := ApplyOutputs(role, won.artifacts, Order(role), context);
      AddResult(StageResult(role, won.attempt, Succeeded, Expected(role)));
    }

    method AddResult(result: StageResult)
      requires Following(store.Now(), stages + [result], done + 1, context, known) && |stages| == done
      requires ExecutedAre(done) && done < |Flow()|
      modifies this`stages, this`done
      ensures done == old(done) + 1 && Noted()
    {
      stages, done := stages + [result], done + 1;
    }

    lemma SealableRecovers(s0: State, role: Role, attempt: nat)
      requires Sealable(s0, role, attempt) && ExecutedAre(done)
      ensures Recoverable()
    {
      UptoMeans(attempt);
      OngoingRecovers(s0);
    }

    /** The last finished stage is noted as a result but not yet as executed. */
    ghost predicate Noted()
      reads this`done, this`stages, this`executed, this`candidate, this`context, this`known, store
    {
      Following(store.Now(), stages, done, context, known) && 1 <= done == |stages| && ExecutedAre(done - 1)
    }

    lemma NotedRecovers()
      requires Noted()
      ensures Recoverable()
    {
    }

    lemma BetweenRecovers()
      requires Between()
      ensures Recoverable()
    {
    }

    /** And then as executed. */
    method NoteExecuted(role: Role)
      requires Noted() && role == Flow()[done - 1]
      modifies this`executed, this`candidate
      ensures Between() && (done == |Flow()| ==> candidate == FinalCandidate())
    {
      executed := executed + [role];
      assert Flow()[..done] == Flow()[..done - 1] + [role];
      if |executed| == |Flow()| {
        candidate := Some((role, Primary(role)));
      }
    }

    /** An interrupt may come before each of the two notes. */
    method Win(role: Role, won: StageOutcome, ghost s0: State) returns (raise: Option<Raise>)
      requires Wins(s0, role, won) && ExecutedAre(done) && status == RunSucceeded
      modifies this`stages, this`executed, this`candidate, this`done, this`context, this`fuel
      ensures StageEnds(raise, old(done))
    {
      SealableRecovers(s0, role, won.attempt);
      var interrupted := Pause();
      if interrupted {
        InterruptEnds(done);
        raise := Some(Interrupt);
      } else {
        raise := Note(role, won, s0);
      }
    }

    method Note(role: Role, won: StageOutcome, ghost s0: State) returns (raise: Option<Raise>)
      requires Wins(s0, role, won) && ExecutedAre(done) && status == RunSucceeded
      modifies this`stages, this`executed, this`candidate, this`done, this`context, this`fuel
      ensures StageEnds(raise, old(done))
    {
      NoteResult(role, won, s0);
      raise := NoteRest(role);
    }

    lemma InterruptEnds(before: nat)
      requires Recoverable() && status == RunSucceeded && fuel == 0
      ensures StageEnds(Some(Interrupt), before)
    {
    }

    lemma BetweenEnds(before: nat)
      requires Between() && done == before + 1 && status == RunSucceeded
               && (done == |Flow()| ==> candidate == FinalCandidate())
      ensures StageEnds(None, before)
    {
      BetweenRecovers();
    }

    method NoteRest(role: Role) returns (raise: Option<Raise>)
      requires Noted() && role == Flow()[done - 1] && status == RunSucceeded
      modifies this`executed, this`candidate, this`fuel
      ensures StageEnds(raise, done - 1)
    {
      NotedRecovers();
      var interrupted := Pause();
      if interrupted {
        InterruptEnds(done - 1);
        raise := Some(Interrupt);
      } else {
        NoteExecuted(role);
        BetweenEnds(done - 1);
        raise := None;
      }
    }

    /** One stage from its first attempt to its result: its deadline is counted from one
        reading of the clock, and it is given its part of what was handed on. */
    method RunStage(role: Role) returns (raise: Option<Raise>)
      requires Setting() && Between() && done < |Flow()| && role == Flow()[done] && status == RunSucceeded
      modifies store, this`fuel, this`ticks, this`calls, this`log, this`stages, this`executed, this`candidate,
               this`status, this`done, this`start, this`context, this`inputs, this`known
      ensures StageEnds(raise, old(done))
    {
      ghost var s0 := store.Now();
      var deadlineAt := BeginStage(role);
      var o, attempt := ExecuteStage(role, deadlineAt, s0);
      raise := Resolve(role, attempt, o, deadlineAt, s0);
    }

    method BeginStage(role: Role) returns (deadlineAt: int)
      requires Setting() && Between() && done < |Flow()| && role == Flow()[done] && status == RunSucceeded
      modifies this`ticks, this`start, this`inputs
      ensures Onset(store.Now(), role) && AtWork(store.Now(), role, 0) && Briefed(role) && Running(deadlineAt, 1)
    {
      start := ticks;
      deadlineAt := Time(ticks) + limits.timeout;
      ticks := ticks + 1;
      NextReady(role);
      inputs := StageInputs(limits.condition, role, context).value;
      NowBegun(role);
    }

    lemma NextReady(role: Role)
      requires Between() && done < |Flow()| && role == Flow()[done]
      ensures StageInputs(limits.condition, role, context).Some?
    {
      assert HandedOn(store.Now(), done, context);
      InputsReady(store.Now(), role);
    }

    lemma NowBegun(role: Role)
      requires Between() && done < |Flow()| && role == Flow()[done] && status == RunSucceeded
      requires StageInputs(limits.condition, role, context) == Some(inputs)
      ensures Onset(store.Now(), role) && AtWork(store.Now(), role, 0) && Briefed(role)
    {
      assert HandedOn(store.Now(), done, context);
      BetweenStarts();
    }

    /** The stages before this one are finished, as they were when it started. */
    ghost predicate Onset(s0: State, role: Role)
      reads this`done, this`stages, this`executed, this`candidate, this`status, this`context, this`inputs
    {
      var holds :=
        && Fetched(s0, role) && status == RunSucceeded && limits.condition == store.cfg.condition
        && Progress(store.cfg, s0, stages, done, 0) && |stages| == done && ExecutedAre(done) && AllHaveAccounts(s0);
      holds
    }

    /** How one stage may leave the run. */
    ghost predicate StageEnds(raise: Option<Raise>, before: nat)
      reads this`done, this`stages, this`executed, this`candidate, this`status, this`context, this`known, this`fuel,
            store
    {
      var holds :=
        && Recoverable()
        && (raise.None? && status == RunSucceeded
          ==> Between() && done == before + 1 && (done == |Flow()| ==> candidate == FinalCandidate()))
        && (raise.None? && status != RunSucceeded ==> LostLast() && Lossy())
        && (raise.Some? && raise != Some(Interrupt)
          ==> done < |Flow()| && |stages| == done && Clean(store.Now(), Flow()[done]))
        && (raise.Some? ==> status == RunSucceeded && Cause(raise.value));
      holds
    }

    /** What the outcome of the attempts means for the run. */
    method Resolve(role: Role, attempt: nat, o: StageOutcome, deadlineAt: int, ghost s0: State)
      returns (raise: Option<Raise>)
      requires Setting() && Onset(s0, role)
      requires 1 <= attempt && Resolved(o, role, attempt, s0)
      requires Running(deadlineAt, 5 * attempt + 1) && (o.Won? ==> o.reading.tick < ticks)
      modifies store, this`fuel, this`ticks, this`log, this`stages, this`executed, this`candidate, this`status,
               this`done, this`context
      ensures StageEnds(raise, old(done))
    {
      match o
      case Raised(thrown) =>
        HaltedIsOngoing(s0, role);
        RaiseEnds(thrown, role, s0);
        raise := Some(thrown);
      case Lost(result, terminal) =>
        Lose(role, result, terminal, s0);
        LostEnds();
        raise := None;
      case Won(_, _, _, _, _, _) =>
        raise := Promotion(role, o, deadlineAt, s0);
    }

    /** A stage whose response was accepted: the transaction, and its rollback. */
    method Promotion(role: Role, won: StageOutcome, deadlineAt: int, ghost s0: State) returns (raise: Option<Raise>)
      requires Setting() && Onset(s0, role)
      requires Worthy(won, role) && AtWork(s0, role, won.attempt - 1) && Pressed(won, deadlineAt, 0)
      requires StillRetrying(role, won.attempt - 1, won.cumulative - Tokens(role))
      modifies store, this`fuel, this`ticks, this`log, this`stages, this`executed, this`candidate, this`status,
               this`done, this`context
      ensures StageEnds(raise, old(done))
    {
      var setback := CommitStage(role, won, deadlineAt, s0);
      raise := Conclusion(role, won, setback, deadlineAt, s0);
    }

    /** The authoritative success transition looks at the deadline once more. */
    method Conclusion(role: Role, won: StageOutcome, setback: Option<Setback>, deadlineAt: int, ghost s0: State)
      returns (raise: Option<Raise>)
      requires Setting() && Onset(s0, role)
      requires Worthy(won, role) && Concluded(setback, won, role, s0) && Pressed(won, deadlineAt, 8)
      modifies store, this`fuel, this`ticks, this`log, this`stages, this`executed, this`candidate, this`status,
               this`done, this`context
      ensures StageEnds(raise, old(done))
    {
      if setback.None? {
        raise := Apply(role, won, deadlineAt, s0);
      } else {
        raise := Retreat(role, won, setback.value, deadlineAt, s0);
      }
    }

    method Apply(role: Role, won: StageOutcome, deadlineAt: int, ghost s0: State) returns (raise: Option<Raise>)
      requires Setting() && Onset(s0, role)
      requires Worthy(won, role) && Concluded(None, won, role, s0) && Pressed(won, deadlineAt, 8)
      modifies store, this`fuel, this`ticks, this`log, this`stages, this`executed, this`candidate, this`status,
               this`done, this`context
      ensures StageEnds(raise, old(done))
      ensures raise.None? && status == RunSucceeded ==> Time(old(ticks)) < deadlineAt
    {
      var look := Look(deadlineAt);
      if look.Left() <= 0 {
        SealedButLate(role, won, look, s0);
        raise := Retreat(role, won, TooLate(look), deadlineAt, s0);
      } else {
        raise := Win(role, won, s0);
      }
    }

    lemma SealedButLate(role: Role, won: StageOutcome, late: Reading, s0: State)
      requires won.Won? && LateAfter(late, won)
      ensures Concluded(None, won, role, s0) ==> Concluded(Some(TooLate(late)), won, role, s0)
    {
      UptoMeans(won.attempt);
    }

    /** Roll back, and report or rethrow; an interrupt is not caught here. */
    method Retreat(role: Role, won: StageOutcome, setback: Setback, deadlineAt: int, ghost s0: State)
      returns (raise: Option<Raise>)
      requires Setting() && Onset(s0, role)
      requires Worthy(won, role) && Concluded(Some(setback), won, role, s0)
      modifies store, this`fuel, this`ticks, this`log, this`stages, this`status
      ensures StageEnds(raise, done) && (raise.None? ==> status == RunRetryExhausted)
    {
      match setback
      case TooLate(late) =>
        raise := RetreatLate(role, won, late, deadlineAt, s0);
      case Thrown(thrown) =>
        raise := RetreatThrown(role, thrown, s0);
    }

    /** An exception is rolled back, unless the interrupt comes first. */
    method RetreatThrown(role: Role, thrown: Raise, ghost s0: State) returns (raise: Option<Raise>)
      requires Onset(s0, role) && Ongoing(s0, role) && Cause(thrown)
      modifies store, this`fuel
      ensures StageEnds(raise, done) && raise.Some?
    {
      raise := Some(thrown);
      if thrown != Interrupt {
        var interrupted := Pause();
        if interrupted {
          raise := Some(Interrupt);
        } else {
          RollBackThrown(role, s0);
        }
      }
      RaiseEnds(raise.value, role, s0);
    }

    method RetreatLate(role: Role, won: StageOutcome, late: Reading, deadlineAt: int, ghost s0: State)
      returns (raise: Option<Raise>)
      requires Setting() && Onset(s0, role) && Worthy(won, role) && Concluded(Some(TooLate(late)), won, role, s0)
      modifies store, this`fuel, this`ticks, this`log, this`stages, this`status
      ensures StageEnds(raise, done) && (raise.None? ==> status == RunRetryExhausted)
    {
      raise := RollBackLate(role, won, late, deadlineAt, s0);
      if raise.None? {
        assert WasLate(won.attempt);
        LoseLate(role, won.attempt, s0);
      } else {
        RaiseEnds(raise.value, role, s0);
      }
    }

    method LoseLate(role: Role, attempt: nat, ghost s0: State)
      requires Onset(s0, role) && Exhausted(s0, role, attempt) && WasLate(attempt)
      modifies this`stages, this`status
      ensures StageEnds(None, done) && status == RunRetryExhausted
    {
      Lose(role, StageResult(role, attempt, RetryExhausted, {}), RunRetryExhausted, s0);
      LostEnds();
    }

    lemma RaiseEnds(raise: Raise, role: Role, s0: State)
      requires Onset(s0, role) && Ongoing(s0, role) && Cause(raise) && (raise != Interrupt ==> Clean(store.Now(), role))
      ensures StageEnds(Some(raise), done)
    {
      OngoingRecovers(s0);
    }

    lemma LostEnds()
      requires Recoverable() && LostLast() && Lossy() && status != RunSucceeded
      ensures StageEnds(None, done)
    {
    }

    method RollBackThrown(role: Role, ghost s0: State)
      requires Ongoing(s0, role)
      modifies store
      ensures Ongoing(s0, role) && Halted(s0, role)
    {
      ghost var s := store.Now();
      AbortMid(store.cfg, s0, s, role, |Attempts(s.List(role))|);
      UptoMeans(|Attempts(s.List(role))|);
      store.AbortUncommittedStage(role);
      OthersFeed(limits, s, store.Now(), role);
      AccountSame(s, store.Now(), role);
    }

    /** Every finished stage is verified again before the next one starts. */
    method VerifyExecuted() returns (ok: bool)
      requires Between()
      ensures ok
    {
      for i := 0 to |executed| {
        assert Finished(store.cfg, store.Now(), Flow()[i], stages[i]);
        assert executed[i] == Flow()[i];
        if !VerifySealed(store.cfg, store.Now(), executed[i]) { return false; }
      }
      ok := true;
    }

    method RunStages() returns (raise: Option<Raise>)
      requires Setting() && Between() && done == 0 && status == RunSucceeded
      modifies store, this`fuel, this`ticks, this`calls, this`log, this`stages, this`executed, this`candidate,
               this`status, this`done, this`start, this`context, this`inputs, this`known
      ensures StageEnds(raise, |Flow()| - 1)
    {
      BetweenRecovers();
      while |executed| < |Flow()|
        invariant done <= |Flow()| && Between() && status == RunSucceeded && Recoverable()
        invariant done == |Flow()| ==> candidate == FinalCandidate()
        decreases |Flow()| - done
      {
        var verified := VerifyExecuted();
        raise := RunStage(Flow()[|executed|]);
        if raise.Some? || status != RunSucceeded { return; }
      }
      BetweenEnds(|Flow()| - 1);
      raise := None;
    }

    // --------------------------------------------------------------- evaluation

    function TerminalRecord(): Payload
      reads this`status, this`stages, this`candidate, this`evaluation, this`evaluationError
    {
      Payload(status, stages, candidate, evaluation, evaluationError)
    }

    /** The part of the terminal record that is about the evaluation. */
    function Judgement(): Payload
      reads this`status, this`evaluation, this`evaluationError
    {
      Payload(status, [], None, evaluation, evaluationError)
    }

    predicate Coherent()
      reads this`status, this`evaluation, this`evaluationError, this`evaluationFile
    {
      EvaluationCoherence(Judgement(), evaluationFile, binding)
    }

    /** Once committed, the status, the outcome and the file agree. */
    predicate Verdict()
      reads this`status, this`evaluation, this`evaluationError, this`evaluationFile, this`evaluationCommitted
    {
      && (status == RunSucceeded || status == FailedEvaluation)
      && (evaluationCommitted ==> Coherent() && (status == RunSucceeded <==> evaluator == Judged(true)))
    }

    /** Put the verdict on file and note that it is there; an interrupt may come before
        either. */
    method FileVerdict(file: EvaluationRecord) returns (raise: Option<Raise>)
      requires !evaluationCommitted && EvaluationCoherence(Judgement(), Some(file), binding)
      requires (status == RunSucceeded || status == FailedEvaluation)
               && (status == RunSucceeded <==> evaluator == Judged(true))
      modifies this`fuel, this`evaluationFile, this`evaluationCommitted
      ensures Verdict() && raise in {None, Some(Interrupt)} && (raise.None? ==> evaluationCommitted)
      ensures raise.Some? ==> Cause(Interrupt)
    {
      var interrupted := Pause();
      if interrupted { return Some(Interrupt); }
      evaluationFile := Some(file);
      interrupted := Pause();
      if interrupted { return Some(Interrupt); }
      evaluationCommitted := true;
      raise := None;
    }

    /** Verify every stage once more, then judge the candidate. */
    method FinalizeEvaluation() returns (raise: Option<Raise>)
      requires Between() && status == RunSucceeded && !evaluationCommitted && evaluation.None? && evaluationError.None?
      modifies this`fuel, this`status, this`evaluationStarted, this`evaluationCommitted, this`evaluation,
               this`evaluationError, this`evaluationFile
      ensures evaluationStarted && Verdict() && raise in {None, Some(Interrupt)}
      ensures raise.None? ==> evaluationCommitted
      ensures raise.Some? ==> Cause(Interrupt)
    {
      evaluationStarted := true;
      var verified := VerifyExecuted();
      raise := Evaluate();
    }

    method Evaluate() returns (raise: Option<Raise>)
      requires status == RunSucceeded && !evaluationCommitted && evaluation.None? && evaluationError.None?
      modifies this`fuel, this`status, this`evaluationCommitted, this`evaluation, this`evaluationError,
               this`evaluationFile
      ensures Verdict() && raise in {None, Some(Interrupt)} && (raise.None? ==> evaluationCommitted)
      ensures raise.Some? ==> Cause(Interrupt)
    {
      var interrupted := Pause();
      if interrupted || evaluator.EvaluatorInterrupted? { return Some(Interrupt); }
      if evaluator.EvaluatorRaised? {
        status, evaluationError := FailedEvaluation, Some(evaluator.error);
        raise := FileVerdict(Errored(evaluator.error));
        return;
      }
      var outcome := Outcome(evaluator.passed, binding.version, binding.configDigest);
      evaluation := Some(outcome);
      if !outcome.passed {
        status := FailedEvaluation;
      }
      raise := FileVerdict(Evaluated(outcome));
    }

    // ------------------------------------------------------------ interruption

    /** A stage is finished on disk: its seal verifies and binds at least one attempt. */
    predicate FinishedOnDisk(role: Role)
      requires store.Now().Total()
      reads store
    {
      VerifySealed(store.cfg, store.Now(), role) && 1 <= store.Now().At(role).disk.seal.value.expectedAttempts
    }

    /** Where reconciling stands: the stages before `i` are finished and executed. */
    ghost predicate Reconciling(i: nat)
      reads this`done, this`stages, this`executed, this`candidate, store
    {
      Recoverable() && i <= |executed|
    }

    lemma StageRoles(j: nat)
      requires Recoverable() && j < |stages|
      ensures j < |Flow()| && stages[j].role == Flow()[j]
    {
      if j < done {
        assert Finished(store.cfg, store.Now(), Flow()[j], stages[j]);
      }
    }

    /** A stage finished on disk is on the list exactly when it is counted as finished. */
    lemma ListedIsDone(i: nat)
      requires Reconciling(i) && i < |Flow()| && FinishedOnDisk(Flow()[i])
      ensures if exists j :: 0 <= j < |stages| && stages[j].role == Flow()[i] then i < done else i == done == |stages|
    {
      if exists j :: 0 <= j < |stages| && stages[j].role == Flow()[i] {
        var j :| 0 <= j < |stages| && stages[j].role == Flow()[i];
        StageRoles(j);
      } else if i < |stages| {
        StageRoles(i);
      }
    }

    method TakeResult(role: Role)
      requires Recoverable() && done < |Flow()| && role == Flow()[done] && |stages| == done && FinishedOnDisk(role)
      modifies this`stages, this`done
      ensures Recoverable() && done == old(done) + 1 && |stages| == done
    {
      var stage := StageResult(role, store.Now().At(role).disk.seal.value.expectedAttempts, Succeeded, Expected(role));
      ProgressNext(store.cfg, store.Now(), stages, done, Open(), stage);
      if done + 1 < |Flow()| {
        NextUntouched(store.cfg, store.Now(), stages, done, Open());
      }
      stages, done := stages + [stage], done + 1;
    }

    lemma MarkKeepsAccounts(s: State, role: Role)
      requires AllHaveAccounts(s)
      ensures AllHaveAccounts(Touched(s, role, MarkSealed))
    {
      assert HasAccount(s, role);
      OthersFeed(limits, s, Touched(s, role, MarkSealed), role);
      AccountSame(s, Touched(s, role, MarkSealed), role);
      AllAccountsFrom(s, Touched(s, role, MarkSealed), role);
    }

    /** Remembering that a finished stage is sealed changes nothing that matters. */
    lemma MarkStages(s: State, role: Role, i: nat)
      requires StagesIn(s) && i < done && role == Flow()[i]
      ensures StagesIn(Touched(s, role, MarkSealed))
    {
      MarkKeeps(store.cfg, s, stages, done, OpenIn(s), i);
      MarkKeepsAccounts(s, role);
      assert done < |Flow()| ==> Flow()[done] != role;
    }

    method TakeSealed(role: Role, i: nat)
      requires Recoverable() && i < done && role == Flow()[i]
      modifies store
      ensures Recoverable()
    {
      MarkStages(store.Now(), role, i);
      store.Touch(role, MarkSealed);
    }

    method TakeExecuted(role: Role, i: nat, ghost n: nat)
      requires ExecutedUpto(n) && i <= |executed| && i < n && role == Flow()[i]
      modifies this`executed
      ensures ExecutedUpto(n) && i + 1 <= |executed|
    {
      PrefixHas(Flow(), |executed|, i);
      if role !in executed {
        executed := executed + [role];
        assert Flow()[..i + 1] == Flow()[..i] + [role];
      }
    }

    method TakeMissing(role: Role, i: nat)
      requires Reconciling(i) && i < |Flow()| && role == Flow()[i] && FinishedOnDisk(role)
      modifies this`stages, this`done
      ensures Recoverable() && i < done && done >= old(done)
    {
      ListedIsDone(i);
      if !exists j :: 0 <= j < |stages| && stages[j].role == role {
        TakeResult(role);
      }
    }

    /** A stage that is finished on disk: take it over where memory lacks it. */
    method TakeOver(role: Role, i: nat)
      requires Reconciling(i) && i < |Flow()| && role == Flow()[i] && FinishedOnDisk(role)
      modifies store, this`stages, this`executed, this`done
      ensures Reconciling(i + 1) && done >= old(done)
    {
      TakeMissing(role, i);
      TakeSealed(role, i);
      TakeExecuted(role, i, done);
    }

    /** What is left to verify: finished stages, perhaps one that failed, nothing half done.
        The quantifier keeps this from being unfolded where it is only passed on. */
    ghost predicate Settled()
      reads this`done, this`stages, this`executed, this`candidate, store
    {
      && store.Now().Total() && ExecutedAre(done)
      && forall s: State {:trigger AllHaveAccounts(s)} :: s == store.Now() ==> SettledIn(s)
    }

    ghost predicate SettledIn(s: State)
      reads this`done, this`stages
    {
      AllHaveAccounts(s) && Leaves(store.cfg, s, stages, done, OpenIn(s))
    }

    /** Memory is made to agree with the seals: they alone decide which stages succeeded,
        and the first stage without one is rolled back. */
    method Reconcile()
      requires Recoverable()
      modifies store, this`stages, this`executed, this`done, this`candidate
      ensures Settled() && done >= old(done)
      ensures done < |Flow()| ==> Clean(store.Now(), Flow()[done])
      ensures done == |Flow()| ==> candidate == FinalCandidate()
    {
      var i := 0;
      while i < |Flow()|
        invariant i <= |Flow()| && Reconciling(i) && done >= old(done)
      {
        if !FinishedOnDisk(Flow()[i]) {
          GiveUp(Flow()[i], i);
          return;
        }
        TakeOver(Flow()[i], i);
        i := i + 1;
      }
      AllSettled(i);
      if candidate.None? {
        candidate := FinalCandidate();
      }
    }

    lemma AllSettled(i: nat)
      requires Reconciling(i) && i == |Flow()|
      ensures Settled()
    {
    }

    lemma DoneIsOnDisk(i: nat)
      requires Recoverable() && i < |Flow()|
      ensures i < done ==> FinishedOnDisk(Flow()[i])
    {
    }

    lemma AbortKeepsAccounts(s: State, role: Role, k: nat)
      requires AllHaveAccounts(s) && Mid(store.cfg, s, s, role, k)
      requires Aborted(s, role).Total() && Unread(s, Aborted(s, role), role)
      ensures AllHaveAccounts(Aborted(s, role))
    {
      AbortMid(store.cfg, s, s, role, k);
      assert HasAccount(s, role);
      OthersFeed(limits, s, Aborted(s, role), role);
      AccountSame(s, Aborted(s, role), role);
      AllAccountsFrom(s, Aborted(s, role), role);
    }

    method GiveUp(role: Role, i: nat)
      requires Reconciling(i) && i < |Flow()| && role == Flow()[i] && !FinishedOnDisk(role)
      modifies store
      ensures Settled() && done == i && Clean(store.Now(), role)
    {
      ghost var s := store.Now();
      DoneIsOnDisk(i);
      AbortProgress(store.cfg, s, stages, done, Open());
      LaterUnread(s, Aborted(s, role), done, Open());
      AbortKeepsAccounts(s, role, Open());
      store.AbortUncommittedStage(role);
    }

    predicate CompletedTopology()
      reads this`executed, this`stages
    {
      executed == Flow() && |stages| == |Flow()| && forall j :: 0 <= j < |stages| ==> stages[j].status == Succeeded
    }

    lemma CompletedMeans()
      requires Settled()
      ensures CompletedTopology() <==> done == |Flow()|
    {
      assert AllHaveAccounts(store.Now());
      if done == |Flow()| {
        assert Flow()[..done] == Flow();
        forall j | 0 <= j < |stages| ensures stages[j].status == Succeeded {
          assert Finished(store.cfg, store.Now(), Flow()[j], stages[j]);
        }
      } else {
        assert |Flow()[..done]| < |Flow()|;
      }
    }

    /** The status fits how far the run came, and the evaluation on file. */
    ghost predicate StatusFits()
      reads this`status, this`done, this`candidate, this`evaluation, this`evaluationError, this`evaluationFile
    {
      && ((status == RunSucceeded || status == FailedEvaluation) <==> done == |Flow()|)
      && (status == RunSucceeded ==> candidate == FinalCandidate()) && Coherent()
    }

    /** The status after an interrupt, once memory agrees with the seals. */
    method MarkInterrupted()
      requires CompletedTopology() <==> done == |Flow()|
      requires done == |Flow()| ==> candidate == FinalCandidate()
      requires evaluationStarted ==> done == |Flow()| && Verdict()
      requires !evaluationStarted ==> !evaluationCommitted && evaluation.None?
      modifies this`status, this`evaluation, this`evaluationError, this`evaluationFile, this`evaluationCommitted
      ensures StatusFits() && (status == RunSucceeded ==> evaluator == Judged(true))
    {
      if evaluationCommitted { return; }
      if evaluationStarted || CompletedTopology() {
        status, evaluationError, evaluation := FailedEvaluation, Some("interrupted during evaluation"), None;
        evaluationFile := Some(Errored("interrupted during evaluation"));
        evaluationCommitted := true;
      } else {
        status := InfrastructureFailure;
      }
    }

    /** A stage without a seal has left nothing but its evidence. */
    ghost predicate NoResidue()
      reads store
    {
      store.Now().Total() && forall role: Role :: Sealed(store.Now(), role) || Clean(store.Now(), role)
    }

    /** How the stages and the evaluation may come to an end, and with what raised. */
    ghost predicate Ends(raise: Option<Raise>)
      reads this`status, this`done, this`stages, this`executed, this`candidate, this`evaluation, this`evaluationError
      reads this`evaluationFile, this`evaluationStarted, this`evaluationCommitted, this`context, this`known, this`fuel
      reads store
    {
      var holds :=
        && Recoverable()
        && (evaluationStarted ==> done == |Flow()| && Verdict() && candidate == FinalCandidate() && Between())
        && (!evaluationStarted ==> !evaluationCommitted && evaluation.None?)
        && (raise.None? && evaluationStarted ==> evaluationCommitted)
        && (raise.None? && !evaluationStarted ==> LostLast() && Lossy())
        && (raise.Some? ==> Cause(raise.value))
        && (raise.Some? && raise != Some(Interrupt) ==>
              !evaluationStarted && done < |Flow()| && |stages| == done && Clean(store.Now(), Flow()[done]));
      holds
    }

    method EvaluateAll() returns (raise: Option<Raise>)
      requires Between() && done == |Flow()| && candidate == FinalCandidate() && status == RunSucceeded
      requires !evaluationStarted && !evaluationCommitted && evaluation.None? && evaluationError.None?
      modifies this`fuel, this`status, this`evaluationStarted, this`evaluationCommitted, this`evaluation,
               this`evaluationError, this`evaluationFile
      ensures Ends(raise)
    {
      BetweenRecovers();
      raise := FinalizeEvaluation();
    }

    method RunAndEvaluate() returns (raise: Option<Raise>)
      requires Setting() && New()
      modifies this, store
      ensures Ends(raise)
    {
      FreshIsBetween();
      raise := RunStages();
      raise := EvaluateDone(raise);
    }

    /** Only a run that finished its stages is evaluated. */
    method EvaluateDone(thrown: Option<Raise>) returns (raise: Option<Raise>)
      requires StageEnds(thrown, |Flow()| - 1)
      requires !evaluationStarted && !evaluationCommitted && evaluation.None? && evaluationError.None?
      modifies this`fuel, this`status, this`evaluationStarted, this`evaluationCommitted, this`evaluation,
               this`evaluationError, this`evaluationFile
      ensures Ends(raise)
    {
      raise := thrown;
      if raise.None? && status == RunSucceeded {
        StagesDone();
        raise := EvaluateAll();
      } else {
        UnevaluatedEnds(raise);
      }
    }

    lemma StagesDone()
      requires StageEnds(None, |Flow()| - 1) && status == RunSucceeded
      ensures Between() && done == |Flow()| && candidate == FinalCandidate()
    {
    }

    lemma UnevaluatedEnds(raise: Option<Raise>)
      requires StageEnds(raise, |Flow()| - 1) && (raise.Some? || status != RunSucceeded)
      requires !evaluationStarted && !evaluationCommitted && evaluation.None?
      ensures Ends(raise)
    {
    }

    lemma EndsSettled(raise: Option<Raise>)
      requires Ends(raise) && raise != Some(Interrupt)
      ensures store.Now().Total() && SettledIn(store.Now())
    {
    }

    /** What the status says about how the run ended. */
    ghost predicate Reported(raise: Option<Raise>)
      reads this`done, this`stages, this`status, this`fuel, store
    {
      && (status == RunSucceeded ==> evaluator == Judged(true))
      && match raise
         case None => if done == |Flow()| then (status == RunSucceeded <==> evaluator == Judged(true)) else Lossy()
         case Some(Interrupt) => Cause(Interrupt)
         case Some(GovernanceRaise) => status == FailedGovernance && Cause(GovernanceRaise)
         case Some(OrdinaryRaise) => status == InfrastructureFailure && Cause(OrdinaryRaise)
    }

    /** What the run leaves once it is concluded; guarded in the same way. */
    ghost predicate Leaving()
      reads this`done, this`stages, this`status, this`candidate, this`evaluation, this`evaluationError,
            this`evaluationFile, store
    {
      && store.Now().Total() && StatusFits()
      && forall s: State {:trigger AllHaveAccounts(s)} :: s == store.Now() ==> SettledIn(s)
    }

    lemma LeavingAccepted()
      requires Leaving()
      ensures Accepted(store.cfg, store.Now(), TerminalRecord(), evaluationFile, binding)
      ensures NoResidue() && AllHaveAccounts(store.Now())
    {
      assert AllHaveAccounts(store.Now());
      CoherenceOf(TerminalRecord(), Judgement(), evaluationFile, binding);
      LeavesAccepted(store.cfg, store.Now(), TerminalRecord(), done, Open(), evaluationFile, binding);
      LeavesNoResidue(store.cfg, store.Now(), stages, done, Open());
    }

    method Conclude(raise: Option<Raise>)
      requires Ends(raise)
      modifies this`status, this`stages, this`executed, this`done, this`candidate
      modifies this`evaluation, this`evaluationError, this`evaluationFile, this`evaluationCommitted, store
      ensures Leaving() && Reported(raise)
    {
      if raise == Some(Interrupt) {
        ReportInterrupt();
        InterruptReported();
      } else {
        ReportRaise(raise);
      }
    }

    method ReportInterrupt()
      requires Ends(Some(Interrupt))
      modifies this`status, this`stages, this`executed, this`done, this`candidate
      modifies this`evaluation, this`evaluationError, this`evaluationFile, this`evaluationCommitted, store
      ensures Settled() && StatusFits() && (status == RunSucceeded ==> evaluator == Judged(true))
    {
      Reconcile();
      CompletedMeans();
      MarkInterrupted();
    }

    lemma InterruptReported()
      requires Settled() && StatusFits() && (status == RunSucceeded ==> evaluator == Judged(true)) && Cause(Interrupt)
      ensures Leaving() && Reported(Some(Interrupt))
    {
      assert AllHaveAccounts(store.Now());
      SettledLeaves();
    }

    method ReportRaise(raise: Option<Raise>)
      requires Ends(raise) && raise != Some(Interrupt)
      modifies this`status
      ensures Leaving() && Reported(raise)
    {
      EndsSettled(raise);
      if raise.Some? {
        status := if raise.value.GovernanceRaise? then FailedGovernance else InfrastructureFailure;
      }
      SettledLeaves();
    }

    lemma SettledLeaves()
      requires store.Now().Total() && SettledIn(store.Now()) && StatusFits()
      ensures Leaving()
    {
    }

    // ------------------------------------------------------- runs that go well

    /** No reading of the clock comes a whole timeout after an earlier one of the first attempt. */
    ghost predicate Timely() {
      forall m: nat, n: nat :: m < n <= m + Span(1) ==> Time(n) < Time(m) + limits.timeout
    }

    /** Every call of every stage, whatever it is given, answers with a response that passes
        its checks and can be written down, on tokens that are there. */
    ghost predicate Smooth() {
      && Timely()
      && (forall role: Role :: role in Flow() ==> Tokens(role) <= limits.ceiling)
      && (forall n, role: Role, i: Context, f: seq<FindingLists.Finding> ::
            role in Flow() && Informed(role, i, f) ==> Accepts(n, role, i, f))
      && (forall n, role: Role, i: Context ::
            role in Flow() ==> Reply(n, role, i).Responded? && !Improper(Reply(n, role, i)))
      && forall n, role: Role, i: Context :: role in Flow() ==> !Faulty(role, Reply(n, role, i), RawText(n))
    }

    /** Then the first attempt of a stage cannot have failed. */
    lemma SmoothWins(s: State, role: Role, log: seq<Line>, i: Context)
      requires Smooth() && s.Total() && role in Flow() && IsAccount(s, role, log, i) && log != []
      ensures log[0].record.decision == Promote
    {
      assert GoodRecord(log, 0, role, limits) && Witnessed(role, log[0]);
      var line := log[0];
      var reading := line.reading;
      assert Time(reading.tick) < Time(reading.start) + limits.timeout;
      assert log[..1] == [line] && [line][..0] == [] && Consumed([]) == 0;
      assert Consumed([line]) == line.record.consumed;
      if line.heard.Some? {
        var e := line.heard.value;
        var n :| Reply(n, role, e.inputs) == e.answer && RawText(n) == e.raw;
        assert Accepts(n, role, e.inputs, e.known);
      }
    }

    lemma SmoothNotLossy()
      requires Smooth()
      ensures !Lossy()
    {
      assert Timely() ==> !WasLate(1);
      if Lossy() {
        var log: seq<Line>, i: Context :|
          IsAccount(store.Now(), Flow()[done], log, i) && LossFits(log, stages[done], status);
        SmoothWins(store.Now(), Flow()[done], log, i);
        assert false;
      }
    }

    /** Everything went well: all stages are finished, and the evaluator alone decides. */
    ghost predicate Finishes(raise: Option<Raise>)
      reads this`done, this`status
    {
      raise.None? && done == |Flow()| && (status == RunSucceeded <==> evaluator == Judged(true))
    }

    /** A run in which every call goes well and no interrupt comes finishes all stages. */
    lemma SmoothFinishes(raise: Option<Raise>)
      requires Smooth() && Reported(raise) && 0 < fuel && !evaluator.EvaluatorInterrupted?
      ensures Finishes(raise)
    {
      SmoothNotLossy();
    }

    /** The whole run, interrupted or not; an interrupt is raised again afterwards. What it
        leaves is what the independent verifier accepts: attempts, stages, seals, evidence,
        status and evaluation. Every role's evidence is a whole account of its attempts, and
        every sealed file is what the last of them answered. */
    method Execute() returns (payload: Payload, raise: Option<Raise>)
      requires Setting() && New()
      modifies this, store
      ensures store.Now().Total() && payload == TerminalRecord()
      ensures Accepted(store.cfg, store.Now(), payload, evaluationFile, binding)
      ensures AllHaveAccounts(store.Now()) && NoResidue() && Reported(raise)
      ensures Smooth() && 0 < fuel && !evaluator.EvaluatorInterrupted? ==> Finishes(raise)
    {
      raise := RunAndEvaluate();
      Conclude(raise);
      payload := TerminalRecord();
      LeavingAccepted();
      if Smooth() && 0 < fuel && !evaluator.EvaluatorInterrupted? {
        SmoothFinishes(raise);
      }
    }

    // ------------------------------------------- what the account on disk says

    /** This call of the role, given these inputs and with these findings known, answered
        with a response that passes every check. */
    ghost predicate Accepts(n: nat, role: Role, i: Context, f: seq<FindingLists.Finding>) {
      && Reply(n, role, i).Responded? && Acceptable(limits, role, Reply(n, role, i).response, f)
      && Informed(role, i, f)
    }

    lemma SealedBy(s: State, role: Role) returns (n: nat, i: Context, f: seq<FindingLists.Finding>)
      requires AllHaveAccounts(s) && Sealed(s, role)
      ensures Accepts(n, role, i, f) && Fed(limits, task, s, role, i)
      ensures FilesAre(s.At(role).disk.files, Output(limits, role, Reply(n, role, i).response))
    {
      assert HasAccount(s, role);
      var log: seq<Line>, given: Context :| IsAccount(s, role, log, given);
      var e := LastAccepted(s, role, log, given);
      n :| Reply(n, role, e.inputs) == e.answer && RawText(n) == e.raw;
      i, f := given, e.known;
    }

    /** The last line of a sealed stage's account is about an accepted response. */
    lemma LastAccepted(s: State, role: Role, log: seq<Line>, given: Context) returns (e: Exchange)
      requires s.Total() && IsAccount(s, role, log, given) && Sealed(s, role)
      ensures Given(role, e) && e.inputs == given && Fed(limits, task, s, role, given) && e.answer.Responded?
      ensures Acceptable(limits, role, e.answer.response, e.known)
      ensures FilesAre(s.At(role).disk.files, Output(limits, role, e.answer.response))
    {
      var j := |log| - 1;
      assert GoodRecord(log, j, role, limits) && Witnessed(role, log[j]) && Uses(log[j], given);
      e := log[j].heard.value;
    }

    /** A verifier's stage commits the canonical text of the findings its response states,
        whatever its own artifact says; any other stage commits its artifacts as encoded. */
    ghost predicate Commits(s: State, role: Role, response: Response)
      requires s.Total()
    {
      var g, files := limits.grammar, s.At(role).disk.files;
      if role == Verifier then
        exists findings: seq<FindingLists.Finding> ::
          States(response, findings) && files == map[Findings := FindingLists.CanonicalText(g, findings)]
      else
        && files.Keys == response.artifacts.Keys == Expected(role)
        && forall name :: name in files ==> files[name] == Utf8.Encode(response.artifacts[name])
    }

    ghost predicate States(response: Response, findings: seq<FindingLists.Finding>) {
      var g := limits.grammar;
      && response.structured.Some?
      && FindingLists.RequireStructured(response.structured.value, g.findings).Some?
      && FindingLists.ParseFindings(g, FindingLists.RequireStructured(response.structured.value, g.findings).value)
         == Some(findings)
      && FindingLists.Sound(g, findings)
    }

    ghost predicate Disposes(response: Response, findings: seq<FindingLists.Finding>) {
      var g := limits.grammar;
      && response.structured.Some?
      && FindingLists.RequireStructured(response.structured.value, g.dispositions).Some?
      && exists dispositions: seq<FindingLists.Disposition> ::
           FindingLists.ParseDispositions(g,
             FindingLists.RequireStructured(response.structured.value, g.dispositions).value) == Some(dispositions)
           && FindingLists.Disposed(g, findings, dispositions)
    }

    lemma CommitsMeans(s: State, role: Role, response: Response, f: seq<FindingLists.Finding>)
      requires s.Total() && Acceptable(limits, role, response, f)
      requires FilesAre(s.At(role).disk.files, Output(limits, role, response))
      ensures Commits(s, role, response)
    {
      var files := s.At(role).disk.files;
      if role == Verifier {
        var findings := FindingsOf(limits, response);
        var text := FindingLists.CanonicalText(limits.grammar, findings);
        CanonicalIsAscii(limits.grammar, findings);
        assert Encodes(files, Output(limits, role, response), Findings);
        assert Expected(Verifier) == {Findings};
        assert files == map[Findings := text];
        assert States(response, findings);
      } else {
        forall name | name in files ensures files[name] == Utf8.Encode(response.artifacts[name]) {
          assert Encodes(files, Output(limits, role, response), name);
        }
      }
    }

    /** Every sealed stage holds what some accepted answer said, given the assignment and what
        earlier stages have sealed, and nothing else. */
    lemma SealedWasAnswered(s: State, role: Role)
      requires AllHaveAccounts(s) && Sealed(s, role)
      ensures exists n, i: Context, f: seq<FindingLists.Finding> ::
                Accepts(n, role, i, f) && Fed(limits, task, s, role, i) && Commits(s, role, Reply(n, role, i).response)
    {
      var n, i, f := SealedBy(s, role);
      CommitsMeans(s, role, Reply(n, role, i).response, f);
    }

    /** A sealed revision of Condition C disposes of findings whose canonical text is the
        sealed output of the verifier, and its call was shown exactly that text. */
    lemma ReviserDisposes(s: State)
      requires AllHaveAccounts(s) && Sealed(s, Reviser) && limits.condition == C
      ensures s.At(Verifier).disk.seal.Some? && Findings in s.At(Verifier).disk.files
      ensures exists n, i: Context, f: seq<FindingLists.Finding> ::
                && Accepts(n, Reviser, i, f) && Disposes(Reply(n, Reviser, i).response, f)
                && VerifierFindings in i && i[VerifierFindings] == FindingLists.CanonicalText(limits.grammar, f)
                && s.At(Verifier).disk.files[Findings] == FindingLists.CanonicalText(limits.grammar, f)
    {
      var n, i, f := SealedBy(s, Reviser);
      CanonicalIsAscii(limits.grammar, f);
      assert OutputKey(Verifier, Findings) == Some(VerifierFindings);
      assert FedBy(s, Verifier, Findings, i[VerifierFindings]);
    }

    /** Where all three stages of Condition C are sealed, the reviser was given what the
        handoff makes of the other two accepted responses, as encoded. */
    lemma HandoffOnDisk(s: State)
      requires AllHaveAccounts(s) && limits.condition == C
      requires Sealed(s, Solver) && Sealed(s, Verifier) && Sealed(s, Reviser)
      ensures exists n, i: Context, f, n1, i1: Context, f1, n2, i2: Context, f2 ::
                && Accepts(n, Reviser, i, f) && Accepts(n1, Solver, i1, f1) && Accepts(n2, Verifier, i2, f2)
                && HandsOver(Reply(n1, Solver, i1).response, Reply(n2, Verifier, i2).response, i)
    {
      var n, i, f := SealedBy(s, Reviser);
      var n1, i1, f1 := SealedBy(s, Solver);
      var n2, i2, f2 := SealedBy(s, Verifier);
      var solver, verifier := Reply(n1, Solver, i1).response, Reply(n2, Verifier, i2).response;
      assert OutputKey(Verifier, Findings) == Some(VerifierFindings)
        && OutputKey(Solver, Candidate) == Some(SolverCandidate);
      assert i.Keys == {Task, SolverCandidate, VerifierFindings};
      assert FedBy(s, Verifier, Findings, i[VerifierFindings]) && FedBy(s, Solver, Candidate, i[SolverCandidate]);
      assert Candidate in Expected(Solver);
      assert Encodes(s.At(Verifier).disk.files, Output(limits, Verifier, verifier), Findings);
      assert Encodes(s.At(Solver).disk.files, Output(limits, Solver, solver), Candidate);
      ReviserSees(limits.grammar, task, solver.artifacts, verifier.artifacts, FindingsOf(limits, verifier));
      assert HandsOver(solver, verifier, i);
    }

    /** The same keys, and under each of them the same text as encoded. */
    ghost predicate HandsOver(solver: Response, verifier: Response, i: Context) {
      var given := StageInputs(C, Reviser,
        BeforeReviser(limits.grammar, task, solver.artifacts, verifier.artifacts, FindingsOf(limits, verifier)));
      && given.Some? && given.value.Keys == i.Keys
      && forall key :: key in i ==> Utf8.Encode(given.value[key]) == Utf8.Encode(i[key])
    }

    /** Not many readings after the stage began, the clock was past its deadline, or before it. */
    ghost predicate LateSince(start: nat, n: nat) {
      exists t: nat :: start < t <= start + Span(n) && Time(start) + limits.timeout <= Time(t)
    }

    ghost predicate InTimeSince(start: nat, n: nat) {
      exists t: nat :: start < t <= start + Span(n) && Time(t) < Time(start) + limits.timeout
    }

    /** A timeout rests on the clock or on an answer that says so; a promotion, and a refusal
        for want of tokens before any call, on a look at the clock that was in time. */
    ghost predicate Timing(s: State, role: Role, n: nat, start: nat)
      requires s.Total()
    {
      && OnFile(s, role, n).Some?
      && var r: Record := OnFile(s, role, n).value;
         && (r.failure == Some(TimeoutClass) ==>
               LateSince(start, n) || (r.began && exists c, i: Context :: Reply(c, role, i) == TimedOut))
         && (r.decision == Promote || (r.failure == Some(BudgetClass) && !r.began) ==> InTimeSince(start, n))
    }

    /** All attempts of a stage are held to one deadline, counted from one reading. */
    lemma TimesFit(s: State, role: Role)
      requires Setting() && AllHaveAccounts(s)
      ensures exists start :: HeldTo(s, role, start)
    {
      assert HasAccount(s, role);
      var log: seq<Line>, i: Context :| IsAccount(s, role, log, i);
      var start := if log == [] then 0 else log[0].reading.start;
      forall n | 1 <= n <= |log| ensures Timing(s, role, n, start) {
        LineTiming(s, role, log, n - 1);
      }
      assert HeldTo(s, role, start);
    }

    /** The raw text of a response or a provider's failure is on disk beside the record, cut to
        the limit; nothing is kept of any other call, or where there is no text. */
    ghost predicate RawOnFile(s: State, role: Role, n: nat, answer: Answer, raw: Option<Text>)
      requires s.Total()
    {
      var evidence := s.At(role).disk.evidence;
      if (answer.Responded? || answer.ProviderFailed?) && raw.Some? then
        var kept := RawEvidence.Bounded(store.cfg.markers, raw, store.cfg.limit);
        && kept.Ok? && kept.value.Present? && Slot(n, true) in evidence
        && evidence[Slot(n, true)] == Utf8.Encode(kept.value.text)
      else Slot(n, true) !in evidence
    }

    /** Every attempt on record that began a call is about one call that was made, with these
        inputs, and keeps what was heard. */
    lemma HeardOnFile(s: State, role: Role, n: nat)
      requires Setting() && AllHaveAccounts(s) && 1 <= n <= |Attempts(s.List(role))|
      ensures OnFile(s, role, n).Some?
      ensures OnFile(s, role, n).value.began ==>
                exists c, i: Context :: Fed(limits, task, s, role, i)
                                        && RawOnFile(s, role, n, Reply(c, role, i), RawText(c))
      ensures !OnFile(s, role, n).value.began ==> Slot(n, true) !in s.At(role).disk.evidence
    {
      assert HasAccount(s, role);
      var log: seq<Line>, given: Context :| IsAccount(s, role, log, given);
      var line := log[n - 1];
      assert GoodRecord(log, n - 1, role, limits) && Witnessed(role, line) && Uses(line, given);
      assert LineAt(store.cfg, s.At(role), log, n - 1) && OnFile(s, role, n) == Some(line.record);
      if line.heard.Some? {
        var e := line.heard.value;
        var c :| Reply(c, role, e.inputs) == e.answer && RawText(c) == e.raw;
        assert RawOnFile(s, role, n, Reply(c, role, given), RawText(c));
      }
    }

    /** What a lost run reports is what the last record of the lost stage says. */
    lemma LossOnFile()
      requires Setting() && Lossy() && AllHaveAccounts(store.Now())
      ensures var (role, n) := (Flow()[done], stages[done].attempt);
              && OnFile(store.Now(), role, n).Some? && n == |Attempts(store.Now().List(role))|
              && var r: Record := OnFile(store.Now(), role, n).value;
                 && (status == FailedBudget <==> r.failure == Some(BudgetClass))
                 && (status == FailedContract <==> r.failure == Some(ContractClass))
                 && (status == InfrastructureFailure ==> r.failure == Some(ProviderClass))
                 && (r.failure in {Some(TimeoutClass), Some(ModelClass), None} ==> status == RunRetryExhausted)
                 && status in {FailedBudget, FailedContract, InfrastructureFailure, RunRetryExhausted}
    {
      var log: seq<Line>, i: Context :|
        IsAccount(store.Now(), Flow()[done], log, i) && LossFits(log, stages[done], status);
      var n := |log|;
      assert GoodRecord(log, n - 1, Flow()[done], limits)
        && LineAt(store.cfg, store.Now().At(Flow()[done]), log, n - 1);
    }

    ghost predicate HeldTo(s: State, role: Role, start: nat)
      requires s.Total()
    {
      forall n :: 1 <= n <= |Attempts(s.List(role))| ==> Timing(s, role, n, start)
    }

    lemma LineTiming(s: State, role: Role, log: seq<Line>, j: nat)
      requires Setting() && s.Total() && GoodLog(log, role, limits) && Kept(s, role, log) && j < |log|
      ensures Timing(s, role, j + 1, log[0].reading.start)
    {
      assert GoodRecord(log, j, role, limits) && Witnessed(role, log[j]) && LineAt(store.cfg, s.At(role), log, j);
      var line := log[j];
      assert OnFile(s, role, j + 1) == Some(line.record);
      if line.heard.Some? {
        var e := line.heard.value;
        var c :| Reply(c, role, e.inputs) == e.answer && RawText(c) == e.raw;
      }
    }

    /** The record of an attempt, as read back from its file. */
    function OnFile(s: State, role: Role, n: nat): Option<Record>
      requires s.Total()
    {
      if Slot(n, false) in s.At(role).disk.evidence then store.cfg.parse(s.At(role).disk.evidence[Slot(n, false)])
        else None
    }

    /** Read back from disk alone, the records of a role are numbered from one, all but the
        last say that the attempt is to be retried, and their running totals are sums that
        stay within the ceiling. */
    lemma RecordsAddUp(s: State, role: Role, n: nat)
      requires Setting() && AllHaveAccounts(s) && 1 <= n <= |Attempts(s.List(role))|
      ensures OnFile(s, role, n).Some? && (1 < n ==> OnFile(s, role, n - 1).Some?)
      ensures var r: Record := OnFile(s, role, n).value;
              && r.role == role && r.attempt == n <= limits.maxRetries + 1
              && (n < |Attempts(s.List(role))| ==> r.decision == Retry)
              && r.cumulative == (if n == 1 then 0 else OnFile(s, role, n - 1).value.cumulative)
                + r.consumed <= limits.ceiling
              && r.consumed == if r.began then r.projected else 0
    {
      assert HasAccount(s, role);
      var log: seq<Line>, i: Context :| IsAccount(s, role, log, i);
      assert GoodRecord(log, n - 1, role, limits) && LineAt(store.cfg, s.At(role), log, n - 1);
      var upto := log[..n];
      assert upto[..n - 1] == log[..n - 1] && upto[n - 1] == log[n - 1];
      assert Consumed(upto) == Consumed(log[..n - 1]) + log[n - 1].record.consumed;
      if 1 < n {
        assert GoodRecord(log, n - 2, role, limits) && LineAt(store.cfg, s.At(role), log, n - 2);
        assert OnFile(s, role, n - 1) == Some(log[n - 2].record);
      }
      if n < |log| {
        assert log[..|log| - 1][n - 1] == log[n - 1];
      }
    }

    /** A new runner over a new store. */
    ghost predicate New()
      reads this, store
    {
      && store.Now().Total() && (forall r: Role :: store.Now().roles[r] == EMPTY) && store.manifest == Blank
      && limits.condition == store.cfg.condition && context == map[Task := task] && known == []
      && stages == [] && executed == [] && status == RunSucceeded && candidate.None? && done == 0
      && !evaluationStarted && !evaluationCommitted && evaluation.None? && evaluationError.None? && evaluationFile.None?
    }

    lemma FreshIsBetween()
      requires New()
      ensures Between()
    {
      forall r: Role ensures Untouched(store.Now(), r) && HasAccount(store.Now(), r) {
        assert IsAccount(store.Now(), r, [], map[]);
      }
      assert HandedOn(store.Now(), 0, context);
    }
  }

  /** Coherence of the evaluation looks at nothing but the evaluation. */
  lemma CoherenceOf(p: Payload, q: Payload, file: Option<EvaluationRecord>, binding: EvaluatorBinding)
    requires p.status == q.status && p.evaluation == q.evaluation && p.evaluationError == q.evaluationError
    ensures EvaluationCoherence(p, file, binding) <==> EvaluationCoherence(q, file, binding)
  {
  }

  lemma PrefixHas(flow: seq<Role>, n: nat, i: nat)
    requires n <= |flow| && i < |flow| && forall a, b :: 0 <= a < b < |flow| ==> flow[a] != flow[b]
    ensures flow[i] in flow[..n] <==> i < n
  {
    if i < n {
      assert flow[..n][i] == flow[i];
    } else {
      assert forall j :: 0 <= j < n ==> flow[..n][j] == flow[j] && flow[j] != flow[i];
    }
  }

  lemma ProgressAppend(cfg: Config, s: State, stages: seq<StageResult>, i: nat, k: nat, stage: StageResult)
    requires Progress(cfg, s, stages, i, k) && |stages| == i
    ensures Progress(cfg, s, stages + [stage], i, k)
  {
    forall j | 0 <= j < i ensures Finished(cfg, s, Workflow(cfg.condition)[j], (stages + [stage])[j]) {
      assert Finished(cfg, s, Workflow(cfg.condition)[j], stages[j]);
    }
  }

  lemma NextUntouched(cfg: Config, s: State, stages: seq<StageResult>, i: nat, k: nat)
    requires Progress(cfg, s, stages, i, k) && i + 1 < |Workflow(cfg.condition)|
    ensures Untouched(s, Workflow(cfg.condition)[i + 1]) && Attempts(s.List(Workflow(cfg.condition)[i + 1])) == []
  {
  }
}
