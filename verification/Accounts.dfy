/** What an adapter may answer, how one stage's attempts may end, and the account that is
    kept of every attempt. */
module Accounts {
  import opened Wrappers
  import opened Roles
  import opened Manifest
  import opened Store
  import opened Terminal
  import opened Json
  import FindingLists = Findings
  import opened Handoff
  import RawEvidence
  import Utf8

  /** Governance violations, other exceptions, and interrupts that are not exceptions. */
  datatype Raise = GovernanceRaise | OrdinaryRaise | Interrupt

  datatype Response = Response(
    identityOk: bool, withinBudget: bool, artifacts: map<Name, Text>, structured: Option<Json>)

  datatype Answer =
    | Responded(response: Response)
    | TimedOut | ModelFailed | ProviderFailed(retryable: bool) | HarnessFailed | OtherFailed(raise: Raise)

  /** What a run allows: attempts, tokens, time, and what a response must look like. */
  datatype Limits = Limits(
    maxRetries: nat, ceiling: nat, timeout: int, condition: Condition, grammar: FindingLists.Grammar)

  /** One look at the clock: which reading it was, what it said, and the deadline it was
      compared with, which is counted from the reading `start`. */
  datatype Reading = Reading(start: nat, tick: nat, at: int, deadlineAt: int)
  {
    function Left(): int { deadlineAt - at }

    predicate InTime() { at < deadlineAt }
  }

  /** What one call came to: the answer, the raw text behind it, the look at the clock right
      before it, what the call was given, and the findings known then. */
  datatype Exchange = Exchange(
    answer: Answer, raw: Option<Text>, launched: Reading, inputs: Context, known: seq<FindingLists.Finding>)

  /** One attempt: its record, what was heard if a call was begun, and the look at the clock
      that settled it. */
  datatype Line = Line(record: Record, heard: Option<Exchange>, reading: Reading)

  datatype StageOutcome =
    | Won(attempt: nat, response: Response, artifacts: map<Name, Text>, heard: Exchange, cumulative: nat,
          reading: Reading)
    | Lost(result: StageResult, status: RunStatus)
    | Raised(raise: Raise)

  // ------------------------------------------------------- what an answer entails

  /** The names are exactly those expected and the structured part is valid: a verifier's
      findings by themselves, a reviser's dispositions against the known findings. */
  ghost predicate ContractOk(limits: Limits, role: Role, response: Response, known: seq<FindingLists.Finding>) {
    && response.artifacts.Keys == Expected(role)
    && StructuredOk(limits.grammar, limits.condition, role, response.structured, known)
  }

  ghost predicate Acceptable(limits: Limits, role: Role, response: Response, known: seq<FindingLists.Finding>) {
    response.identityOk && response.withinBudget && ContractOk(limits, role, response, known)
  }

  /** The findings a response states. */
  function FindingsOf(limits: Limits, response: Response): seq<FindingLists.Finding> {
    KnownAfter(limits.grammar, Verifier, response.structured, [])
  }

  /** What a stage commits: the verifier's findings in their canonical form. */
  function Output(limits: Limits, role: Role, response: Response): map<Name, Text> {
    if role == Verifier
      then response.artifacts[Findings := FindingLists.CanonicalText(limits.grammar, FindingsOf(limits, response))]
      else response.artifacts
  }

  /** The raw text kept beside a record. */
  function KeptRaw(heard: Option<Exchange>): Option<Text> {
    if heard.Some? && (heard.value.answer.Responded? || heard.value.answer.ProviderFailed?) then heard.value.raw
      else None
  }

  /** Retried while attempts remain. */
  function Again(final: bool): Decision { if final then Stop else Retry }

  /** The deadline passed inside the transaction of an accepted response. */
  ghost predicate RolledBack(limits: Limits, role: Role, line: Line) {
    && line.record.failure == Some(TimeoutClass) && line.record.decision == Stop
    && line.heard.Some? && line.heard.value.answer.Responded?
    && Acceptable(limits, role, line.heard.value.answer.response, line.heard.value.known)
  }

  /** The failure class and the decision that an answer may lead to, by whether the last look
      at the clock was in time: only a response may come too late, and only one that is
      accepted in time is promoted. */
  ghost predicate Entails(limits: Limits, role: Role, e: Exchange, failure: Option<FailureClass>, decision: Decision,
    final: bool, inTime: bool) {
    match e.answer
    case TimedOut => failure == Some(TimeoutClass) && decision == Again(final)
    case ModelFailed => failure == Some(ModelClass) && decision == Again(final)
    case ProviderFailed(retryable) =>
      failure == Some(ProviderClass) && decision == if retryable then Again(final) else Stop
    case HarnessFailed => failure == Some(InfrastructureClass) && decision == Stop
    case OtherFailed(_) => false
    case Responded(response) =>
      match failure
      case None => decision == Promote && Acceptable(limits, role, response, e.known) && inTime
      case Some(TimeoutClass) =>
        !inTime && (decision == Again(final) || (decision == Stop && Acceptable(limits, role, response, e.known)))
      case Some(GovernanceClass) => decision == Stop && !response.identityOk && inTime
      case Some(BudgetClass) => decision == Stop && response.identityOk && !response.withinBudget && inTime
      case Some(ContractClass) =>
        && decision == Stop && response.identityOk && response.withinBudget
        && !ContractOk(limits, role, response, e.known) && inTime
      case _ => false
  }

  /** The clock is looked at again after a response, and only then. */
  predicate Ordered(e: Exchange, reading: Reading) {
    && e.launched.InTime() && e.launched.start == reading.start
    && if e.answer.Responded? then e.launched.tick < reading.tick else reading == e.launched
  }

  /** The failure class and the decision of an attempt fit what was heard and the clock, and
      an attempt without a call ran out of time or, in time, out of tokens. */
  ghost predicate Explained(limits: Limits, role: Role, line: Line, final: bool) {
    var r := line.record;
    var explained :=
      && r.began == line.heard.Some?
      && match line.heard
         case None =>
           || (r.failure == Some(TimeoutClass) && r.decision == Again(final) && !line.reading.InTime())
           || (&& r.failure == Some(BudgetClass) && r.decision == Stop && limits.ceiling < r.cumulative + r.projected
               && line.reading.InTime())
         case Some(e) =>
           && Entails(limits, role, e, r.failure, r.decision, final, line.reading.InTime()) && Ordered(e, line.reading)
           && (r.attemptTimeout == e.launched.Left() || RolledBack(limits, role, line));
    explained
  }

  /** How a stage ends whose last attempt is this one. A promotion that was rolled back
      after its record was written counts as exhausted too. */
  function StatusFor(line: Line): RunStatus {
    match line.record.failure
    case Some(BudgetClass) => FailedBudget
    case Some(ContractClass) => FailedContract
    case Some(ProviderClass) =>
      if line.heard.Some? && line.heard.value.answer == ProviderFailed(false) then InfrastructureFailure
        else RunRetryExhausted
    case _ => RunRetryExhausted
  }

  // ------------------------------------------------------------- the account

  function Consumed(log: seq<Line>): nat {
    if log == [] then 0 else Consumed(log[..|log| - 1]) + log[|log| - 1].record.consumed
  }

  /** The record of attempt `j + 1`: its running total is the sum so far and within the
      ceiling, only a begun call is charged, it fits what was heard, and its deadline is the
      one of the first attempt. */
  ghost predicate GoodRecord(log: seq<Line>, j: nat, role: Role, limits: Limits)
    requires j < |log|
  {
    var r := log[j].record;
    && r.role == role && r.attempt == j + 1 <= limits.maxRetries + 1
    && r.cumulative == Consumed(log[..j + 1]) <= limits.ceiling
    && r.consumed == (if r.began then r.projected else 0)
    && log[j].reading.start == log[0].reading.start
    && Explained(limits, role, log[j], j == limits.maxRetries)
  }

  ghost predicate GoodLog(log: seq<Line>, role: Role, limits: Limits) {
    forall j :: 0 <= j < |log| ==> GoodRecord(log, j, role, limits)
  }

  predicate AllRetry(log: seq<Line>) {
    forall j :: 0 <= j < |log| ==> log[j].record.decision == Retry
  }

  /** The stage began with this reading of the clock. */
  predicate Since(log: seq<Line>, start: nat) { log != [] ==> log[0].reading.start == start }

  /** Every attempt so far was to be retried. */
  ghost predicate Retrying(log: seq<Line>, role: Role, limits: Limits, k: nat, cumulative: nat) {
    |log| == k && GoodLog(log, role, limits) && AllRetry(log) && Consumed(log) == cumulative <= limits.ceiling
  }

  /** Only the last attempt may have ended the stage. */
  ghost predicate Closing(log: seq<Line>, role: Role, limits: Limits) {
    GoodLog(log, role, limits) && (log != [] ==> AllRetry(log[..|log| - 1]))
  }

  /** It did. */
  ghost predicate Ended(log: seq<Line>, role: Role, limits: Limits, k: nat) {
    |log| == k && 1 <= k && Closing(log, role, limits) && log[k - 1].record.decision != Retry
  }

  /** A line that may come after an account of `spent` tokens. */
  ghost predicate Next(line: Line, n: nat, role: Role, limits: Limits, spent: nat) {
    var r := line.record;
    && r.role == role && r.attempt == n + 1 <= limits.maxRetries + 1
    && r.cumulative == spent + r.consumed <= limits.ceiling && r.consumed == (if r.began then r.projected else 0)
    && Explained(limits, role, line, n == limits.maxRetries)
  }

  lemma LogGrows(log: seq<Line>, line: Line, role: Role, limits: Limits, spent: nat)
    requires Retrying(log, role, limits, |log|, spent) && Next(line, |log|, role, limits, spent)
    requires Since(log, line.reading.start)
    ensures Since(log + [line], line.reading.start)
    ensures var more := log + [line];
            && (line.record.decision == Retry ==> Retrying(more, role, limits, |log| + 1, line.record.cumulative))
            && (line.record.decision != Retry ==> Ended(more, role, limits, |log| + 1))
  {
    var more := log + [line];
    assert more[..|log|] == log && more[..|log| + 1] == more;
    forall j | 0 <= j < |more| ensures GoodRecord(more, j, role, limits) {
      if j < |log| {
        assert GoodRecord(log, j, role, limits) && more[..j + 1] == log[..j + 1];
      }
    }
  }

  lemma RetryingCloses(log: seq<Line>, role: Role, limits: Limits, k: nat, spent: nat)
    requires Retrying(log, role, limits, k, spent)
    ensures Closing(log, role, limits)
  {
  }

  function Account(role: Role, attempt: nat, decision: Decision, failure: Option<FailureClass>, began: bool,
                   estimate: nat, cumulative: nat, timeout: int): Record {
    Record(role, attempt, decision, failure, began, estimate, if began then estimate else 0, cumulative, timeout)
  }

  // -------------------------------------------------------- the account on disk

  /** Record `n` and its raw text are in the role's evidence, byte for byte. */
  predicate LineOnDisk(cfg: Config, r: RoleState, n: nat, line: Line) {
    var kept := RawEvidence.Bounded(cfg.markers, KeptRaw(line.heard), cfg.limit);
    && Slot(n, false) in r.disk.evidence && r.disk.evidence[Slot(n, false)] == cfg.render(line.record)
    && kept.Ok?
    && (kept.value.Absent? ==> Slot(n, true) !in r.disk.evidence)
    && (kept.value.Present?
      ==> Slot(n, true) in r.disk.evidence && r.disk.evidence[Slot(n, true)] == Utf8.Encode(kept.value.text))
  }

  predicate LineAt(cfg: Config, r: RoleState, log: seq<Line>, j: nat)
    requires j < |log|
  {
    LineOnDisk(cfg, r, j + 1, log[j])
  }

  predicate OnDisk(cfg: Config, r: RoleState, log: seq<Line>) {
    forall j {:trigger LineAt(cfg, r, log, j)} :: 0 <= j < |log| ==> LineAt(cfg, r, log, j)
  }

  /** The files are exactly the output of the response that the last line promotes. */
  predicate Sourced(limits: Limits, r: RoleState, role: Role, log: seq<Line>) {
    && log != []
    && var last := log[|log| - 1];
       last.record.decision == Promote && last.heard.Some? && last.heard.value.answer.Responded?
       && FilesAre(r.disk.files, Output(limits, role, last.heard.value.answer.response))
  }

  predicate Encodes(files: map<Name, Octets>, texts: map<Name, Text>, name: Name) {
    name in files && name in texts && files[name] == Utf8.Encode(texts[name])
  }

  predicate FilesAre(files: map<Name, Octets>, texts: map<Name, Text>) {
    files.Keys == texts.Keys
    && forall name {:trigger Encodes(files, texts, name)} :: name in texts ==> Encodes(files, texts, name)
  }

  // ------------------------------------------------------- what a stage is given

  /** A text is what a sealed file of this role encodes. */
  predicate FedBy(s: State, source: Role, name: Name, text: Text)
    requires s.Total()
  {
    var disk := s.At(source).disk;
    disk.seal.Some? && name in disk.files && disk.files[name] == Utf8.Encode(text)
  }

  /** Every text under an output's key is what that output's sealed file encodes. */
  ghost predicate SealedTexts(s: State, context: Context)
    requires s.Total()
  {
    forall source: Role, name: Name {:trigger OutputKey(source, name)} ::
      OutputKey(source, name).Some? && OutputKey(source, name).value in context ==>
        FedBy(s, source, name, context[OutputKey(source, name).value])
  }

  /** Exactly the inputs a stage may see: the assignment, and what earlier stages have sealed. */
  ghost predicate Fed(limits: Limits, task: Text, s: State, role: Role, inputs: Context)
    requires s.Total()
  {
    && AllowedInputs(limits.condition, role) == Some(inputs.Keys) && (Task in inputs ==> inputs[Task] == task)
    && SealedTexts(s, inputs)
  }

  /** What is fed to a role is the same in both states. */
  ghost predicate FeedSame(limits: Limits, s: State, v: State, role: Role)
    requires s.Total() && v.Total()
  {
    forall source: Role :: Feeds(limits.condition, source, role) ==>
      v.At(source).disk.files == s.At(source).disk.files && v.At(source).disk.seal == s.At(source).disk.seal
  }

  lemma FedSame(limits: Limits, task: Text, s: State, v: State, role: Role, inputs: Context)
    requires s.Total() && v.Total() && Fed(limits, task, s, role, inputs) && FeedSame(limits, s, v, role)
    ensures Fed(limits, task, v, role, inputs)
  {
    forall source: Role, name: Name | OutputKey(source, name).Some? && OutputKey(source, name).value in inputs
      ensures FedBy(v, source, name, inputs[OutputKey(source, name).value])
    {
      assert OutputKey(source, name).value in inputs.Keys;
      assert Passes(limits.condition, source, name, role) && Feeds(limits.condition, source, role);
    }
  }

  /** A stage does not read what it puts out itself. */
  lemma OthersFeed(limits: Limits, s: State, v: State, role: Role)
    requires s.Total() && v.Total() && forall r: Role :: r != role ==> v.roles[r] == s.roles[r]
    ensures FeedSame(limits, s, v, role)
  {
    forall source: Role | Feeds(limits.condition, source, role) ensures source != role {
      var name: Name :| Passes(limits.condition, source, name, role);
      if source == role {
        NotOwn(limits.condition, role, name);
      }
    }
  }

  /** Evidence other than that of attempt `n` is the same. */
  ghost predicate SameBut(r: RoleState, v: RoleState, n: nat) {
    forall slot: Slot :: slot.attempt != n ==>
      (slot in v.disk.evidence <==> slot in r.disk.evidence)
      && (slot in r.disk.evidence ==> v.disk.evidence[slot] == r.disk.evidence[slot])
  }

  lemma OnDiskGrows(cfg: Config, r: RoleState, v: RoleState, log: seq<Line>, line: Line)
    requires OnDisk(cfg, r, log) && SameBut(r, v, |log| + 1) && LineOnDisk(cfg, v, |log| + 1, line)
    ensures OnDisk(cfg, v, log + [line])
  {
    forall j | 0 <= j < |log + [line]| ensures LineAt(cfg, v, log + [line], j) {
      if j < |log| {
        assert LineAt(cfg, r, log, j);
      }
    }
  }

  lemma OnDiskSame(cfg: Config, r: RoleState, v: RoleState, log: seq<Line>)
    requires OnDisk(cfg, r, log) && v.disk.evidence == r.disk.evidence
    ensures OnDisk(cfg, v, log)
  {
    forall j | 0 <= j < |log| ensures LineAt(cfg, v, log, j) {
      assert LineAt(cfg, r, log, j);
    }
  }
}
