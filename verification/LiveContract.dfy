/** The closed records that cross every boundary: a request with its two digests, and the
    stage output of an outcome, which is checked once on the way in and by a stricter
    general check on the way out. */
module LiveContract {
  import opened Wrappers
  import opened Roles
  import opened Utf8
  import opened Json
  import opened Handoff

  const MAX_STRING := 65_536
  const MAX_DEPTH := 8
  const MAX_KEYS := 256
  const MAX_STAGE_STRING := 1_000_000
  const MAX_ARTIFACTS := 32
  const MAX_ENVELOPE := 1_500_000
  const MAX_EVIDENCE := 262_144

  // ------------------------------------------------------- general JSON values

  function ItemCount(items: Items): nat { if items.NoItems? then 0 else ItemCount(items.init) + 1 }

  function FieldCount(fields: Fields): nat { if fields.NoFields? then 0 else FieldCount(fields.init) + 1 }

  predicate TextFits(text: Text, limit: nat) { AllScalar(text) && |Encode(text)| <= limit }

  /** `_parse_json_value`, which returns the value it accepts; `safe` recognises keys that
      are not forbidden. */
  predicate Accepts(safe: Text -> bool, v: Json, depth: nat) {
    depth <= MAX_DEPTH &&
    match v
    case Str(text) => TextFits(text, MAX_STRING)
    case Array(items) => ItemCount(items) <= MAX_KEYS && AcceptsItems(safe, items, depth + 1)
    case Object(fields) => FieldCount(fields) <= MAX_KEYS && AcceptsFields(safe, fields, depth + 1)
    case _ => true
  }

  predicate AcceptsItems(safe: Text -> bool, items: Items, depth: nat) {
    items.NoItems? || (AcceptsItems(safe, items.init, depth) && Accepts(safe, items.last, depth))
  }

  predicate AcceptsFields(safe: Text -> bool, fields: Fields, depth: nat) {
    fields.NoFields?
    || (AcceptsFields(safe, fields.init, depth) && fields.key != [] && safe(fields.key)
        && Accepts(safe, fields.last, depth))
  }

  /** Everything the check asks but the depth. */
  predicate WellFormed(safe: Text -> bool, v: Json) {
    match v
    case Str(text) => TextFits(text, MAX_STRING)
    case Array(items) => ItemCount(items) <= MAX_KEYS && WellFormedItems(safe, items)
    case Object(fields) => FieldCount(fields) <= MAX_KEYS && WellFormedFields(safe, fields)
    case _ => true
  }

  predicate WellFormedItems(safe: Text -> bool, items: Items) {
    items.NoItems? || (WellFormedItems(safe, items.init) && WellFormed(safe, items.last))
  }

  predicate WellFormedFields(safe: Text -> bool, fields: Fields) {
    fields.NoFields?
    || (WellFormedFields(safe, fields.init) && fields.key != [] && safe(fields.key) && WellFormed(safe, fields.last))
  }

  /** The check is a depth bound and nothing else that depends on where a value stands. */
  lemma {:induction false} AcceptsMeans(safe: Text -> bool, v: Json, depth: nat)
    ensures Accepts(safe, v, depth) <==> WellFormed(safe, v) && depth + Depth(v) <= MAX_DEPTH
  {
    match v
    case Array(items) => AcceptsItemsMeans(safe, items, depth + 1);
    case Object(fields) => AcceptsFieldsMeans(safe, fields, depth + 1);
    case _ =>
  }

  lemma {:induction false} AcceptsItemsMeans(safe: Text -> bool, items: Items, depth: nat)
    requires 1 <= depth
    ensures depth <= MAX_DEPTH + 1 ==>
              (AcceptsItems(safe, items, depth) <==>
                 WellFormedItems(safe, items) && depth - 1 + ItemDepth(items) <= MAX_DEPTH)
  {
    if items.Items? {
      AcceptsItemsMeans(safe, items.init, depth);
      AcceptsMeans(safe, items.last, depth);
    }
  }

  lemma {:induction false} AcceptsFieldsMeans(safe: Text -> bool, fields: Fields, depth: nat)
    requires 1 <= depth
    ensures depth <= MAX_DEPTH + 1 ==>
              (AcceptsFields(safe, fields, depth) <==>
                 WellFormedFields(safe, fields) && depth - 1 + FieldDepth(fields) <= MAX_DEPTH)
  {
    if fields.Fields? {
      AcceptsFieldsMeans(safe, fields.init, depth);
      AcceptsMeans(safe, fields.last, depth);
    }
  }

  // -------------------------------------------------------------- stage output

  /** What a successful outcome carries; `structured` is an object or absent. */
  datatype StageOutput = StageOutput(text: Text, artifacts: map<Text, Text>, structured: Option<Fields>)

  /** Its dict form, before it is known to be well formed. */
  datatype StageDict = StageDict(text: Json, artifacts: map<Text, Json>, structured: Json)

  /** Forbidden keys, path-like names, and the sizes of canonical encodings. */
  datatype Limits = Limits(
    safe: Text -> bool, pathLike: Text -> bool, envelopeSize: StageOutput -> nat, structuredSize: Fields -> nat)

  predicate ArtifactOk(c: Limits, name: Text, v: Json) {
    name != [] && !c.pathLike(name) && v.Str? && TextFits(v.text, MAX_STAGE_STRING)
  }

  predicate StructuredOk(c: Limits, fields: Fields) {
    && FieldCount(fields) <= MAX_KEYS && AcceptsFields(c.safe, fields, 1)
    && c.structuredSize(fields) <= MAX_EVIDENCE
  }

  /** `_parse_stage_output` of a successful outcome: large strings, any artifact names that
      are not paths, and a structured part that is checked from depth 0. */
  function ParseStage(c: Limits, d: StageDict): Option<StageOutput> {
    if !d.text.Str? || !TextFits(d.text.text, MAX_STAGE_STRING) || MAX_ARTIFACTS < |d.artifacts|
       || (exists n :: n in d.artifacts && !ArtifactOk(c, n, d.artifacts[n]))
       || !(d.structured.Null? || d.structured.Object?)
       || (d.structured.Object? && !StructuredOk(c, d.structured.fields))
    then None
    else
      var s := StageOutput(d.text.text, map n | n in d.artifacts && d.artifacts[n].Str? :: d.artifacts[n].text,
                           if d.structured.Object? then Some(d.structured.fields) else None);
      if c.envelopeSize(s) <= MAX_ENVELOPE then Some(s) else None
  }

  /** `to_dict`: the general check from the top of the envelope, so every string gets the
      general limit, every artifact name is a checked key, and the structured part stands
      one level deeper than when it was parsed. */
  function ToDict(c: Limits, s: StageOutput): Option<StageDict> {
    if TextFits(s.text, MAX_STRING) && |s.artifacts| <= MAX_KEYS
       && (forall n :: n in s.artifacts ==> n != [] && c.safe(n) && TextFits(s.artifacts[n], MAX_STRING))
       && (s.structured.Some? ==> Accepts(c.safe, Object(s.structured.value), 1))
    then Some(StageDict(Str(s.text), map n | n in s.artifacts :: Str(s.artifacts[n]),
                        if s.structured.Some? then Object(s.structured.value) else Null))
    else None
  }

  /** What parsing guarantees, and so what a stage output in an outcome always satisfies. */
  predicate Parsed(c: Limits, s: StageOutput) {
    && TextFits(s.text, MAX_STAGE_STRING) && |s.artifacts| <= MAX_ARTIFACTS
    && (forall n :: n in s.artifacts ==> n != [] && !c.pathLike(n) && TextFits(s.artifacts[n], MAX_STAGE_STRING))
    && (s.structured.Some? ==>
          && WellFormed(c.safe, Object(s.structured.value)) && FieldDepth(s.structured.value) <= MAX_DEPTH
          && c.structuredSize(s.structured.value) <= MAX_EVIDENCE)
    && c.envelopeSize(s) <= MAX_ENVELOPE
  }

  lemma ParseMeansParsed(c: Limits, d: StageDict)
    ensures ParseStage(c, d).Some? ==> Parsed(c, ParseStage(c, d).value)
  {
    if ParseStage(c, d).Some? {
      var s := ParseStage(c, d).value;
      assert s.artifacts.Keys == d.artifacts.Keys;
      SameSize(s.artifacts, d.artifacts);
      if d.structured.Object? {
        AcceptsFieldsMeans(c.safe, d.structured.fields, 1);
      }
    }
  }

  /** The dict form without any check. */
  function Plain(s: StageOutput): StageDict {
    StageDict(Str(s.text), map n | n in s.artifacts :: Str(s.artifacts[n]),
              if s.structured.Some? then Object(s.structured.value) else Null)
  }

  /** And nothing more is asked: what satisfies it parses as itself. */
  lemma ParsedParses(c: Limits, s: StageOutput)
    ensures ParseStage(c, Plain(s)) == Some(s) <==> Parsed(c, s)
  {
    var d := Plain(s);
    assert d.artifacts.Keys == s.artifacts.Keys;
    SameSize(d.artifacts, s.artifacts);
    if s.structured.Some? {
      AcceptsFieldsMeans(c.safe, s.structured.value, 1);
    }
    assert (map n | n in d.artifacts && d.artifacts[n].Str? :: d.artifacts[n].text) == s.artifacts;
    ParseMeansParsed(c, d);
  }

  lemma SameSize<K, A, B>(a: map<K, A>, b: map<K, B>)
    requires a.Keys == b.Keys
    ensures |a| == |b|
  {
    assert |a| == |a.Keys| && |b| == |b.Keys|;
  }

  /** Exactly the outputs that cannot be turned back into a dict: a string over the general
      limit, an artifact name that is a forbidden key, or a structured part as deep as
      parsing allows. */
  lemma ToDictDefined(c: Limits, s: StageOutput)
    requires Parsed(c, s)
    ensures ToDict(c, s).Some? <==>
      && |Encode(s.text)| <= MAX_STRING
      && (forall n :: n in s.artifacts ==> c.safe(n) && |Encode(s.artifacts[n])| <= MAX_STRING)
      && (s.structured.Some? ==> FieldDepth(s.structured.value) < MAX_DEPTH)
  {
    if s.structured.Some? {
      AcceptsMeans(c.safe, Object(s.structured.value), 1);
    }
  }

  /** An output that parses and has no dict form: one empty artifact whose name is a
      forbidden key and no path. */
  lemma ForbiddenNameStays(c: Limits, name: Text)
    requires name != [] && !c.pathLike(name) && !c.safe(name)
             && c.envelopeSize(StageOutput([], map[name := []], None)) <= MAX_ENVELOPE
    ensures var d := StageDict(Str([]), map[name := Str([])], Null);
            ParseStage(c, d) == Some(StageOutput([], map[name := []], None)) && ToDict(c, ParseStage(c, d).value).None?
  {
    var d := StageDict(Str([]), map[name := Str([])], Null);
    assert TextFits([], MAX_STAGE_STRING);
    assert |d.artifacts| == 1 && name in d.artifacts;
    assert (map n | n in d.artifacts && d.artifacts[n].Str? :: d.artifacts[n].text) == map[name := []];
  }

  /** Whenever the dict form exists, parsing it gives back the same stage output. */
  lemma StageRoundTrip(c: Limits, s: StageOutput)
    requires Parsed(c, s) && ToDict(c, s).Some?
    ensures ParseStage(c, ToDict(c, s).value) == Some(s)
  {
    var d := ToDict(c, s).value;
    assert d.artifacts.Keys == s.artifacts.Keys;
    SameSize(d.artifacts, s.artifacts);
    if s.structured.Some? {
      AcceptsFieldsMeans(c.safe, s.structured.value, 1);
    }
    assert (map n | n in d.artifacts && d.artifacts[n].Str? :: d.artifacts[n].text) == s.artifacts;
  }

  // ------------------------------------------------------------------ requests

  datatype RequestField =
    | ContractVersion | MessageType | ConditionField | RoleField | RoleInstruction | StageInputsField | InputDigest
    | OutputContract | RequestedIdentity | ConfiguredIdentity | Seed | MaxOutputTokens | MaxToolCalls
    | AttemptTimeout | Authority | ParameterDigest

  datatype Identity = Identity(provider: Text, modelId: Text, modelVersion: Text, adapterName: Text,
    adapterVersion: Text)
  {
    predicate Whole() { provider != [] && modelId != [] && modelVersion != [] && adapterName != []
      && adapterVersion != [] }

    /** The five fields, joined by colons. */
    function Joined(): Text { provider + [58] + modelId + [58] + modelVersion + [58] + adapterName + [58]
      + adapterVersion }
  }

  /** A value of a request's dict form; Junk is any JSON value of another kind. */
  datatype Value =
    | Version(current: bool) | Message(request: bool) | ConditionName(condition: Condition) | RoleName(role: Role)
    | Words(text: Text) | Inputs(inputs: map<Key, Text>) | Contract(contract: Json)
    | Adapter(identity: Identity, identityKey: Text)
    | Whole(n: int) | Seconds(ticks: int) | Powers(granted: bool) | Hash(digest: Text) | Junk

  type Dict = map<RequestField, Value>

  datatype Request = Request(
    condition: Condition, role: Role, instruction: Text, inputs: map<Key, Text>, inputDigest: Text,
    contract: Json, requested: Identity, configured: Identity, seed: int, maxOutput: int, maxTools: int,
    timeout: int, parameterDigest: Text)

  /** Digests, and the frozen output contract of a stage. */
  datatype Rules = Rules(
    safe: Text -> bool, inputHash: (Text, map<Key, Text>) -> Text, parameterHash: Dict -> Text, isDigest: Text -> bool,
    contractOf: (Condition, Role) -> Json)
  {
    /** Digests look like digests, and the general check accepts every frozen contract. */
    ghost predicate Lawful() {
      && (forall t, m :: isDigest(inputHash(t, m))) && (forall d :: isDigest(parameterHash(d)))
      && (forall k, r :: Accepts(safe, contractOf(k, r), 0))
    }
  }

  const ALL_FIELDS: set<RequestField> := {
    ContractVersion, MessageType, ConditionField, RoleField, RoleInstruction, StageInputsField, InputDigest,
    OutputContract, RequestedIdentity, ConfiguredIdentity, Seed, MaxOutputTokens, MaxToolCalls,
    AttemptTimeout, Authority, ParameterDigest }

  /** The frozen treatment parameters: not the digest itself, not the remaining time. */
  function Frozen(d: Dict): Dict { d - {ParameterDigest, AttemptTimeout} }

  function IdentityDict(id: Identity): Value { Adapter(id, id.Joined()) }

  /** `_parse_adapter_identity`: no field is empty and the key is the fields'. */
  predicate IdentityOk(v: Value) { v.Adapter? && v.identity.Whole() && v.identityKey == v.identity.Joined() }

  function Rendered(r: Request): Dict {
    map[ContractVersion := Version(true), MessageType := Message(true), ConditionField := ConditionName(r.condition),
        RoleField := RoleName(r.role), RoleInstruction := Words(r.instruction), StageInputsField := Inputs(r.inputs),
        InputDigest := Hash(r.inputDigest), OutputContract := Contract(r.contract),
        RequestedIdentity := IdentityDict(r.requested), ConfiguredIdentity := IdentityDict(r.configured),
        Seed := Whole(r.seed), MaxOutputTokens := Whole(r.maxOutput), MaxToolCalls := Whole(r.maxTools),
        AttemptTimeout := Seconds(r.timeout), Authority := Powers(false), ParameterDigest := Hash(r.parameterDigest)]
  }

  function RequestDict(c: Rules, r: Request): Option<Dict> {
    if Accepts(c.safe, r.contract, 0) then Some(Rendered(r)) else None
  }

  /** The stage's inputs, and nothing else. */
  predicate InputsOk(condition: Condition, role: Role, inputs: map<Key, Text>) {
    AllowedInputs(condition, role).Some? && inputs.Keys == AllowedInputs(condition, role).value
  }

  predicate ShapeOk(d: Dict) {
    && d.Keys == ALL_FIELDS
    && d[ContractVersion] == Version(true) && d[MessageType] == Message(true)
    && d[ConditionField].ConditionName? && d[RoleField].RoleName? && d[RoleInstruction].Words?
    && d[RoleInstruction].text != []
    && d[StageInputsField].Inputs? && d[InputDigest].Hash? && d[OutputContract].Contract?
    && IdentityOk(d[RequestedIdentity]) && IdentityOk(d[ConfiguredIdentity])
    && d[Seed].Whole? && d[MaxOutputTokens].Whole? && 1 <= d[MaxOutputTokens].n
    && d[MaxToolCalls].Whole? && 0 <= d[MaxToolCalls].n
    && d[AttemptTimeout].Seconds? && 0 < d[AttemptTimeout].ticks
    && d[Authority] == Powers(false) && d[ParameterDigest].Hash?
  }

  function Read(d: Dict): Request
    requires ShapeOk(d)
  {
    Request(d[ConditionField].condition, d[RoleField].role, d[RoleInstruction].text, d[StageInputsField].inputs,
            d[InputDigest].digest, d[OutputContract].contract, d[RequestedIdentity].identity,
              d[ConfiguredIdentity].identity,
            d[Seed].n, d[MaxOutputTokens].n, d[MaxToolCalls].n, d[AttemptTimeout].ticks, d[ParameterDigest].digest)
  }

  /** `parse_live_invocation_request`. */
  function ParseRequest(c: Rules, d: Dict): Option<Request> {
    if !ShapeOk(d) then None
    else
      var r := Read(d);
      if r.role in Workflow(r.condition) && InputsOk(r.condition, r.role, r.inputs)
         && r.contract == c.contractOf(r.condition, r.role)
         && c.isDigest(r.inputDigest) && r.inputDigest == c.inputHash(r.instruction, r.inputs)
         && c.isDigest(r.parameterDigest) && r.parameterDigest == c.parameterHash(Frozen(d))
      then Some(r) else None
  }

  /** `build_live_invocation_request`: the harness computes both digests and the contract. */
  function Build(c: Rules, condition: Condition, role: Role, instruction: Text, inputs: map<Key, Text>,
                 requested: Identity, configured: Identity, seed: int, maxOutput: int, maxTools: int,
                   timeout: int): Option<Request> {
    ParseRequest(c, Rendered(Signed(c, Request(condition, role, instruction, inputs, c.inputHash(instruction, inputs),
                                               c.contractOf(condition, role), requested, configured, seed, maxOutput,
                                                 maxTools, timeout, []))))
  }

  function Signed(c: Rules, r: Request): Request {
    r.(parameterDigest := c.parameterHash(Frozen(Rendered(r))))
  }

  /** The fields that can make a rendered request unreadable. */
  predicate Filled(r: Request) {
    r.instruction != [] && r.requested.Whole() && r.configured.Whole() && 1 <= r.maxOutput && 0 <= r.maxTools
      && 0 < r.timeout
  }

  lemma RenderedKeys(r: Request)
    ensures Rendered(r).Keys == ALL_FIELDS
  {
  }

  lemma RenderedShape(r: Request)
    ensures ShapeOk(Rendered(r)) <==> Filled(r)
  {
    RenderedKeys(r);
  }

  lemma RenderedReads(r: Request)
    requires ShapeOk(Rendered(r))
    ensures Read(Rendered(r)) == r
  {
  }

  /** Two dicts of the closed shape that read the same are the same. */
  lemma ReadRenders(d: Dict)
    requires ShapeOk(d)
    ensures Rendered(Read(d)) == d
  {
  }

  /** A request that was ever accepted has a dict form, and parsing it gives it back. */
  lemma RequestRoundTrip(c: Rules, d: Dict)
    requires c.Lawful() && ParseRequest(c, d).Some?
    ensures RequestDict(c, ParseRequest(c, d).value) == Some(d)
  {
    ReadRenders(d);
  }

  lemma FrozenIgnores(r: Request, timeout: int, digest: Text)
    ensures Frozen(Rendered(r.(timeout := timeout, parameterDigest := digest))) == Frozen(Rendered(r))
  {
  }

  /** One draft: it parses exactly when its arguments are valid, as itself with its digest. */
  lemma SignedParses(c: Rules, r: Request)
    requires c.Lawful() && r.inputDigest == c.inputHash(r.instruction, r.inputs)
             && r.contract == c.contractOf(r.condition, r.role)
    ensures ParseRequest(c, Rendered(Signed(c, r)))
            == if Filled(r) && r.role in Workflow(r.condition)
              && InputsOk(r.condition, r.role, r.inputs) then Some(Signed(c, r)) else None
  {
    var s := Signed(c, r);
    RenderedShape(s);
    FrozenIgnores(r, r.timeout, s.parameterDigest);
    assert r.(timeout := r.timeout, parameterDigest := s.parameterDigest) == s;
    if Filled(s) {
      RenderedReads(s);
    }
  }

  /** Building succeeds exactly on valid arguments, and the remaining time changes neither
      digest: requests for the same treatment carry the same ones. */
  lemma BuildTreatment(c: Rules, condition: Condition, role: Role, instruction: Text, inputs: map<Key, Text>,
                       requested: Identity, configured: Identity, seed: int, maxOutput: int, maxTools: int,
                         timeout: int, other: int)
    requires c.Lawful()
    ensures var a := Build(c, condition, role, instruction, inputs, requested, configured, seed, maxOutput, maxTools,
            timeout);
            var b := Build(c, condition, role, instruction, inputs, requested, configured, seed, maxOutput, maxTools,
              other);
            && (a.Some? <==>
                role in Workflow(condition) && InputsOk(condition, role, inputs) && instruction != []
                  && requested.Whole()
                             && configured.Whole() && 1 <= maxOutput && 0 <= maxTools && 0 < timeout)
            && (a.Some? && b.Some? ==> a.value == b.value.(timeout := timeout))
  {
    var r := Request(condition, role, instruction, inputs, c.inputHash(instruction, inputs),
      c.contractOf(condition, role),
                     requested, configured, seed, maxOutput, maxTools, timeout, []);
    SignedParses(c, r);
    SignedParses(c, r.(timeout := other));
    SameDigest(c, r, other);
  }

  /** Only what the harness could have built is accepted: every accepted request is what
      building it again from its own fields gives. */
  lemma OnlyBuilt(c: Rules, d: Dict)
    requires c.Lawful() && ParseRequest(c, d).Some?
    ensures var r := ParseRequest(c, d).value;
            Build(c, r.condition, r.role, r.instruction, r.inputs, r.requested, r.configured, r.seed, r.maxOutput,
                  r.maxTools, r.timeout) == Some(r)
  {
    var r := ParseRequest(c, d).value;
    var draft := Request(r.condition, r.role, r.instruction, r.inputs, c.inputHash(r.instruction, r.inputs),
      c.contractOf(r.condition, r.role), r.requested, r.configured, r.seed, r.maxOutput, r.maxTools, r.timeout, []);
    ReadRenders(d);
    FrozenIgnores(r, r.timeout, []);
    assert r.(timeout := r.timeout, parameterDigest := []) == draft;
    assert Signed(c, draft) == r;
    SignedParses(c, draft);
  }

  lemma SameDigest(c: Rules, r: Request, timeout: int)
    ensures Signed(c, r.(timeout := timeout)) == Signed(c, r).(timeout := timeout)
  {
    FrozenIgnores(r, timeout, r.parameterDigest);
    assert r.(timeout := timeout, parameterDigest := r.parameterDigest) == r.(timeout := timeout);
  }

  /** Two accepted requests with one parameter digest differ at most in the remaining time,
      or exhibit a hash collision. */
  lemma DigestCommits(c: Rules, a: Dict, b: Dict)
    requires ParseRequest(c, a).Some? && ParseRequest(c, b).Some? && a[ParameterDigest] == b[ParameterDigest]
    ensures a[AttemptTimeout := b[AttemptTimeout]] == b
            || (Frozen(a) != Frozen(b) && c.parameterHash(Frozen(a)) == c.parameterHash(Frozen(b)))
  {
    if Frozen(a) == Frozen(b) {
      forall f | f in ALL_FIELDS ensures a[AttemptTimeout := b[AttemptTimeout]][f] == b[f] {
        if f != AttemptTimeout && f != ParameterDigest {
          assert Frozen(a)[f] == a[f] && Frozen(b)[f] == b[f];
        }
      }
    }
  }
}
