/** What each stage may see, how a stage's artifacts reach later stages, and the contract a
    response must meet before it is accepted. */
module Handoff {
  import opened Wrappers
  import opened Roles
  import opened Utf8
  import opened Json
  import opened Findings
  import RawEvidence

  datatype Key = Task | SolverCandidate | SolverEvidence | VerifierFindings | DraftKey | SelfReviewKey | FinalKey

  function AllowedInputs(condition: Condition, role: Role): Option<set<Key>> {
    match (condition, role)
    case (A, Solver) => Some({Task})
    case (B, Draft) => Some({Task})
    case (B, SelfReview) => Some({Task, DraftKey})
    case (B, Reviser) => Some({Task, DraftKey, SelfReviewKey})
    case (C, Solver) => Some({Task})
    case (C, Verifier) => Some({Task, SolverCandidate, SolverEvidence})
    case (C, Reviser) => Some({Task, SolverCandidate, VerifierFindings})
    case _ => None
  }

  function OutputKey(role: Role, name: Name): Option<Key> {
    match (role, name)
    case (Solver, Candidate) => Some(SolverCandidate)
    case (Solver, Evidence) => Some(SolverEvidence)
    case (Verifier, Findings) => Some(VerifierFindings)
    case (Reviser, FinalCandidate) => Some(FinalKey)
    case (Draft, DraftText) => Some(DraftKey)
    case (SelfReview, SelfReviewText) => Some(SelfReviewKey)
    case _ => None
  }

  type Context = map<Key, Text>

  /** What the first `n` stages of a condition, and the assignment, put into the context. */
  function KeysBefore(condition: Condition, n: nat): set<Key>
    requires n <= |Workflow(condition)|
  {
    if n == 0 then {Task} else KeysBefore(condition, n - 1) + KeysOf(Workflow(condition)[n - 1])
  }

  function KeysOf(role: Role): set<Key> {
    set name | name in Expected(role) && OutputKey(role, name).Some? :: OutputKey(role, name).value
  }

  /** Something of one role's output is an input of the other. */
  ghost predicate Feeds(condition: Condition, source: Role, role: Role) {
    AllowedInputs(condition, role).Some? && exists name: Name :: Passes(condition, source, name, role)
  }

  predicate Passes(condition: Condition, source: Role, name: Name, role: Role) {
    && AllowedInputs(condition, role).Some? && OutputKey(source, name).Some?
    && OutputKey(source, name).value in AllowedInputs(condition, role).value
  }

  /** Every stage's inputs are there by its turn: no stage can miss one. */
  lemma InputsThere(condition: Condition, i: nat)
    requires i < |Workflow(condition)|
    ensures AllowedInputs(condition, Workflow(condition)[i]).Some?
    ensures AllowedInputs(condition, Workflow(condition)[i]).value <= KeysBefore(condition, i)
  {
    assert Candidate in Expected(Solver) && Evidence in Expected(Solver) && Name.Findings in Expected(Verifier);
    assert DraftText in Expected(Draft) && SelfReviewText in Expected(SelfReview);
    assert OutputKey(Solver, Candidate) == Some(SolverCandidate) && OutputKey(Solver, Evidence) == Some(SolverEvidence);
    assert OutputKey(Verifier, Name.Findings) == Some(VerifierFindings)
      && OutputKey(Draft, DraftText) == Some(DraftKey);
    assert OutputKey(SelfReview, SelfReviewText) == Some(SelfReviewKey);
    var flow := Workflow(condition);
    assert KeysBefore(condition, 0) == {Task};
    if 1 < |flow| {
      assert KeysBefore(condition, 1) == {Task} + KeysOf(flow[0]);
      assert KeysBefore(condition, 2) == KeysBefore(condition, 1) + KeysOf(flow[1]);
    }
  }

  /** Only later stages read what a stage puts out. */
  lemma FeedsLater(condition: Condition, i: nat, role: Role)
    requires i < |Workflow(condition)| && Feeds(condition, Workflow(condition)[i], role)
    ensures exists j :: i < j < |Workflow(condition)| && Workflow(condition)[j] == role
  {
    var flow := Workflow(condition);
    var name: Name :| Passes(condition, flow[i], name, role);
    if condition == B && role == SelfReview {
      assert flow[1] == role;
    } else if condition == C && role == Verifier {
      assert flow[1] == role;
    } else if condition != A && role == Reviser {
      assert flow[2] == role;
    }
  }

  lemma NotOwn(condition: Condition, role: Role, name: Name)
    ensures !Passes(condition, role, name, role)
  {
  }

  /** Exactly the allowed keys, or None where one is missing. */
  function StageInputs(condition: Condition, role: Role, context: Context): Option<Context> {
    var allowed := AllowedInputs(condition, role);
    if allowed.None? || !(allowed.value <= context.Keys) then None
    else Some(map k | k in allowed.value :: context[k])
  }

  /** The context after a stage, its artifacts taken in the order of `names`. */
  function Applied(role: Role, artifacts: map<Name, Text>, names: seq<Name>, context: Context): Context {
    if names == [] then context
    else
      var name := names[|names| - 1];
      var before := Applied(role, artifacts, names[..|names| - 1], context);
      if name in artifacts
        && OutputKey(role, name).Some? then before[OutputKey(role, name).value := artifacts[name]] else before
  }

  method ApplyOutputs(role: Role, artifacts: map<Name, Text>, names: seq<Name>, context: Context)
    returns (after: Context)
    ensures after == Applied(role, artifacts, names, context)
  {
    after := context;
    for i := 0 to |names|
      invariant after == Applied(role, artifacts, names[..i], context)
    {
      assert names[..i + 1][..i] == names[..i];
      var key := OutputKey(role, names[i]);
      if names[i] in artifacts && key.Some? {
        after := after[key.value := artifacts[names[i]]];
      }
    }
    assert names[..|names|] == names;
  }

  // ---------------------------------------------------------------- contracts

  /** The structured part a role must produce; `known` are the verifier's findings. */
  ghost predicate StructuredOk(g: Grammar, condition: Condition, role: Role, structured: Option<Json>,
    known: seq<Finding>) {
    match role
    case Verifier =>
      structured.Some? && RequireStructured(structured.value, g.findings).Some?
      && var findings := ParseFindings(g, RequireStructured(structured.value, g.findings).value);
         findings.Some? && Sound(g, findings.value)
    case Reviser =>
      (match condition
       case A => true
       case B => structured.None?
       case C =>
         structured.Some? && RequireStructured(structured.value, g.dispositions).Some?
         && var dispositions := ParseDispositions(g, RequireStructured(structured.value, g.dispositions).value);
            dispositions.Some? && Disposed(g, known, dispositions.value))
    case _ => true
  }

  /** The findings known after a stage is accepted. */
  function KnownAfter(g: Grammar, role: Role, structured: Option<Json>, known: seq<Finding>): seq<Finding> {
    if role == Verifier && structured.Some? && RequireStructured(structured.value, g.findings).Some?
       && ParseFindings(g, RequireStructured(structured.value, g.findings).value).Some?
    then ParseFindings(g, RequireStructured(structured.value, g.findings).value).value
    else known
  }

  method CheckFindings(g: Grammar, structured: Option<Json>) returns (r: Option<seq<Finding>>)
    ensures r.Some? <==> StructuredOk(g, C, Verifier, structured, [])
    ensures r.Some? ==> r.value == KnownAfter(g, Verifier, structured, [])
  {
    if structured.None? { return None; }
    var items := RequireStructured(structured.value, g.findings);
    if items.None? { return None; }
    var findings := ParseFindings(g, items.value);
    if findings.None? { return None; }
    var ok := ValidateFindings(g, findings.value);
    r := if ok then findings else None;
  }

  method CheckDispositions(g: Grammar, structured: Option<Json>, known: seq<Finding>) returns (ok: bool)
    ensures ok <==> StructuredOk(g, C, Reviser, structured, known)
  {
    if structured.None? { return false; }
    var items := RequireStructured(structured.value, g.dispositions);
    if items.None? { return false; }
    var dispositions := ParseDispositions(g, items.value);
    if dispositions.None? { return false; }
    ok := ValidateDispositions(g, known, dispositions.value);
  }

  /** Exactly the expected artifacts and a valid structured part; None is a violation. */
  method CheckContract(g: Grammar, condition: Condition, role: Role, artifacts: map<Name, Text>,
    structured: Option<Json>, known: seq<Finding>)
    returns (r: Option<seq<Finding>>)
    ensures r.Some? <==> artifacts.Keys == Expected(role) && StructuredOk(g, condition, role, structured, known)
    ensures r.Some? ==> r.value == KnownAfter(g, role, structured, known)
  {
    if artifacts.Keys != Expected(role) { return None; }
    if role == Verifier {
      r := CheckFindings(g, structured);
    } else if role == Reviser && condition == B {
      r := if structured.None? then Some(known) else None;
    } else if role == Reviser && condition == C {
      var ok := CheckDispositions(g, structured, known);
      r := if ok then Some(known) else None;
    } else {
      r := Some(known);
    }
  }

  /** The canonical findings always have an encoding: themselves. */
  lemma CanonicalIsAscii(g: Grammar, findings: seq<Finding>)
    ensures AllScalar(CanonicalText(g, findings)) && Encode(CanonicalText(g, findings)) == CanonicalText(g, findings)
  {
    PrintAscii(Object(Fields(NoFields, g.findings, Array(FindingItems(g, findings)))));
    RawEvidence.EncodeAscii(CanonicalText(g, findings));
  }

  // ------------------------------------------------------------ what is handed on

  /** Each output has a key of its own. */
  lemma KeyDetermines(role: Role, name: Name, other: Role, otherName: Name)
    requires OutputKey(role, name).Some? && OutputKey(role, name) == OutputKey(other, otherName)
    ensures role == other && name == otherName && name in Expected(role)
  {
  }

  lemma {:induction false} AppliedHas(role: Role, artifacts: map<Name, Text>, names: seq<Name>, context: Context)
    requires (forall i :: 0 <= i < |names| ==> names[i] in artifacts)
    requires forall i, j :: 0 <= i < j < |names| ==> names[i] != names[j]
    ensures var after := Applied(role, artifacts, names, context);
            && (forall k :: k in context ==> k in after)
            && (forall i :: 0 <= i < |names| && OutputKey(role, names[i]).Some? ==>
                  OutputKey(role, names[i]).value in after
                  && after[OutputKey(role, names[i]).value] == artifacts[names[i]])
            && forall k :: k in after && (forall i :: 0 <= i < |names| ==> OutputKey(role, names[i]) != Some(k))
                           ==> k in context && after[k] == context[k]
  {
    if names != [] {
      var init, name := names[..|names| - 1], names[|names| - 1];
      AppliedHas(role, artifacts, init, context);
      forall i | 0 <= i < |init| && OutputKey(role, names[i]).Some?
        ensures OutputKey(role, names[i]) != OutputKey(role, name)
      {
        if OutputKey(role, names[i]) == OutputKey(role, name) {
          KeyDetermines(role, names[i], role, name);
        }
      }
      assert forall i :: 0 <= i < |init| ==> init[i] == names[i];
    }
  }

  /** A stage's whole output is handed on under its keys, and nothing else changes. */
  lemma HandsOn(role: Role, artifacts: map<Name, Text>, context: Context)
    requires artifacts.Keys == Expected(role)
    ensures var after := Applied(role, artifacts, Order(role), context);
            && after.Keys == context.Keys + KeysOf(role)
            && (forall name: Name :: OutputKey(role, name).Some? ==>
                  && name in artifacts && OutputKey(role, name).value in after
                  && after[OutputKey(role, name).value] == artifacts[name])
            && forall k :: k in after && k !in KeysOf(role) ==> k in context && after[k] == context[k]
  {
    var names, after := Order(role), Applied(role, artifacts, Order(role), context);
    assert forall i :: 0 <= i < |names| ==> names[i] in Expected(role);
    AppliedHas(role, artifacts, names, context);
    forall name: Name | OutputKey(role, name).Some?
      ensures name in artifacts && OutputKey(role, name).value in after
              && after[OutputKey(role, name).value] == artifacts[name]
    {
      KeyDetermines(role, name, role, name);
      assert name in artifacts.Keys;
      var i :| 0 <= i < |names| && names[i] == name;
    }
    forall k | k in KeysOf(role) ensures k in after {
      var name :| name in Expected(role) && OutputKey(role, name) == Some(k);
    }
    forall i | 0 <= i < |names| && OutputKey(role, names[i]).Some?
      ensures OutputKey(role, names[i]).value in KeysOf(role)
    {
      assert names[i] in Expected(role);
    }
  }

  /** The findings are handed on only in Condition C, and by the verifier's stage. */
  lemma FindingsLate(condition: Condition, n: nat)
    requires n < |Workflow(condition)| && VerifierFindings in KeysBefore(condition, n)
    ensures condition == C && n == 2 && Workflow(condition)[n] == Reviser
  {
    assert VerifierFindings !in KeysOf(Solver) && VerifierFindings !in KeysOf(Draft)
      && VerifierFindings !in KeysOf(SelfReview);
    var flow := Workflow(condition);
    assert KeysBefore(condition, 0) == {Task};
    if 1 < |flow| {
      assert KeysBefore(condition, 1) == {Task} + KeysOf(flow[0]);
      assert KeysBefore(condition, 2) == KeysBefore(condition, 1) + KeysOf(flow[1]);
    }
  }

  // ------------------------------------------------------------------ two runs

  /** The context the reviser of Condition C starts from: the verifier's own findings
      artifact is replaced by the projection of its structured findings. */
  function BeforeReviser(g: Grammar, task: Text, solver: map<Name, Text>, verifier: map<Name, Text>,
    findings: seq<Finding>): Context {
    Applied(Verifier, verifier[Name.Findings := CanonicalText(g, findings)], Order(Verifier),
            Applied(Solver, solver, Order(Solver), map[Task := task]))
  }

  lemma ReviserSees(g: Grammar, task: Text, solver: map<Name, Text>, verifier: map<Name, Text>, findings: seq<Finding>)
    requires solver.Keys == Expected(Solver)
    ensures StageInputs(C, Reviser, BeforeReviser(g, task, solver, verifier, findings))
            == Some(map[Task := task, SolverCandidate := solver[Candidate],
              VerifierFindings := CanonicalText(g, findings)])
  {
    var first := Applied(Solver, solver, Order(Solver), map[Task := task]);
    AfterSolver(solver, map[Task := task]);
    AfterVerifier(verifier, CanonicalText(g, findings), first);
    ReviserInputs(first[VerifierFindings := CanonicalText(g, findings)]);
  }

  lemma AfterSolver(solver: map<Name, Text>, context: Context)
    requires solver.Keys == Expected(Solver)
    ensures Candidate in solver && Evidence in solver
    ensures Applied(Solver, solver, Order(Solver), context)
            == context[SolverCandidate := solver[Candidate]][SolverEvidence := solver[Evidence]]
  {
    assert Candidate in solver.Keys && Evidence in solver.Keys;
    AppliedSnoc(Solver, solver, [], Candidate, context);
    AppliedSnoc(Solver, solver, [Candidate], Evidence, context);
    assert Order(Solver) == [Candidate] + [Evidence] && [Candidate] == [] + [Candidate];
  }

  lemma AfterVerifier(verifier: map<Name, Text>, text: Text, context: Context)
    ensures Applied(Verifier, verifier[Name.Findings := text], Order(Verifier),
            context) == context[VerifierFindings := text]
  {
    var artifacts: map<Name, Text> := verifier[Name.Findings := text];
    var names: seq<Name> := [];
    AppliedSnoc(Verifier, artifacts, names, Name.Findings, context);
    assert names + [Name.Findings] == Order(Verifier);
    assert OutputKey(Verifier, Name.Findings) == Some(VerifierFindings) && artifacts[Name.Findings] == text;
  }

  lemma ReviserInputs(context: Context)
    requires Task in context && SolverCandidate in context && VerifierFindings in context
    ensures StageInputs(C, Reviser, context)
            == Some(map[Task := context[Task], SolverCandidate := context[SolverCandidate],
              VerifierFindings := context[VerifierFindings]])
  {
    var allowed := {Task, SolverCandidate, VerifierFindings};
    assert AllowedInputs(C, Reviser) == Some(allowed) && allowed <= context.Keys;
    assert (map k | k in allowed :: context[k])
        == map[Task := context[Task], SolverCandidate := context[SolverCandidate],
          VerifierFindings := context[VerifierFindings]];
  }

  /** A stage that hands on one artifact, under one key. */
  lemma AfterOne(role: Role, name: Name, key: Key, artifacts: map<Name, Text>, context: Context)
    requires artifacts.Keys == Expected(role) && Order(role) == [name] && OutputKey(role, name) == Some(key)
    ensures name in artifacts && Applied(role, artifacts, Order(role), context) == context[key := artifacts[name]]
  {
    assert name in Expected(role);
    AppliedSnoc(role, artifacts, [], name, context);
    assert [] + [name] == Order(role);
  }

  /** The first stage of every condition sees the assignment and nothing else. */
  lemma FirstSees(condition: Condition, role: Role, task: Text)
    requires Workflow(condition)[0] == role
    ensures StageInputs(condition, role, map[Task := task]) == Some(map[Task := task])
  {
    var context: Context := map[Task := task];
    var allowed: set<Key> := {Task};
    assert AllowedInputs(condition, role) == Some(allowed) && allowed <= context.Keys;
    assert (map k | k in allowed :: context[k]) == context;
  }

  /** In Condition B the self-review sees the assignment and the draft, and the reviser both and
      the review. */
  lemma DraftHandedOn(task: Text, draft: map<Name, Text>, review: map<Name, Text>)
    requires draft.Keys == Expected(Draft) && review.Keys == Expected(SelfReview)
    ensures DraftText in draft && SelfReviewText in review
    ensures var first := Applied(Draft, draft, Order(Draft), map[Task := task]);
            var second := Applied(SelfReview, review, Order(SelfReview), first);
            && StageInputs(B, SelfReview, first) == Some(map[Task := task, DraftKey := draft[DraftText]])
            && StageInputs(B, Reviser, second)
               == Some(map[Task := task, DraftKey := draft[DraftText], SelfReviewKey := review[SelfReviewText]])
  {
    AfterOne(Draft, DraftText, DraftKey, draft, map[Task := task]);
    var first := Applied(Draft, draft, Order(Draft), map[Task := task]);
    AfterOne(SelfReview, SelfReviewText, SelfReviewKey, review, first);
    var second := Applied(SelfReview, review, Order(SelfReview), first);
    var one, two := {Task, DraftKey}, {Task, DraftKey, SelfReviewKey};
    assert AllowedInputs(B, SelfReview) == Some(one) && AllowedInputs(B, Reviser) == Some(two);
    assert (map k | k in one :: first[k]) == map[Task := task, DraftKey := draft[DraftText]];
    assert (map k | k in two :: second[k])
        == map[Task := task, DraftKey := draft[DraftText], SelfReviewKey := review[SelfReviewText]];
  }

  /** In Condition C the verifier sees the assignment and both artifacts of the solver. */
  lemma VerifierSees(task: Text, solver: map<Name, Text>)
    requires solver.Keys == Expected(Solver)
    ensures Candidate in solver && Evidence in solver
    ensures StageInputs(C, Verifier, Applied(Solver, solver, Order(Solver), map[Task := task]))
            == Some(map[Task := task, SolverCandidate := solver[Candidate], SolverEvidence := solver[Evidence]])
  {
    AfterSolver(solver, map[Task := task]);
    var context := Applied(Solver, solver, Order(Solver), map[Task := task]);
    var allowed := {Task, SolverCandidate, SolverEvidence};
    assert AllowedInputs(C, Verifier) == Some(allowed);
    assert (map k | k in allowed :: context[k])
        == map[Task := task, SolverCandidate := solver[Candidate], SolverEvidence := solver[Evidence]];
  }

  lemma AppliedSnoc(role: Role, artifacts: map<Name, Text>, names: seq<Name>, name: Name, context: Context)
    ensures Applied(role, artifacts, [], context) == context
    ensures var before := Applied(role, artifacts, names, context);
            Applied(role, artifacts, names + [name], context)
            == if name in artifacts
              && OutputKey(role, name).Some? then before[OutputKey(role, name).value := artifacts[name]] else before
  {
    assert (names + [name])[..|names|] == names;
  }

  /** Independence: with the same task and candidate, the reviser's inputs agree exactly
      when the structured findings agree, whatever else either verifier wrote. */
  lemma TwoRuns(g: Grammar, task: Text, solver: map<Name, Text>, otherSolver: map<Name, Text>,
                verifier: map<Name, Text>, other: map<Name, Text>, findings: seq<Finding>, otherFindings: seq<Finding>)
    requires solver.Keys == Expected(Solver) && otherSolver.Keys == Expected(Solver)
    requires solver[Candidate] == otherSolver[Candidate]
    requires (forall f :: f in findings ==> Readable(f)) && (forall f :: f in otherFindings ==> Readable(f))
    ensures StageInputs(C, Reviser, BeforeReviser(g, task, solver, verifier, findings))
            == StageInputs(C, Reviser, BeforeReviser(g, task, otherSolver, other, otherFindings))
            <==> findings == otherFindings
  {
    ReviserSees(g, task, solver, verifier, findings);
    ReviserSees(g, task, otherSolver, other, otherFindings);
    var one := map[Task := task, SolverCandidate := solver[Candidate], VerifierFindings := CanonicalText(g, findings)];
    var two := map[Task := task, SolverCandidate := otherSolver[Candidate],
      VerifierFindings := CanonicalText(g, otherFindings)];
    if one == two {
      assert one[VerifierFindings] == two[VerifierFindings];
      HandoffDetermines(g, findings, otherFindings);
    }
  }

  lemma EscapeSingle(c: int)
    ensures Escape([c]) == EscapeOne(c)
  {
    FlatSnoc(EscapeOne, [], c);
    assert [] + [c] == [c];
  }

  /** Two lone surrogates escape like the one character they would encode. */
  lemma SurrogatesEscape()
    ensures Escape([0xD800, 0xDC00]) == Escape([0x10000])
  {
    EscapeSingle(0xD800);
    EscapeSingle(0x10000);
    FlatSnoc(EscapeOne, [0xD800], 0xDC00);
    assert [0xD800] + [0xDC00] == [0xD800, 0xDC00];
    var pair := EscapeOne(0x10000);
    assert pair == Escaped(0xD800 + (0x10000 - 0x10000) / 1024) + Escaped(0xDC00 + (0x10000 - 0x10000) % 1024);
    assert EscapeOne(0xD800) == Escaped(0xD800) && EscapeOne(0xDC00) == Escaped(0xDC00);
  }

  /** So the texts of two different findings are the same, and the condition on the text
      in `TwoRuns` is needed. */
  lemma SurrogatesCollide(g: Grammar, id: Text)
    ensures CanonicalText(g, [Finding(id, [0xD800, 0xDC00], true)]) == CanonicalText(g, [Finding(id, [0x10000], true)])
  {
    SurrogatesEscape();
    var a, b := Finding(id, [0xD800, 0xDC00], true), Finding(id, [0x10000], true);
    FindingPrints(g, a, []);
    FindingPrints(g, b, []);
    assert Print(FindingJson(g, a)) == Print(FindingJson(g, a)) + []
      && Print(FindingJson(g, b)) == Print(FindingJson(g, b)) + [];
    HandoffIs(g, [a]);
    HandoffIs(g, [b]);
    assert Body(g, [a]) == Print(FindingJson(g, a)) + [] && Body(g, [b]) == Print(FindingJson(g, b)) + [];
  }
}
