/** The structured handoff of Condition C: the verifier's findings, the reviser's
    dispositions of them, and what of one stage the next one gets to see. */
module Findings {
  import opened Wrappers
  import opened Utf8
  import opened Json
  import Roles

  datatype Finding = Finding(id: Text, description: Text, material: bool)

  datatype Disposition = Disposition(id: Text, accepts: bool, rationale: Text)

  /** The words of the payloads, and what counts as blank. */
  datatype Grammar = Grammar(
    findings: Text, dispositions: Text, findingId: Text, description: Text, material: Text,
    decision: Text, rationale: Text, accept: Text, reject: Text, blank: Text -> bool)

  // ----------------------------------------------------------------- parsing

  /** A non-blank string under a key. */
  function TextAt(g: Grammar, fields: Fields, key: Text): Option<Text> {
    var v := Lookup(fields, key);
    if v.Some? && v.value.Str? && v.value.text != [] && !g.blank(v.value.text) then Some(v.value.text) else None
  }

  function ParseFinding(g: Grammar, v: Json): Option<Finding> {
    if !v.Object? || !OnlyKeys(v.fields, {g.findingId, g.description, g.material}) then None
    else
      var (id, description, material) :=
        (TextAt(g, v.fields, g.findingId), TextAt(g, v.fields, g.description), Lookup(v.fields, g.material));
      if id.None? || description.None? || (material.Some? && !material.value.Bool?) then None
      else Some(Finding(id.value, description.value, material.None? || material.value.value))
  }

  function ParseDisposition(g: Grammar, v: Json): Option<Disposition> {
    if !v.Object? || !OnlyKeys(v.fields, {g.findingId, g.decision, g.rationale}) then None
    else
      var (id, decision, rationale) :=
        (TextAt(g, v.fields, g.findingId), Lookup(v.fields, g.decision), TextAt(g, v.fields, g.rationale));
      if id.None? || rationale.None? || decision.None? || !decision.value.Str?
         || (decision.value.text != g.accept && decision.value.text != g.reject) then None
      else Some(Disposition(id.value, decision.value.text == g.accept, rationale.value))
  }

  /** The payload is an object with the one key, holding an array. */
  function RequireStructured(structured: Json, key: Text): Option<Items> {
    if !structured.Object? || !OnlyKeys(structured.fields, {key}) then None
    else
      var v := Lookup(structured.fields, key);
      if v.Some? && v.value.Array? then Some(v.value.items) else None
  }

  function ParseFindings(g: Grammar, items: Items): Option<seq<Finding>> {
    match items
    case NoItems => Some([])
    case Items(init, last) =>
      var (before, one) := (ParseFindings(g, init), ParseFinding(g, last));
      if before.Some? && one.Some? then Some(before.value + [one.value]) else None
  }

  function ParseDispositions(g: Grammar, items: Items): Option<seq<Disposition>> {
    match items
    case NoItems => Some([])
    case Items(init, last) =>
      var (before, one) := (ParseDispositions(g, init), ParseDisposition(g, last));
      if before.Some? && one.Some? then Some(before.value + [one.value]) else None
  }

  // --------------------------------------------------------------- validating

  function Ids(findings: seq<Finding>): set<Text> { set i | 0 <= i < |findings| :: findings[i].id }

  predicate Stated(g: Grammar, f: Finding) { f.id != [] && f.description != [] && !g.blank(f.description) }

  /** Every finding is stated, and no two share an id. */
  predicate Sound(g: Grammar, findings: seq<Finding>) {
    && (forall i :: 0 <= i < |findings| ==> Stated(g, findings[i]))
    && forall i, j :: 0 <= i < j < |findings| ==> findings[i].id != findings[j].id
  }

  method ValidateFindings(g: Grammar, findings: seq<Finding>) returns (ok: bool)
    ensures ok <==> Sound(g, findings)
  {
    var seen: set<Text> := {};
    for i := 0 to |findings|
      invariant seen == set j | 0 <= j < i :: findings[j].id
      invariant Sound(g, findings[..i])
    {
      if !Stated(g, findings[i]) { return false; }
      if findings[i].id in seen {
        var j :| 0 <= j < i && findings[j].id == findings[i].id;
        return false;
      }
      assert findings[..i + 1] == findings[..i] + [findings[i]];
      seen := seen + {findings[i].id};
    }
    assert findings[..|findings|] == findings;
    ok := true;
  }

  /** How often a finding is disposed of. */
  function Times(dispositions: seq<Disposition>, id: Text): nat {
    if dispositions == [] then 0
    else Times(dispositions[..|dispositions| - 1], id) + if dispositions[|dispositions| - 1].id == id then 1 else 0
  }

  /** Every material finding is disposed of exactly once, any finding at most once, nothing
      else at all, and always with a rationale. */
  ghost predicate Disposed(g: Grammar, findings: seq<Finding>, dispositions: seq<Disposition>) {
    && (forall f :: f in findings && f.material ==> Times(dispositions, f.id) == 1)
    && (forall id :: Times(dispositions, id) <= 1)
    && (forall id :: 0 < Times(dispositions, id) ==> id in Ids(findings))
    && forall i :: 0 <= i < |dispositions| ==> !g.blank(dispositions[i].rationale) && dispositions[i].rationale != []
  }

  lemma {:induction false} TimesGrow(dispositions: seq<Disposition>, i: nat, id: Text)
    requires i <= |dispositions|
    ensures Times(dispositions[..i], id) <= Times(dispositions, id)
    decreases |dispositions|
  {
    if i < |dispositions| {
      var init := dispositions[..|dispositions| - 1];
      TimesGrow(init, i, id);
      assert init[..i] == dispositions[..i];
    } else {
      assert dispositions[..i] == dispositions;
    }
  }

  method ValidateDispositions(g: Grammar, findings: seq<Finding>, dispositions: seq<Disposition>) returns (ok: bool)
    ensures ok <==> Disposed(g, findings, dispositions)
  {
    var seen: set<Text> := {};
    for i := 0 to |dispositions|
      invariant forall id :: id in seen <==> 0 < Times(dispositions[..i], id)
      invariant forall id :: Times(dispositions[..i], id) <= 1
      invariant seen <= Ids(findings)
      invariant forall j :: 0 <= j < i ==> !g.blank(dispositions[j].rationale) && dispositions[j].rationale != []
    {
      var d := dispositions[i];
      assert dispositions[..i + 1][..i] == dispositions[..i];
      assert Times(dispositions[..i + 1], d.id) == Times(dispositions[..i], d.id) + 1;
      TimesGrow(dispositions, i + 1, d.id);
      if d.id !in Ids(findings) || d.id in seen || d.rationale == [] || g.blank(d.rationale) { return false; }
      seen := seen + {d.id};
    }
    assert dispositions[..|dispositions|] == dispositions;
    ok := true;
    for i := 0 to |findings|
      invariant ok <==> forall j :: 0 <= j < i && findings[j].material ==> findings[j].id in seen
    {
      if findings[i].material && findings[i].id !in seen {
        ok := false;
      }
    }
    assert ok ==> forall f :: f in findings && f.material ==> f.id in seen;
    if !ok {
      var j :| 0 <= j < |findings| && findings[j].material && findings[j].id !in seen;
      assert findings[j] in findings;
    }
  }

  // ------------------------------------------------------------ the handoff text

  function FindingJson(g: Grammar, f: Finding): Json {
    Object(Fields(Fields(Fields(NoFields, g.description, Str(f.description)), g.findingId, Str(f.id)), g.material,
      Bool(f.material)))
  }

  function FindingItems(g: Grammar, findings: seq<Finding>): Items {
    if findings == [] then NoItems
    else Items(FindingItems(g, findings[..|findings| - 1]), FindingJson(g, findings[|findings| - 1]))
  }

  /** What the reviser is given of the verifier's stage. */
  function CanonicalText(g: Grammar, findings: seq<Finding>): Octets {
    Print(Object(Fields(NoFields, g.findings, Array(FindingItems(g, findings)))))
  }

  // ------------------------------------------------------------- reading it back

  /** The words of a payload are different. */
  predicate Apart(g: Grammar) {
    && g.findingId != g.description && g.findingId != g.material && g.description != g.material
    && g.findingId != g.decision && g.findingId != g.rationale && g.decision != g.rationale && g.accept != g.reject
  }

  /** A finding that can be stated reads back from its object as itself; without the flag
      it reads as material. */
  lemma FindingReads(g: Grammar, f: Finding)
    requires Apart(g) && Stated(g, f) && !g.blank(f.id)
    ensures ParseFinding(g, FindingJson(g, f)) == Some(f)
    ensures ParseFinding(g, Object(Fields(Fields(NoFields, g.description, Str(f.description)), g.findingId, Str(f.id))))
            == Some(f.(material := true))
  {
    var one := Fields(NoFields, g.description, Str(f.description));
    var two := Fields(one, g.findingId, Str(f.id));
    var three := Fields(two, g.material, Bool(f.material));
    var keys := {g.findingId, g.description, g.material};
    assert OnlyKeys(one, keys) && OnlyKeys(two, keys) && OnlyKeys(three, keys);
    assert Lookup(one, g.description) == Some(Str(f.description));
    assert Lookup(one, g.material) == None && Lookup(two, g.material) == None;
    assert Lookup(two, g.description) == Some(Str(f.description)) && Lookup(two, g.findingId) == Some(Str(f.id));
    assert Lookup(three, g.description) == Some(Str(f.description)) && Lookup(three, g.findingId) == Some(Str(f.id));
    assert Lookup(three, g.material) == Some(Bool(f.material));
  }

  function DispositionJson(g: Grammar, d: Disposition): Json {
    Object(Fields(Fields(Fields(NoFields, g.findingId, Str(d.id)), g.decision,
      Str(if d.accepts then g.accept else g.reject)), g.rationale, Str(d.rationale)))
  }

  lemma DispositionReads(g: Grammar, d: Disposition)
    requires Apart(g) && d.id != [] && !g.blank(d.id) && d.rationale != [] && !g.blank(d.rationale)
    ensures ParseDisposition(g, DispositionJson(g, d)) == Some(d)
  {
    var word := Str(if d.accepts then g.accept else g.reject);
    var one := Fields(NoFields, g.findingId, Str(d.id));
    var two := Fields(one, g.decision, word);
    var three := Fields(two, g.rationale, Str(d.rationale));
    var keys := {g.findingId, g.decision, g.rationale};
    assert OnlyKeys(one, keys) && OnlyKeys(two, keys) && OnlyKeys(three, keys);
    assert Lookup(one, g.findingId) == Some(Str(d.id)) && Lookup(two, g.findingId) == Some(Str(d.id));
    assert Lookup(two, g.decision) == Some(word);
    assert Lookup(three, g.decision) == Lookup(two, g.decision);
    assert Lookup(three, g.findingId) == Lookup(two, g.findingId);
    assert Lookup(three, g.rationale) == Some(Str(d.rationale));
  }

  lemma {:induction false} FindingsRead(g: Grammar, findings: seq<Finding>)
    requires Apart(g) && forall f :: f in findings ==> Stated(g, f) && !g.blank(f.id)
    ensures ParseFindings(g, FindingItems(g, findings)) == Some(findings)
  {
    if findings != [] {
      var init, last := findings[..|findings| - 1], findings[|findings| - 1];
      FindingsRead(g, init);
      FindingReads(g, last);
      assert findings == init + [last];
    }
  }

  lemma OneKey(key: Text, v: Json)
    ensures Lookup(Fields(NoFields, key, v), key) == Some(v) && OnlyKeys(Fields(NoFields, key, v), {key})
  {
  }

  /** The object that is handed on reads back as the findings it was made of, and they are
      as sound as they were. */
  lemma HandoffReads(g: Grammar, findings: seq<Finding>)
    requires Apart(g) && Sound(g, findings) && forall f :: f in findings ==> !g.blank(f.id)
    ensures var v := Object(Fields(NoFields, g.findings, Array(FindingItems(g, findings))));
            && CanonicalText(g, findings) == Print(v)
            && RequireStructured(v, g.findings) == Some(FindingItems(g, findings))
            && ParseFindings(g, FindingItems(g, findings)) == Some(findings)
  {
    var fields := Fields(NoFields, g.findings, Array(FindingItems(g, findings)));
    OneKey(g.findings, Array(FindingItems(g, findings)));
    forall f | f in findings ensures Stated(g, f) {
      var i :| 0 <= i < |findings| && findings[i] == f;
    }
    FindingsRead(g, findings);
  }

  /** What a payload may not be: an object with a strange field, one without a proper id and
      description, or with a flag that is no boolean. */
  lemma FindingRefused(g: Grammar, v: Json)
    ensures ParseFinding(g, v).None? <==>
              || !v.Object? || !OnlyKeys(v.fields, {g.findingId, g.description, g.material})
              || !Proper(g, Lookup(v.fields, g.findingId)) || !Proper(g, Lookup(v.fields, g.description))
              || (Lookup(v.fields, g.material).Some? && !Lookup(v.fields, g.material).value.Bool?)
  {
  }

  /** A string that is not blank. */
  predicate Proper(g: Grammar, v: Option<Json>) {
    v.Some? && v.value.Str? && v.value.text != [] && !g.blank(v.value.text)
  }

  lemma DispositionRefused(g: Grammar, v: Json)
    ensures ParseDisposition(g, v).None? <==>
              || !v.Object? || !OnlyKeys(v.fields, {g.findingId, g.decision, g.rationale})
              || !Proper(g, Lookup(v.fields, g.findingId)) || !Proper(g, Lookup(v.fields, g.rationale))
              || Lookup(v.fields, g.decision) !in {Some(Str(g.accept)), Some(Str(g.reject))}
  {
  }

  /** An escaped string ends at its quote and nowhere before. */
  lemma EscapeStops(x: Text, r: Octets, y: Text, s: Octets)
    requires AllScalar(x) && AllScalar(y) && Escape(x) + ([QUOTE] + r) == Escape(y) + ([QUOTE] + s)
    ensures x == y && r == s
  {
    EscapeDelimits();
    FlatStops(EscapeOne, UnescapeOne, x, [QUOTE] + r, y, [QUOTE] + s);
    assert ([QUOTE] + r)[1..] == r && ([QUOTE] + s)[1..] == s;
  }

  /** The items of the handoff, read from the front. */
  function Body(g: Grammar, findings: seq<Finding>): Octets {
    if findings == [] then []
    else Print(FindingJson(g, findings[0])) + (if |findings| == 1 then [] else [44] + Body(g, findings[1..]))
  }

  lemma {:induction false} BodySnoc(g: Grammar, findings: seq<Finding>, f: Finding)
    requires findings != []
    ensures Body(g, findings + [f]) == Body(g, findings) + ([44] + Print(FindingJson(g, f)))
  {
    assert (findings + [f])[1..] == findings[1..] + [f];
    if |findings| == 1 {
      assert findings[1..] + [f] == [f];
      assert Body(g, [f]) == Print(FindingJson(g, f));
    } else {
      BodySnoc(g, findings[1..], f);
      var head, tail, last := Print(FindingJson(g, findings[0])), Body(g, findings[1..]), [44]
        + Print(FindingJson(g, f));
      assert head + ([44] + (tail + last)) == (head + ([44] + tail)) + last;
    }
  }

  lemma {:induction false} BodyPrints(g: Grammar, findings: seq<Finding>)
    ensures PrintItems(FindingItems(g, findings)) == Body(g, findings)
  {
    if |findings| == 1 {
      assert findings[..0] == [];
      assert PrintItems(FindingItems(g, findings)) == [] + [] + Print(FindingJson(g, findings[0]));
    } else if findings != [] {
      var init, last := findings[..|findings| - 1], findings[|findings| - 1];
      BodyPrints(g, init);
      BodySnoc(g, init, last);
      assert findings == init + [last];
      Regroup(Body(g, init), [44], Print(FindingJson(g, last)));
    }
  }

  lemma Regroup(a: Octets, b: Octets, c: Octets)
    ensures a + b + c == a + (b + c)
  {
  }

  /** A quoted string after a key, and whatever follows, regrouped to the right. */
  lemma QuotedField(a: Octets, k: Octets, t: Octets, x: Octets)
    ensures (a + k + [58] + ([QUOTE] + t + [QUOTE])) + x == (a + k + [58, QUOTE]) + (t + ([QUOTE] + x))
  {
  }

  lemma LastField(a: Octets, k: Octets, v: Octets, x: Octets)
    ensures ((a + [44] + k + [58] + v) + [125]) + x == a + ([44] + k + [58] + (v + ([125] + x)))
  {
  }

  lemma Peel(a: Octets, b: Octets, c: Octets)
    requires a + b == a + c
    ensures b == c
  {
    assert (a + b)[|a|..] == b && (a + c)[|a|..] == c;
  }

  function Flag(b: bool): Octets { Print(Bool(b)) }

  /** The text after the description: the id and the flag. */
  function AfterDescription(g: Grammar, f: Finding, rest: Octets): Octets {
    ([44] + PrintString(g.findingId) + [58, QUOTE])
    + (Escape(f.id) + ([QUOTE] + ([44] + PrintString(g.material) + [58] + (Flag(f.material) + ([125] + rest)))))
  }

  /** One finding as text: its fields between fixed punctuation. */
  lemma FindingPrints(g: Grammar, f: Finding, rest: Octets)
    ensures Print(FindingJson(g, f)) + rest
            == ([123] + PrintString(g.description) + [58, QUOTE])
              + (Escape(f.description) + ([QUOTE] + AfterDescription(g, f, rest)))
  {
    var one := Fields(NoFields, g.description, Str(f.description));
    var two := Fields(one, g.findingId, Str(f.id));
    var tail := [44] + PrintString(g.material) + [58] + (Flag(f.material) + ([125] + rest));
    MoreFields([123], two, g.material, Bool(f.material));
    LastField([123] + PrintFields(two), PrintString(g.material), Flag(f.material), rest);
    MoreFields([123], one, g.findingId, Str(f.id));
    QuotedField([123] + PrintFields(one) + [44], PrintString(g.findingId), Escape(f.id), tail);
    OneField([123], g.description, Str(f.description));
    Shift([123] + PrintFields(one), PrintString(g.findingId), Escape(f.id) + ([QUOTE] + tail));
    QuotedField([123], PrintString(g.description), Escape(f.description), AfterDescription(g, f, rest));
  }

  lemma OneField(a: Octets, k: Text, v: Json)
    ensures a + PrintFields(Fields(NoFields, k, v)) == a + PrintString(k) + [58] + Print(v)
  {
    assert PrintFields(Fields(NoFields, k, v)) == [] + [] + PrintString(k) + [58] + Print(v);
  }

  lemma MoreFields(a: Octets, init: Fields, k: Text, v: Json)
    requires init.Fields?
    ensures a + PrintFields(Fields(init, k, v)) == (a + PrintFields(init) + [44]) + PrintString(k) + [58] + Print(v)
  {
    Reassociate(a, PrintFields(init), PrintString(k), Print(v));
  }

  lemma Reassociate(a: Octets, p: Octets, k: Octets, v: Octets)
    ensures a + (p + [44] + k + [58] + v) == (a + p + [44]) + k + [58] + v
  {
  }

  lemma Shift(a: Octets, k: Octets, x: Octets)
    ensures (a + [44] + k + [58, QUOTE]) + x == a + (([44] + k + [58, QUOTE]) + x)
  {
  }

  predicate Readable(f: Finding) { AllScalar(f.id) && AllScalar(f.description) }

  /** A finding's text determines the finding and where it ends. */
  lemma FindingStops(g: Grammar, f: Finding, r: Octets, h: Finding, s: Octets)
    requires Readable(f) && Readable(h) && Print(FindingJson(g, f)) + r == Print(FindingJson(g, h)) + s
    ensures f == h && r == s
  {
    FindingPrints(g, f, r);
    FindingPrints(g, h, s);
    Peel([123] + PrintString(g.description) + [58, QUOTE],
         Escape(f.description) + ([QUOTE] + AfterDescription(g, f, r)), Escape(h.description)
           + ([QUOTE] + AfterDescription(g, h, s)));
    EscapeStops(f.description, AfterDescription(g, f, r), h.description, AfterDescription(g, h, s));
    var key := [44] + PrintString(g.material) + [58];
    var tf, th := Flag(f.material) + ([125] + r), Flag(h.material) + ([125] + s);
    Peel([44] + PrintString(g.findingId) + [58, QUOTE], Escape(f.id) + ([QUOTE] + (key + tf)), Escape(h.id)
      + ([QUOTE] + (key + th)));
    EscapeStops(f.id, key + tf, h.id, key + th);
    Peel(key, tf, th);
    assert tf[0] == th[0];
    Peel(Flag(f.material), [125] + r, [125] + s);
    Peel([125], r, s);
  }

  lemma BodyEmpty(g: Grammar, findings: seq<Finding>)
    ensures Body(g, findings) == [] <==> findings == []
  {
    if findings != [] {
      assert Print(FindingJson(g, findings[0])) != [];
    }
  }

  /** The handoff text determines the findings, one by one. */
  lemma {:induction false} BodyDetermines(g: Grammar, a: seq<Finding>, b: seq<Finding>)
    requires (forall f :: f in a ==> Readable(f)) && (forall f :: f in b ==> Readable(f))
    requires Body(g, a) == Body(g, b)
    ensures a == b
  {
    BodyEmpty(g, a);
    BodyEmpty(g, b);
    if a != [] && b != [] {
      FindingStops(g, a[0], Rest(g, a), b[0], Rest(g, b));
      if |a| > 1 && |b| > 1 {
        Peel([44], Body(g, a[1..]), Body(g, b[1..]));
        BodyDetermines(g, a[1..], b[1..]);
      }
      assert a == [a[0]] + a[1..] && b == [b[0]] + b[1..];
    }
  }

  function Rest(g: Grammar, findings: seq<Finding>): Octets
    requires findings != []
  {
    if |findings| == 1 then [] else [44] + Body(g, findings[1..])
  }

  lemma HandoffDetermines(g: Grammar, a: seq<Finding>, b: seq<Finding>)
    requires (forall f :: f in a ==> Readable(f)) && (forall f :: f in b ==> Readable(f))
    requires CanonicalText(g, a) == CanonicalText(g, b)
    ensures a == b
  {
    BodyPrints(g, a);
    BodyPrints(g, b);
    HandoffIs(g, a);
    HandoffIs(g, b);
    var opening := [123] + PrintString(g.findings) + [58] + [91];
    Peel(opening, Body(g, a) + [93, 125], Body(g, b) + [93, 125]);
    assert Body(g, a) == (Body(g, a) + [93, 125])[..|Body(g, a)|];
    assert Body(g, b) == (Body(g, b) + [93, 125])[..|Body(g, b)|];
    BodyDetermines(g, a, b);
  }

  lemma HandoffIs(g: Grammar, a: seq<Finding>)
    ensures CanonicalText(g, a) == ([123] + PrintString(g.findings) + [58] + [91]) + (Body(g, a) + [93, 125])
  {
    BodyPrints(g, a);
    var list := [91] + Body(g, a) + [93];
    OneField([123], g.findings, Array(FindingItems(g, a)));
    assert CanonicalText(g, a) == [123] + PrintString(g.findings) + [58] + list + [125];
  }
}
