/** Copying a provider's response under a running budget: the budget is charged before each
    copy, and the copy is refused exactly when it cannot be paid for. */
module Extraction {
  import opened Wrappers
  import opened Utf8
  import opened Json
  import opened ProviderCopy
  import opened OwnedJson
  import ProviderCopyFits
  import opened ProviderCopyMeans
  import RawEvidence

  // --------------------------------------------------------------- the budget

  /** What a budget has taken so far. */
  datatype Meter = Meter(items: nat, nbytes: nat)
  {
    predicate Valid() { items <= MAX_ITEMS && nbytes <= MAX_BYTES }
  }

  /** Exactly this much was charged, or there was no room for it. */
  predicate Took(ok: bool, n: nat, size: nat, m: Meter, after: Meter) {
    && after.Valid() && (ok <==> Within(m.items, m.nbytes, n, size))
    && (ok ==> after == Meter(m.items + n, m.nbytes + size))
  }

  /** A value copied whole and charged for, `waste` included, or refused. */
  predicate Copies(spec: Option<Json>, r: Option<Json>, m: Meter, after: Meter, waste: nat := 0) {
    && after.Valid() && (spec.None? ==> r.None?)
    && (spec.Some? ==> Took(r.Some?, Nodes(spec.value), Charge(spec.value) + waste, m, after))
    && (r.Some? ==> r == spec)
  }

  /** An object made whole, in the same sense. */
  predicate Makes(spec: Option<Fields>, r: Option<Fields>, m: Meter, after: Meter, waste: nat := 0) {
    && after.Valid() && (spec.None? ==> r.None?)
    && (spec.Some? ==> Took(r.Some?, 1 + FieldNodes(spec.value), 2 + FieldCharge(spec.value) + waste, m, after))
    && (r.Some? ==> r == spec)
  }

  /** Fields added to an object under construction, in the same sense. */
  predicate Adds(before: Fields, spec: Option<Fields>, r: Option<Fields>, m: Meter, after: Meter, waste: nat := 0) {
    && after.Valid() && (spec.None? ==> r.None?)
    && (spec.Some? ==>
          var (n, size) := (FieldNodes(spec.value) - FieldNodes(before), FieldCharge(spec.value) - FieldCharge(before));
          0 <= n && 0 <= size && Took(r.Some?, n, size + waste, m, after))
    && (r.Some? ==> r == spec)
  }

  /** An addition that is made where an earlier one was gives both, or neither. */
  lemma AddsThen(before: Fields, one: Option<Fields>, a: Option<Fields>, m: Meter, between: Meter, waste: nat,
                 two: Option<Fields>, r: Option<Fields>, after: Meter, more: nat)
    requires m.Valid() && Adds(before, one, a, m, between, waste)
             && (one.Some? && two.Some? ==> Grows(one.value, two.value))
    requires if a.Some? then Adds(a.value, two, r, between, after, more) else r.None? && after == between
    ensures Adds(before, if one.Some? then two else None, r, m, after, waste + more)
  {
  }

  lemma MakesThen(one: Option<Fields>, a: Option<Fields>, m: Meter, between: Meter,
                  two: Option<Fields>, r: Option<Fields>, after: Meter)
    requires m.Valid() && Makes(one, a, m, between) && (one.Some? && two.Some? ==> Grows(one.value, two.value))
    requires if a.Some? then Adds(a.value, two, r, between, after) else r.None? && after == between
    ensures Makes(if one.Some? then two else None, r, m, after)
  {
  }

  /** A container and the fields added to it make an object. */
  lemma Opened(ok: bool, m: Meter, between: Meter, spec: Option<Fields>, r: Option<Fields>, after: Meter, waste: nat)
    requires m.Valid() && Took(ok, 1, 2, m, between)
    requires if ok then Adds(NoFields, spec, r, between, after, waste) else r.None? && after == between
    ensures Makes(spec, r, m, after, waste)
  {
  }

  /** One more element of a list, whose first `i` are `done`. */
  lemma Extended(one: Raw -> Option<Fields>, items: seq<Raw>, i: nat, done: Items, m: Meter, between: Meter,
    r: Option<Fields>, after: Meter)
    requires i < |items| && Listed(one, items, i) == Some(done) && m.Valid()
    requires Took(true, 1 + ItemNodes(done), 2 + ItemCharge(done), m, between)
             && Makes(one(items[i]), r, between, after)
    ensures r.Some? ==>
              var more := Items(done, Object(r.value));
              Listed(one, items, i + 1) == Some(more) && Took(true, 1 + ItemNodes(more), 2 + ItemCharge(more), m, after)
    ensures r.None? ==> Copies(Whole(Listed(one, items, |items|)), None, m, after)
  {
    ListedGrows(one, items, i + 1, |items|);
  }

  /** The checks after the fact. */
  predicate AfterTheFact(v: Json) { v.Object? && Own(v, 0, 0).Some? && |Print(v)| <= MAX_BYTES }

  /** A copy that was paid for passes the checks after the fact. */
  lemma PaidFits(t: Tools, raw: Raw, after: Meter)
    requires Copied(t, raw).Some?
             && Took(true, 1 + FieldNodes(Copied(t, raw).value), 2 + FieldCharge(Copied(t, raw).value)
               + Waste(t, raw), Meter(0, 0), after)
    ensures AfterTheFact(Object(Copied(t, raw).value)) && Nodes(Object(Copied(t, raw).value)) == after.items
    ensures |Print(Object(Copied(t, raw).value))| <= after.nbytes
  {
    ProviderCopyFits.CopiedFits(t, raw);
    Owns(Object(Copied(t, raw).value), 0, 0);
  }

  class ExtractionBudget {
    var items: nat
    var nbytes: nat

    constructor ()
      ensures Now() == Meter(0, 0)
    {
      items, nbytes := 0, 0;
    }

    function Now(): Meter
      reads this
    {
      Meter(items, nbytes)
    }

    method ConsumeNode() returns (ok: bool)
      requires Now().Valid()
      modifies this
      ensures Took(ok, 1, 0, old(Now()), Now()) && (!ok ==> Now() == old(Now()))
    {
      ok := items < MAX_ITEMS;
      if ok { items := items + 1; }
    }

    method ConsumeBytes(size: nat) returns (ok: bool)
      requires Now().Valid()
      modifies this
      ensures Took(ok, 0, size, old(Now()), Now()) && (!ok ==> Now() == old(Now()))
    {
      ok := size <= MAX_BYTES - nbytes;
      if ok { nbytes := nbytes + size; }
    }

    method ChargeLeaf(size: nat) returns (ok: bool)
      requires Now().Valid()
      modifies this
      ensures Took(ok, 1, size, old(Now()), Now())
    {
      ok := ConsumeNode();
      if ok { ok := ConsumeBytes(size); }
    }

    method ChargeContainer() returns (ok: bool)
      requires Now().Valid()
      modifies this
      ensures Took(ok, 1, 2, old(Now()), Now())
    {
      ok := ChargeLeaf(2);
    }

    /** Text without an encoding is refused before anything is charged. */
    method ChargePayload(text: Text) returns (ok: bool)
      requires Now().Valid()
      modifies this
      ensures AllScalar(text) ==> Took(ok, 0, TextCharge(text), old(Now()), Now())
      ensures !AllScalar(text) ==> !ok && Now().Valid()
    {
      if !AllScalar(text) { return false; }
      var body := BodyBytes(text);
      ok := ConsumeBytes(2 + Max(body, 2 * |Encode(text)|));
    }

    method ChargeKey(key: Text) returns (ok: bool)
      requires Now().Valid() && AllScalar(key)
      modifies this
      ensures Took(ok, 0, KeyCharge(key), old(Now()), Now())
    {
      ok := ConsumeBytes(1);
      if ok { ok := ChargePayload(key); }
      if ok { ok := ConsumeBytes(1); }
    }

    method ChargeString(text: Text) returns (ok: bool)
      requires Now().Valid()
      modifies this
      ensures AllScalar(text) ==> Took(ok, 1, TextCharge(text), old(Now()), Now())
      ensures !AllScalar(text) ==> !ok && Now().Valid()
    {
      ok := ConsumeNode();
      if ok { ok := ChargePayload(text); }
    }

    method ChargeInt(n: nat) returns (ok: bool)
      requires Now().Valid()
      modifies this
      ensures Took(ok, 1, Charge(Number(n)), old(Now()), Now())
    {
      ok := ChargeLeaf(|RawEvidence.Print(n)|);
    }

    // ------------------------------------------------------------ the copies

    method AddText(key: Text, text: Text, before: Fields) returns (r: Option<Fields>)
      requires Now().Valid() && AllScalar(key) && AllScalar(text)
      modifies this
      ensures Adds(before, Some(Fields(before, key, Str(text))), r, old(Now()), Now())
    {
      var ok := ChargeKey(key);
      if ok { ok := ChargeString(text); }
      r := if ok then Some(Fields(before, key, Str(text))) else None;
    }

    /** The text is bounded on its own before it is charged. */
    method AddBoundedText(key: Text, raw: Raw, before: Fields) returns (r: Option<Fields>)
      requires Now().Valid() && AllScalar(key)
      modifies this
      ensures Adds(before, if raw.Words? && AllScalar(raw.text)
              && |Encode(raw.text)| <= MAX_BYTES then Some(Fields(before, key, Str(raw.text))) else None,
                   r, old(Now()), Now())
    {
      var ok := ChargeKey(key);
      if !ok || !raw.Words? || !AllScalar(raw.text) || MAX_BYTES < |Encode(raw.text)| { return None; }
      ok := ChargeString(raw.text);
      r := if ok then Some(Fields(before, key, Str(raw.text))) else None;
    }

    method AddCount(key: Text, n: nat, before: Fields) returns (r: Option<Fields>)
      requires Now().Valid() && AllScalar(key)
      modifies this
      ensures Adds(before, Some(Fields(before, key, Number(n))), r, old(Now()), Now())
    {
      var ok := ChargeKey(key);
      if ok { ok := ChargeInt(n); }
      r := if ok then Some(Fields(before, key, Number(n))) else None;
    }

    /** A list is walked only where the nodes left admit its length, and one is refused only
        if no copy of it fits them, whatever its elements are copied as. */
    method RequireList(raw: Raw, ghost one: Raw -> Option<Fields>) returns (r: Option<seq<Raw>>)
      requires Now().Valid()
      ensures r.Some? ==> raw.List? && r.value == raw.items && items < MAX_ITEMS && |r.value| <= MAX_ITEMS - items
      ensures r.None? && raw.List? && Listed(one, raw.items, |raw.items|).Some?
              ==> MAX_ITEMS < items + Nodes(Array(Listed(one, raw.items, |raw.items|).value))
    {
      if raw.List? { ListedGrows(one, raw.items, 0, |raw.items|); }
      r := if raw.List? && 0 < MAX_ITEMS - items && |raw.items| <= MAX_ITEMS - items then Some(raw.items) else None;
    }
  }

  /** The copies of one SDK response. */
  class Extractor {
    const t: Tools
    const budget: ExtractionBudget

    constructor (t: Tools)
      ensures this.t == t && fresh(budget) && budget.Now() == Meter(0, 0)
    {
      this.t := t;
      budget := new ExtractionBudget();
    }

    method CopyTyped(itemType: Text) returns (r: Option<Fields>)
      requires budget.Now().Valid() && AllScalar(itemType)
      modifies budget
      ensures Makes(Some(Typed(t, itemType)), r, old(budget.Now()), budget.Now())
    {
      var ok := budget.ChargeContainer();
      if !ok { return None; }
      r := budget.AddText(t.spell(TypeWord), itemType, NoFields);
    }

    method CopyPart(part: Raw) returns (r: Option<Fields>)
      requires budget.Now().Valid()
      modifies budget
      ensures Makes(Part(t, part), r, old(budget.Now()), budget.Now())
    {
      var partType := Field(part, TypeWord);
      if partType.None? || !partType.value.Words? { return None; }
      var name := PartName(t, partType.value.text);
      if name.None? && !Safe(t, partType.value) { return None; }
      r := CopyTyped(partType.value.text);
      if r.None? || name.None? { return; }
      var text := Field(part, name.value);
      if text.None? { return None; }
      r := budget.AddBoundedText(t.spell(name.value), text.value, r.value);
    }

    method CopyParts(parts: seq<Raw>) returns (r: Option<Json>)
      requires budget.Now().Valid()
      modifies budget
      ensures Copies(Whole(Listed(Parts(t), parts, |parts|)), r, old(budget.Now()), budget.Now())
    {
      var ok := budget.ChargeContainer();
      if !ok { return None; }
      var done := NoItems;
      for i := 0 to |parts|
        invariant Listed(Parts(t), parts, i) == Some(done)
        invariant Took(true, 1 + ItemNodes(done), 2 + ItemCharge(done), old(budget.Now()), budget.Now())
      {
        ghost var between := budget.Now();
        var part := CopyPart(parts[i]);
        Extended(Parts(t), parts, i, done, old(budget.Now()), between, part, budget.Now());
        if part.None? { return None; }
        done := Items(done, Object(part.value));
      }
      r := Some(Array(done));
    }

    /** A field that must be safe if it is there. */
    method CopyObserved(name: Word, raw: Option<Raw>, before: Fields) returns (r: Option<Fields>)
      requires budget.Now().Valid()
      modifies budget
      ensures Adds(before, Observed(t, name, raw, before), r, old(budget.Now()), budget.Now())
    {
      if raw.None? { return None; }
      if raw.value.Missing? { return Some(before); }
      if !Safe(t, raw.value) { return None; }
      r := budget.AddText(t.spell(name), raw.value.text, before);
    }

    /** A field that is left out where it is not safe. */
    method CopyOptional(name: Word, raw: Option<Raw>, before: Fields) returns (r: Option<Fields>)
      requires budget.Now().Valid()
      modifies budget
      ensures Adds(before, Optional(t, name, raw, before), r, old(budget.Now()), budget.Now())
    {
      if raw.None? { return None; }
      if !Safe(t, raw.value) { return Some(before); }
      r := budget.AddText(t.spell(name), raw.value.text, before);
    }

    method CopyMessageHead(item: Raw, before: Fields) returns (r: Option<Fields>)
      requires budget.Now().Valid()
      modifies budget
      ensures Adds(before, MessageHead(t, item, before), r, old(budget.Now()), budget.Now())
    {
      ghost var m := budget.Now();
      var a := CopyObserved(Status, Field(item, Status), before);
      ghost var one, between := Observed(t, Status, Field(item, Status), before), budget.Now();
      r := None;
      if a.Some? { r := CopyObserved(RoleWord, Field(item, RoleWord), a.value); }
      AddsThen(before, one, a, m, between, 0, if one.Some?
        then Observed(t, RoleWord, Field(item, RoleWord), one.value) else None, r, budget.Now(), 0);
    }

    method CopyContent(item: Raw, before: Fields) returns (r: Option<Fields>)
      requires budget.Now().Valid()
      modifies budget
      ensures Adds(before, Elements(t, Content, Parts(t), Field(item, Content), before), r, old(budget.Now()),
              budget.Now())
    {
      var content := Field(item, Content);
      if content.None? { return None; }
      if content.value.Missing? { return Some(before); }
      var parts := budget.RequireList(content.value, Parts(t));
      if parts.None? { return None; }
      var ok := budget.ChargeKey(t.spell(Content));
      if !ok { return None; }
      var list := CopyParts(parts.value);
      r := if list.Some? then Some(Fields(before, t.spell(Content), list.value)) else None;
    }

    method CopyMessageBody(item: Raw, before: Fields) returns (r: Option<Fields>)
      requires budget.Now().Valid()
      modifies budget
      ensures Adds(before, MessageBody(t, item, before), r, old(budget.Now()), budget.Now())
    {
      ghost var m := budget.Now();
      var a := CopyMessageHead(item, before);
      ghost var one, between := MessageHead(t, item, before), budget.Now();
      r := None;
      if a.Some? { r := CopyContent(item, a.value); }
      AddsThen(before, one, a, m, between, 0, if one.Some?
        then Elements(t, Content, Parts(t), Field(item, Content), one.value) else None, r, budget.Now(), 0);
    }

    method CopyMessage(item: Raw) returns (r: Option<Fields>)
      requires budget.Now().Valid()
      modifies budget
      ensures Makes(MessageFields(t, item), r, old(budget.Now()), budget.Now())
    {
      ghost var m := budget.Now();
      var a := CopyTyped(t.spell(Message));
      ghost var one, between := Typed(t, t.spell(Message)), budget.Now();
      r := None;
      if a.Some? { r := CopyMessageBody(item, a.value); }
      MakesThen(Some(one), a, m, between, MessageBody(t, item, one), r, budget.Now());
    }

    method CopyItem(item: Raw) returns (r: Option<Fields>)
      requires budget.Now().Valid()
      modifies budget
      ensures Makes(Item(t, item), r, old(budget.Now()), budget.Now())
    {
      var itemType := Field(item, TypeWord);
      if itemType.None? || !Safe(t, itemType.value) { return None; }
      if itemType.value.text == t.spell(Message) {
        r := CopyMessage(item);
      } else {
        r := CopyTyped(itemType.value.text);
      }
    }

    method CopyItems(items: seq<Raw>) returns (r: Option<Json>)
      requires budget.Now().Valid()
      modifies budget
      ensures Copies(Whole(Listed(ItemsOf(t), items, |items|)), r, old(budget.Now()), budget.Now())
    {
      var ok := budget.ChargeContainer();
      if !ok { return None; }
      var done := NoItems;
      for i := 0 to |items|
        invariant Listed(ItemsOf(t), items, i) == Some(done)
        invariant Took(true, 1 + ItemNodes(done), 2 + ItemCharge(done), old(budget.Now()), budget.Now())
      {
        ghost var between := budget.Now();
        var item := CopyItem(items[i]);
        Extended(ItemsOf(t), items, i, done, old(budget.Now()), between, item, budget.Now());
        if item.None? { return None; }
        done := Items(done, Object(item.value));
      }
      r := Some(Array(done));
    }

    method CopyOutput(raw: Raw, before: Fields) returns (r: Option<Fields>)
      requires budget.Now().Valid()
      modifies budget
      ensures Adds(before, Elements(t, OutputWord, ItemsOf(t), Field(raw, OutputWord), before), r, old(budget.Now()),
              budget.Now())
    {
      var output := Field(raw, OutputWord);
      if output.None? { return None; }
      if output.value.Missing? { return Some(before); }
      var items := budget.RequireList(output.value, ItemsOf(t));
      if items.None? { return None; }
      var ok := budget.ChargeKey(t.spell(OutputWord));
      if !ok { return None; }
      var list := CopyItems(items.value);
      r := if list.Some? then Some(Fields(before, t.spell(OutputWord), list.value)) else None;
    }

    method CopyIncompleteDetails(raw: Raw) returns (r: Option<Json>)
      requires budget.Now().Valid()
      modifies budget
      ensures Copies(Details(t, raw), r, old(budget.Now()), budget.Now(), Dropped(t, raw))
    {
      if raw.Missing? || raw.Nothing? {
        var ok := budget.ChargeLeaf(4);
        return if ok then Some(Null) else None;
      }
      var cause := CopyCause(Field(raw, Reason));
      r := if cause.Some? then Some(Object(cause.value)) else None;
    }

    method CopyCause(reason: Option<Raw>) returns (r: Option<Fields>)
      requires budget.Now().Valid()
      modifies budget
      ensures Makes(Cause(t, reason), r, old(budget.Now()), budget.Now(), Unsafe(t, reason))
    {
      var ok := budget.ChargeContainer();
      if !ok || reason.None? { return None; }
      if reason.value.Missing? { return Some(NoFields); }
      ok := budget.ChargeKey(t.spell(Reason));
      if !ok { return None; }
      if reason.value.Nothing? {
        SingleCosts(t.spell(Reason), Null);
        ok := budget.ChargeLeaf(4);
        return if ok then Some(Fields(NoFields, t.spell(Reason), Null)) else None;
      }
      if !Safe(t, reason.value) { return Some(NoFields); }
      SingleCosts(t.spell(Reason), Str(reason.value.text));
      ok := budget.ChargeString(reason.value.text);
      r := if ok then Some(Fields(NoFields, t.spell(Reason), Str(reason.value.text))) else None;
    }

    method CopyErrorPresence(raw: Raw) returns (r: Option<Json>)
      requires budget.Now().Valid()
      modifies budget
      ensures Copies(Some(Presence(raw)), r, old(budget.Now()), budget.Now())
    {
      var absent := raw.Missing? || raw.Nothing?;
      var ok := budget.ChargeLeaf(if absent then 4 else 5);
      r := if !ok then None else if absent then Some(Null) else Some(Bool(true));
    }

    method CopyExplained(raw: Raw, before: Fields) returns (r: Option<Fields>)
      requires budget.Now().Valid()
      modifies budget
      ensures Adds(before, Explained(t, raw, before), r, old(budget.Now()), budget.Now(), Waste(t, raw))
    {
      var ok := budget.ChargeKey(t.spell(IncompleteDetails));
      var source := Field(raw, IncompleteDetails);
      if !ok || source.None? { return None; }
      var details := CopyIncompleteDetails(source.value);
      r := if details.Some? then Some(Fields(before, t.spell(IncompleteDetails), details.value)) else None;
    }

    method CopyFlagged(raw: Raw, before: Fields) returns (r: Option<Fields>)
      requires budget.Now().Valid()
      modifies budget
      ensures Adds(before, Flagged(t, raw, before), r, old(budget.Now()), budget.Now())
    {
      var ok := budget.ChargeKey(t.spell(ErrorWord));
      var error := Field(raw, ErrorWord);
      if !ok || error.None? { return None; }
      var presence := CopyErrorPresence(error.value);
      r := if presence.Some? then Some(Fields(before, t.spell(ErrorWord), presence.value)) else None;
    }

    method CopyCount(name: Word, usage: Raw, before: Fields) returns (r: Option<Fields>)
      requires budget.Now().Valid()
      modifies budget
      ensures Adds(before, Counted(t, name, usage, before), r, old(budget.Now()), budget.Now())
    {
      var count := Count(Field(usage, name));
      if count.Unreadable? { return None; }
      if count.Absent? { return Some(before); }
      r := budget.AddCount(t.spell(name), count.n, before);
    }

    method CopyFirstCounts(raw: Raw) returns (r: Option<Fields>)
      requires budget.Now().Valid()
      modifies budget
      ensures Adds(NoFields, FirstCounts(t, raw), r, old(budget.Now()), budget.Now())
    {
      ghost var m := budget.Now();
      var a := CopyCount(InputTokens, raw, NoFields);
      ghost var one, between := Counted(t, InputTokens, raw, NoFields), budget.Now();
      r := None;
      if a.Some? { r := CopyCount(OutputTokens, raw, a.value); }
      AddsThen(NoFields, one, a, m, between, 0, if one.Some? then Counted(t, OutputTokens, raw, one.value)
        else None, r, budget.Now(), 0);
    }

    method CopyCounts(raw: Raw) returns (r: Option<Fields>)
      requires budget.Now().Valid()
      modifies budget
      ensures Adds(NoFields, Counts(t, raw), r, old(budget.Now()), budget.Now())
    {
      ghost var m := budget.Now();
      var a := CopyFirstCounts(raw);
      ghost var one, between := FirstCounts(t, raw), budget.Now();
      r := None;
      if a.Some? { r := CopyCount(TotalTokens, raw, a.value); }
      AddsThen(NoFields, one, a, m, between, 0, if one.Some? then Counted(t, TotalTokens, raw, one.value)
        else None, r, budget.Now(), 0);
    }

    method CopyCountIn(name: Word, usage: Raw, token: Word, before: Fields) returns (r: Option<Fields>)
      requires budget.Now().Valid()
      modifies budget
      ensures Adds(before, CountedIn(t, name, usage, token, before), r, old(budget.Now()), budget.Now())
    {
      var details := Field(usage, name);
      if details.None? { return None; }
      if details.value.Missing? || details.value.Nothing? { return Some(before); }
      r := CopyNested(name, token, Count(Field(details.value, token)), before);
    }

    /** The details object is paid for before its key in the usage object is. */
    method CopyNested(name: Word, token: Word, count: Tally, before: Fields) returns (r: Option<Fields>)
      requires budget.Now().Valid()
      modifies budget
      ensures Adds(before, Nested(t, name, token, count, before), r, old(budget.Now()), budget.Now())
    {
      if count.Unreadable? { return None; }
      if count.Absent? { return Some(before); }
      r := CopySingle(name, token, count.n, before);
    }

    method CopySingle(name: Word, token: Word, count: nat, before: Fields) returns (r: Option<Fields>)
      requires budget.Now().Valid()
      modifies budget
      ensures Adds(before,
              Some(Fields(before, t.spell(name), Object(Fields(NoFields, t.spell(token), Number(count))))), r,
                old(budget.Now()), budget.Now())
    {
      SingleCosts(t.spell(token), Number(count));
      var ok := budget.ChargeContainer();
      if !ok { return None; }
      var inner := budget.AddCount(t.spell(token), count, NoFields);
      if inner.None? { return None; }
      ok := budget.ChargeKey(t.spell(name));
      r := if ok then Some(Fields(before, t.spell(name), Object(inner.value))) else None;
    }

    method CopyCountsIn(raw: Raw) returns (r: Option<Fields>)
      requires budget.Now().Valid()
      modifies budget
      ensures Adds(NoFields, CountsIn(t, raw), r, old(budget.Now()), budget.Now())
    {
      ghost var m := budget.Now();
      var a := CopyCounts(raw);
      ghost var one, between := Counts(t, raw), budget.Now();
      r := None;
      if a.Some? { r := CopyCountIn(InputDetails, raw, CachedTokens, a.value); }
      AddsThen(NoFields, one, a, m, between, 0, if one.Some?
        then CountedIn(t, InputDetails, raw, CachedTokens, one.value) else None, r, budget.Now(), 0);
    }

    method CopyAllCounts(raw: Raw) returns (r: Option<Fields>)
      requires budget.Now().Valid()
      modifies budget
      ensures Adds(NoFields, UsageFields(t, raw), r, old(budget.Now()), budget.Now())
    {
      ghost var m := budget.Now();
      var a := CopyCountsIn(raw);
      ghost var one, between := CountsIn(t, raw), budget.Now();
      r := None;
      if a.Some? { r := CopyCountIn(OutputDetails, raw, ReasoningTokens, a.value); }
      AddsThen(NoFields, one, a, m, between, 0, if one.Some?
        then CountedIn(t, OutputDetails, raw, ReasoningTokens, one.value) else None, r, budget.Now(), 0);
    }

    method CopyUsage(raw: Raw) returns (r: Option<Fields>)
      requires budget.Now().Valid()
      modifies budget
      ensures Makes(UsageFields(t, raw), r, old(budget.Now()), budget.Now())
    {
      ghost var m := budget.Now();
      var ok := budget.ChargeContainer();
      ghost var between := budget.Now();
      r := None;
      if ok { r := CopyAllCounts(raw); }
      Opened(ok, m, between, UsageFields(t, raw), r, budget.Now(), 0);
    }

    method CopyUsed(raw: Option<Raw>, before: Fields) returns (r: Option<Fields>)
      requires budget.Now().Valid()
      modifies budget
      ensures Adds(before, Used(t, raw, before), r, old(budget.Now()), budget.Now())
    {
      if raw.None? { return None; }
      if raw.value.Missing? || raw.value.Nothing? { return Some(before); }
      var usage := CopyUsage(raw.value);
      if usage.None? { return None; }
      var ok := budget.ChargeKey(t.spell(Usage));
      r := if ok then Some(Fields(before, t.spell(Usage), Object(usage.value))) else None;
    }

    method CopyIdentified(raw: Raw) returns (r: Option<Fields>)
      requires budget.Now().Valid()
      modifies budget
      ensures Adds(NoFields, Identified(t, raw), r, old(budget.Now()), budget.Now())
    {
      ghost var m := budget.Now();
      var a := CopyObserved(ObjectWord, Field(raw, ObjectWord), NoFields);
      ghost var one, between := Observed(t, ObjectWord, Field(raw, ObjectWord), NoFields), budget.Now();
      r := None;
      if a.Some? { r := CopyOptional(IdWord, Field(raw, IdWord), a.value); }
      AddsThen(NoFields, one, a, m, between, 0, if one.Some? then Optional(t, IdWord, Field(raw, IdWord), one.value)
        else None, r, budget.Now(), 0);
    }

    method CopyTraced(raw: Raw) returns (r: Option<Fields>)
      requires budget.Now().Valid()
      modifies budget
      ensures Adds(NoFields, Traced(t, raw), r, old(budget.Now()), budget.Now())
    {
      ghost var m := budget.Now();
      var a := CopyIdentified(raw);
      ghost var one, between := Identified(t, raw), budget.Now();
      r := None;
      if a.Some? { r := CopyOptional(RequestId, RequestIdOf(raw), a.value); }
      AddsThen(NoFields, one, a, m, between, 0, if one.Some? then Optional(t, RequestId, RequestIdOf(raw), one.value)
        else None, r, budget.Now(), 0);
    }

    method CopyModelled(raw: Raw) returns (r: Option<Fields>)
      requires budget.Now().Valid()
      modifies budget
      ensures Adds(NoFields, Modelled(t, raw), r, old(budget.Now()), budget.Now())
    {
      ghost var m := budget.Now();
      var a := CopyTraced(raw);
      ghost var one, between := Traced(t, raw), budget.Now();
      r := None;
      if a.Some? { r := CopyOptional(ModelWord, Field(raw, ModelWord), a.value); }
      AddsThen(NoFields, one, a, m, between, 0, if one.Some?
        then Optional(t, ModelWord, Field(raw, ModelWord), one.value) else None, r, budget.Now(), 0);
    }

    method CopyHead(raw: Raw) returns (r: Option<Fields>)
      requires budget.Now().Valid()
      modifies budget
      ensures Adds(NoFields, Head(t, raw), r, old(budget.Now()), budget.Now())
    {
      ghost var m := budget.Now();
      var a := CopyModelled(raw);
      ghost var one, between := Modelled(t, raw), budget.Now();
      r := None;
      if a.Some? { r := CopyObserved(Status, Field(raw, Status), a.value); }
      AddsThen(NoFields, one, a, m, between, 0, if one.Some? then Observed(t, Status, Field(raw, Status), one.value)
        else None, r, budget.Now(), 0);
    }

    method CopyBody(raw: Raw) returns (r: Option<Fields>)
      requires budget.Now().Valid()
      modifies budget
      ensures Adds(NoFields, Body(t, raw), r, old(budget.Now()), budget.Now())
    {
      ghost var m := budget.Now();
      var a := CopyHead(raw);
      ghost var one, between := Head(t, raw), budget.Now();
      r := None;
      if a.Some? { r := CopyOutput(raw, a.value); }
      AddsThen(NoFields, one, a, m, between, 0, if one.Some?
        then Elements(t, OutputWord, ItemsOf(t), Field(raw, OutputWord), one.value) else None, r, budget.Now(), 0);
    }

    method CopySettled(raw: Raw) returns (r: Option<Fields>)
      requires budget.Now().Valid()
      modifies budget
      ensures Adds(NoFields, Settled(t, raw), r, old(budget.Now()), budget.Now(), Waste(t, raw))
    {
      ghost var m := budget.Now();
      var a := CopyBody(raw);
      ghost var one, between := Body(t, raw), budget.Now();
      r := None;
      if a.Some? { r := CopyExplained(raw, a.value); }
      AddsThen(NoFields, one, a, m, between, 0, if one.Some? then Explained(t, raw, one.value)
        else None, r, budget.Now(), Waste(t, raw));
    }

    method CopyJudged(raw: Raw) returns (r: Option<Fields>)
      requires budget.Now().Valid()
      modifies budget
      ensures Adds(NoFields, Judged(t, raw), r, old(budget.Now()), budget.Now(), Waste(t, raw))
    {
      ghost var m := budget.Now();
      var a := CopySettled(raw);
      ghost var one, between := Settled(t, raw), budget.Now();
      r := None;
      if a.Some? { r := CopyFlagged(raw, a.value); }
      AddsThen(NoFields, one, a, m, between, Waste(t, raw), if one.Some? then Flagged(t, raw, one.value)
        else None, r, budget.Now(), 0);
    }

    method CopyFields(raw: Raw) returns (r: Option<Fields>)
      requires budget.Now().Valid()
      modifies budget
      ensures Adds(NoFields, AllFields(t, raw), r, old(budget.Now()), budget.Now(), Waste(t, raw))
    {
      ghost var m := budget.Now();
      var a := CopyJudged(raw);
      ghost var one, between := Judged(t, raw), budget.Now();
      r := None;
      if a.Some? { r := CopyUsed(Field(raw, Usage), a.value); }
      AddsThen(NoFields, one, a, m, between, Waste(t, raw), if one.Some? then Used(t, Field(raw, Usage), one.value)
        else None, r, budget.Now(), 0);
    }

    /** All the copies. */
    method CopyResponse(raw: Raw) returns (r: Option<Fields>)
      requires budget.Now().Valid()
      modifies budget
      ensures Makes(Copied(t, raw), r, old(budget.Now()), budget.Now(), Waste(t, raw))
    {
      if raw.Nothing? { return None; }
      ghost var m := budget.Now();
      var ok := budget.ChargeContainer();
      ghost var between := budget.Now();
      r := None;
      if ok { r := CopyFields(raw); }
      Opened(ok, m, between, AllFields(t, raw), r, budget.Now(), Waste(t, raw));
    }

    /** Extraction under a fresh budget gives the whole copy exactly when the budget pays for
        it: the checks after the fact never reject what the copies let through. */
    method Extract(raw: Raw) returns (r: Option<Json>)
      requires budget.Now() == Meter(0, 0)
      modifies budget
      ensures r == Extracted(t, raw)
      ensures r.Some? ==> Nodes(r.value) == budget.items && |Print(r.value)| <= budget.nbytes
      ensures r.Some? ==> WellFormed(t, raw) && r.value.Object?
      ensures r.Some? && Distinct(t) ==> ResponseKept(t, raw, r.value.fields)
      ensures WellFormed(t, raw) ==> Copied(t, raw).Some? && (Affordable(t, Copied(t, raw).value) ==> r.Some?)
    {
      ExtractedMeans(t, raw);
      var fields := CopyResponse(raw);
      if fields.None? { return None; }
      r := Some(Object(fields.value));
      PaidFits(t, raw, budget.Now());
      if !AfterTheFact(r.value) { r := None; }
    }
  }
}
