/** What the budget took dominates what is checked after the fact: the printed size, the
    node count and the depth. */
module ProviderCopyFits {
  import opened Wrappers
  import opened Utf8
  import opened Json
  import opened ProviderCopy

  /** Lists hold objects, and every object in a list has a field. */
  predicate Tidy(v: Json) {
    match v
    case Array(items) => TidyItems(items)
    case Object(fields) => TidyFields(fields)
    case _ => true
  }

  predicate TidyItems(items: Items) {
    match items
    case NoItems => true
    case Items(init, last) => TidyItems(init) && last.Object? && last.fields.Fields? && TidyFields(last.fields)
  }

  predicate TidyFields(fields: Fields) {
    match fields
    case NoFields => true
    case Fields(init, _, last) => TidyFields(init) && Tidy(last)
  }

  /** The comma that an object with fields is charged and does not print is what pays for
      the comma behind it when it stands in a list. */
  lemma {:induction false} ChargeCovers(v: Json)
    requires Tidy(v)
    ensures |Print(v)| + (if v.Object? && v.fields.Fields? then 1 else 0) <= Charge(v)
  {
    match v
    case Array(items) => ItemsCovered(items);
    case Object(fields) => FieldsCovered(fields);
    case _ =>
  }

  lemma {:induction false} ItemsCovered(items: Items)
    requires TidyItems(items)
    ensures |PrintItems(items)| + (if items.Items? then 1 else 0) <= ItemCharge(items)
  {
    if items.Items? {
      ItemsCovered(items.init);
      ChargeCovers(items.last);
    }
  }

  lemma {:induction false} FieldsCovered(fields: Fields)
    requires TidyFields(fields)
    ensures |PrintFields(fields)| + (if fields.Fields? then 1 else 0) <= FieldCharge(fields)
  {
    if fields.Fields? {
      FieldsCovered(fields.init);
      ChargeCovers(fields.last);
    }
  }

  lemma {:induction false} EscapeLonger(text: Text)
    ensures |Encode(text)| <= |Escape(text)|
  {
    if text != [] {
      EscapeLonger(text[1..]);
    }
  }

  /** The charge is never more than twice what is printed. */
  lemma {:induction false} ChargeBounded(v: Json)
    ensures Charge(v) <= 2 * |Print(v)|
  {
    match v
    case Array(items) => ItemsBounded(items);
    case Object(fields) => FieldsBounded(fields);
    case Str(text) => EscapeLonger(text);
    case _ =>
  }

  lemma {:induction false} ItemsBounded(items: Items)
    ensures ItemCharge(items) <= 2 * |PrintItems(items)|
  {
    if items.Items? {
      ItemsBounded(items.init);
      ChargeBounded(items.last);
    }
  }

  lemma {:induction false} FieldsBounded(fields: Fields)
    ensures FieldCharge(fields) <= 2 * |PrintFields(fields)|
  {
    if fields.Fields? {
      FieldsBounded(fields.init);
      ChargeBounded(fields.last);
      EscapeLonger(fields.key);
    }
  }

  // ------------------------------------------------------------ the copy's shape

  ghost predicate Shaped(fields: Fields, depth: nat) { TidyFields(fields) && FieldDepth(fields) <= depth }

  /** Objects that can stand in a list. */
  ghost predicate Filled(one: Raw -> Option<Fields>, depth: nat) {
    forall x :: one(x).Some? ==> one(x).value.Fields? && Shaped(one(x).value, depth)
  }

  lemma AddShaped(before: Fields, key: Text, v: Json, depth: nat)
    requires Shaped(before, depth) && Tidy(v) && Depth(v) < depth
    ensures Shaped(Fields(before, key, v), depth)
  {
  }

  lemma TextShaped(before: Fields, key: Text, text: Text, depth: nat)
    requires Shaped(before, depth) && 0 < depth
    ensures Shaped(Fields(before, key, Str(text)), depth)
  {
    assert Tidy(Str(text)) && Depth(Str(text)) == 0;
  }

  lemma TypedShaped(t: Tools, itemType: Text)
    ensures Typed(t, itemType).Fields? && Shaped(Typed(t, itemType), 1)
  {
    assert Shaped(NoFields, 1);
    TextShaped(NoFields, t.spell(TypeWord), itemType, 1);
  }

  lemma PartShaped(t: Tools, part: Raw)
    ensures Part(t, part).Some? ==> Part(t, part).value.Fields? && Shaped(Part(t, part).value, 1)
  {
    if Part(t, part).Some? {
      var partType := Field(part, TypeWord).value.text;
      TypedShaped(t, partType);
      var name := PartName(t, partType);
      if name.Some? {
        TextShaped(Typed(t, partType), t.spell(name.value), Field(part, name.value).value.text, 1);
      }
    }
  }

  lemma {:induction false} ListedShaped(one: Raw -> Option<Fields>, items: seq<Raw>, n: nat, depth: nat)
    requires n <= |items| && Filled(one, depth)
    ensures Listed(one, items, n).Some?
            ==> TidyItems(Listed(one, items, n).value) && ItemDepth(Listed(one, items, n).value) <= depth + 1
  {
    if n > 0 {
      ListedShaped(one, items, n - 1, depth);
    }
  }

  lemma ElementsShaped(t: Tools, name: Word, one: Raw -> Option<Fields>, raw: Option<Raw>, before: Fields, depth: nat)
    requires Filled(one, depth) && Shaped(before, depth + 2)
    ensures var r := Elements(t, name, one, raw, before);
            r.Some? ==> Shaped(r.value, depth + 2) && (before.Fields? ==> r.value.Fields?)
  {
    if raw.Some? && raw.value.List? {
      ListedShaped(one, raw.value.items, |raw.value.items|, depth);
    }
  }

  lemma ObservedShaped(t: Tools, name: Word, raw: Option<Raw>, before: Fields, depth: nat)
    requires Shaped(before, depth) && 0 < depth
    ensures var r := Observed(t, name, raw, before);
            r.Some? ==> Shaped(r.value, depth) && (before.Fields? ==> r.value.Fields?)
    ensures var r := Optional(t, name, raw, before);
            r.Some? ==> Shaped(r.value, depth) && (before.Fields? ==> r.value.Fields?)
  {
    if raw.Some? && raw.value.Words? {
      TextShaped(before, t.spell(name), raw.value.text, depth);
    }
  }

  lemma MessageHeadShaped(t: Tools, item: Raw, before: Fields)
    requires before.Fields? && Shaped(before, 3)
    ensures var r := MessageHead(t, item, before); r.Some? ==> r.value.Fields? && Shaped(r.value, 3)
  {
    ObservedShaped(t, Status, Field(item, Status), before, 3);
    var a := Observed(t, Status, Field(item, Status), before);
    if a.Some? {
      ObservedShaped(t, RoleWord, Field(item, RoleWord), a.value, 3);
    }
  }

  lemma MessageShaped(t: Tools, item: Raw)
    ensures MessageFields(t, item).Some?
            ==> MessageFields(t, item).value.Fields? && Shaped(MessageFields(t, item).value, 3)
  {
    var typed := Typed(t, t.spell(Message));
    TypedShaped(t, t.spell(Message));
    MessageHeadShaped(t, item, typed);
    var head := MessageHead(t, item, typed);
    if head.Some? {
      forall x ensures Parts(t)(x).Some? ==> Parts(t)(x).value.Fields? && Shaped(Parts(t)(x).value, 1) {
        PartShaped(t, x);
      }
      ElementsShaped(t, Content, Parts(t), Field(item, Content), head.value, 1);
    }
  }

  lemma ItemShaped(t: Tools, item: Raw)
    ensures Item(t, item).Some? ==> Item(t, item).value.Fields? && Shaped(Item(t, item).value, 3)
  {
    MessageShaped(t, item);
    if Item(t, item).Some? {
      TypedShaped(t, Field(item, TypeWord).value.text);
    }
  }

  lemma TracedShaped(t: Tools, raw: Raw)
    ensures Traced(t, raw).Some? ==> Shaped(Traced(t, raw).value, 5)
  {
    assert Shaped(NoFields, 5);
    ObservedShaped(t, ObjectWord, Field(raw, ObjectWord), NoFields, 5);
    var a := Observed(t, ObjectWord, Field(raw, ObjectWord), NoFields);
    if a.Some? {
      ObservedShaped(t, IdWord, Field(raw, IdWord), a.value, 5);
      var b := Optional(t, IdWord, Field(raw, IdWord), a.value);
      if b.Some? {
        ObservedShaped(t, RequestId, RequestIdOf(raw), b.value, 5);
      }
    }
  }

  lemma HeadShaped(t: Tools, raw: Raw)
    ensures Head(t, raw).Some? ==> Shaped(Head(t, raw).value, 5)
  {
    TracedShaped(t, raw);
    var a := Traced(t, raw);
    if a.Some? {
      ObservedShaped(t, ModelWord, Field(raw, ModelWord), a.value, 5);
      var b := Modelled(t, raw);
      if b.Some? {
        ObservedShaped(t, Status, Field(raw, Status), b.value, 5);
      }
    }
  }

  lemma BodyShaped(t: Tools, raw: Raw)
    ensures Body(t, raw).Some? ==> Shaped(Body(t, raw).value, 5)
  {
    HeadShaped(t, raw);
    if Head(t, raw).Some? {
      forall x ensures ItemsOf(t)(x).Some? ==> ItemsOf(t)(x).value.Fields? && Shaped(ItemsOf(t)(x).value, 3) {
        ItemShaped(t, x);
      }
      ElementsShaped(t, OutputWord, ItemsOf(t), Field(raw, OutputWord), Head(t, raw).value, 3);
    }
  }

  lemma DetailsShaped(t: Tools, raw: Raw)
    ensures Details(t, raw).Some? ==> Tidy(Details(t, raw).value) && Depth(Details(t, raw).value) <= 1
  {
    var reason := Field(raw, Reason);
    assert Shaped(NoFields, 1);
    ObservedShaped(t, Reason, reason, NoFields, 1);
    assert Tidy(Null) && Depth(Null) == 0;
    AddShaped(NoFields, t.spell(Reason), Null, 1);
  }

  lemma JudgedShaped(t: Tools, raw: Raw)
    ensures Judged(t, raw).Some? ==> Shaped(Judged(t, raw).value, 5)
  {
    if Judged(t, raw).Some? {
      BodyShaped(t, raw);
      var source, error := Field(raw, IncompleteDetails).value, Field(raw, ErrorWord).value;
      DetailsShaped(t, source);
      AddShaped(Body(t, raw).value, t.spell(IncompleteDetails), Details(t, source).value, 5);
      assert Tidy(Presence(error)) && Depth(Presence(error)) == 0;
      AddShaped(Settled(t, raw).value, t.spell(ErrorWord), Presence(error), 5);
    }
  }

  lemma CountedShaped(t: Tools, name: Word, usage: Raw, before: Fields)
    requires Shaped(before, 2)
    ensures Counted(t, name, usage, before).Some? ==> Shaped(Counted(t, name, usage, before).value, 2)
  {
  }

  lemma CountedInShaped(t: Tools, name: Word, usage: Raw, token: Word, before: Fields)
    requires Shaped(before, 2)
    ensures var r := CountedIn(t, name, usage, token, before); r.Some? ==> Shaped(r.value, 2)
  {
    var details := Field(usage, name);
    if details.Some? {
      NestedShaped(t, name, token, Count(Field(details.value, token)), before);
    }
  }

  lemma NestedShaped(t: Tools, name: Word, token: Word, count: Tally, before: Fields)
    requires Shaped(before, 2)
    ensures Nested(t, name, token, count, before).Some? ==> Shaped(Nested(t, name, token, count, before).value, 2)
  {
    if count.Tokens? {
      var inner := Fields(NoFields, t.spell(token), Number(count.n));
      SingleShaped(before, t.spell(name), inner);
    }
  }

  lemma SingleShaped(before: Fields, name: Text, inner: Fields)
    requires Shaped(before, 2) && inner.Fields? && inner.init.NoFields? && inner.last.Number?
    ensures Shaped(Fields(before, name, Object(inner)), 2)
  {
    assert Shaped(NoFields, 1) && Tidy(inner.last) && Depth(inner.last) == 0;
    AddShaped(NoFields, inner.key, inner.last, 1);
    AddShaped(before, name, Object(inner), 2);
  }

  lemma CountsShaped(t: Tools, raw: Raw)
    ensures Counts(t, raw).Some? ==> Shaped(Counts(t, raw).value, 2)
  {
    assert Shaped(NoFields, 2);
    CountedShaped(t, InputTokens, raw, NoFields);
    var a := Counted(t, InputTokens, raw, NoFields);
    if a.Some? {
      CountedShaped(t, OutputTokens, raw, a.value);
      var b := FirstCounts(t, raw);
      if b.Some? {
        CountedShaped(t, TotalTokens, raw, b.value);
      }
    }
  }

  lemma UsageShaped(t: Tools, raw: Raw)
    ensures UsageFields(t, raw).Some? ==> Shaped(UsageFields(t, raw).value, 2)
  {
    CountsShaped(t, raw);
    var a := Counts(t, raw);
    if a.Some? {
      CountedInShaped(t, InputDetails, raw, CachedTokens, a.value);
      var b := CountsIn(t, raw);
      if b.Some? {
        CountedInShaped(t, OutputDetails, raw, ReasoningTokens, b.value);
      }
    }
  }

  lemma CopiedShaped(t: Tools, raw: Raw)
    ensures Copied(t, raw).Some? ==> Shaped(Copied(t, raw).value, 5)
  {
    if Copied(t, raw).Some? {
      JudgedShaped(t, raw);
      var usage := Field(raw, Usage).value;
      UsageShaped(t, usage);
      if !usage.Missing? && !usage.Nothing? {
        AddShaped(Judged(t, raw).value, t.spell(Usage), Object(UsageFields(t, usage).value), 5);
      }
    }
  }

  /** What is copied prints within what it is charged, and nests within the bound. */
  lemma CopiedFits(t: Tools, raw: Raw)
    requires Copied(t, raw).Some?
    ensures var v := Object(Copied(t, raw).value); |Print(v)| <= Charge(v) && Depth(v) <= 5
  {
    CopiedShaped(t, raw);
    ChargeCovers(Object(Copied(t, raw).value));
  }

  const KEPT := {ObjectWord, IdWord, RequestId, PrivateRequestId, ModelWord, Status, OutputWord, IncompleteDetails,
    Usage}

  /** Nothing outside the known fields is kept, and of an error only that there was one. */
  lemma OnlyKnownFields(t: Tools, a: map<Word, Raw>, b: map<Word, Raw>, isDict: bool)
    requires forall w :: w in KEPT ==> Field(Record(a, isDict), w) == Field(Record(b, isDict), w)
    requires Presence(Field(Record(a, isDict), ErrorWord).value) == Presence(Field(Record(b, isDict), ErrorWord).value)
    ensures Copied(t, Record(a, isDict)) == Copied(t, Record(b, isDict))
  {
    var x, y := Record(a, isDict), Record(b, isDict);
    assert RequestIdOf(x) == RequestIdOf(y);
    assert Traced(t, x) == Traced(t, y);
    assert Head(t, x) == Head(t, y);
    assert Body(t, x) == Body(t, y);
    assert Settled(t, x) == Settled(t, y);
  }
}
