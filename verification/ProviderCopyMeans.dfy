/** What of a provider's response can be found again in its copy, key by key, and which
    responses are copied at all. */
module ProviderCopyMeans {
  import opened Wrappers
  import opened Utf8
  import opened Json
  import opened ProviderCopy
  import OwnedJson
  import ProviderCopyFits

  /** No two words are spelled alike. */
  predicate Apart(t: Tools, v: Word, w: Word) { v != w ==> t.spell(v) != t.spell(w) }

  ghost predicate Distinct(t: Tools) { forall v, w :: Apart(t, v, w) }

  /** A field, Missing where there is none. */
  function Get(raw: Raw, name: Word): Raw {
    if raw.Record? && name in raw.fields then raw.fields[name] else Missing
  }

  predicate Void(raw: Raw) { raw.Missing? || raw.Nothing? }

  // -------------------------------------------------- which responses are copied

  predicate MayObserve(t: Tools, raw: Raw) { raw.Missing? || Safe(t, raw) }

  predicate BodyOk(raw: Raw) { raw.Words? && AllScalar(raw.text) && |Encode(raw.text)| <= MAX_BYTES }

  /** A text part and a refusal need their text; any other part only a safe type. */
  predicate PartOk(t: Tools, part: Raw) {
    var kind := Get(part, TypeWord);
    && kind.Words?
    && if kind.text == t.spell(OutputText) then BodyOk(Get(part, TextWord))
       else if kind.text == t.spell(Word.Refusal) then BodyOk(Get(part, Word.Refusal))
       else Safe(t, kind)
  }

  predicate ContentOk(t: Tools, raw: Raw) {
    raw.Missing? || (raw.List? && forall i :: 0 <= i < |raw.items| ==> PartOk(t, raw.items[i]))
  }

  predicate ItemOk(t: Tools, item: Raw) {
    var kind := Get(item, TypeWord);
    && Safe(t, kind)
    && (kind.text == t.spell(Message) ==>
          MayObserve(t, Get(item, Status)) && MayObserve(t, Get(item, RoleWord)) && ContentOk(t, Get(item, Content)))
  }

  predicate OutputOk(t: Tools, raw: Raw) {
    raw.Missing? || (raw.List? && forall i :: 0 <= i < |raw.items| ==> ItemOk(t, raw.items[i]))
  }

  predicate TokensOk(raw: Raw) { Void(raw) || (raw.Integer? && 0 <= raw.n <= MAX_USAGE) }

  predicate UsageOk(raw: Raw) {
    && !raw.Hostile? && TokensOk(Get(raw, InputTokens)) && TokensOk(Get(raw, OutputTokens))
    && TokensOk(Get(raw, TotalTokens))
    && !Get(raw, InputDetails).Hostile? && TokensOk(Get(Get(raw, InputDetails), CachedTokens))
    && !Get(raw, OutputDetails).Hostile? && TokensOk(Get(Get(raw, OutputDetails), ReasoningTokens))
  }

  /** The responses that are copied: nothing that is read raises, the discriminator and the
      status are safe where they are there, and output and usage are well formed. */
  predicate WellFormed(t: Tools, raw: Raw) {
    && !raw.Nothing? && !raw.Hostile?
    && MayObserve(t, Get(raw, ObjectWord)) && MayObserve(t, Get(raw, Status))
    && OutputOk(t, Get(raw, OutputWord)) && !Get(raw, IncompleteDetails).Hostile? && UsageOk(Get(raw, Usage))
  }

  lemma PartDefined(t: Tools, part: Raw)
    ensures Part(t, part).Some? <==> PartOk(t, part)
  {
  }

  lemma {:induction false} ListedDefined(one: Raw -> Option<Fields>, items: seq<Raw>, n: nat)
    requires n <= |items|
    ensures Listed(one, items, n).Some? <==> forall i :: 0 <= i < n ==> one(items[i]).Some?
  {
    if n > 0 {
      ListedDefined(one, items, n - 1);
    }
  }

  lemma MessageHeadDefined(t: Tools, item: Raw, before: Fields)
    ensures MessageHead(t, item, before).Some?
            <==> !item.Hostile? && MayObserve(t, Get(item, Status)) && MayObserve(t, Get(item, RoleWord))
  {
  }

  lemma ItemDefined(t: Tools, item: Raw)
    ensures Item(t, item).Some? <==> ItemOk(t, item)
  {
    MessageHeadDefined(t, item, Typed(t, t.spell(Message)));
    var content := Get(item, Content);
    if content.List? {
      ListedDefined(Parts(t), content.items, |content.items|);
      forall part ensures Parts(t)(part).Some? <==> PartOk(t, part) {
        PartDefined(t, part);
      }
    }
  }

  lemma CountDefined(t: Tools, name: Word, usage: Raw, before: Fields)
    ensures Counted(t, name, usage, before).Some? <==> !usage.Hostile? && TokensOk(Get(usage, name))
  {
  }

  lemma CountInDefined(t: Tools, name: Word, usage: Raw, token: Word, before: Fields)
    ensures CountedIn(t, name, usage, token, before).Some?
            <==> !usage.Hostile? && !Get(usage, name).Hostile? && TokensOk(Get(Get(usage, name), token))
  {
    CountReads(Get(usage, name), token);
    assert Field(usage, name) == if usage.Hostile? then None else Some(Get(usage, name));
  }

  lemma CountReads(raw: Raw, token: Word)
    ensures !Count(Field(raw, token)).Unreadable? <==> !raw.Hostile? && TokensOk(Get(raw, token))
    ensures Void(raw) ==> Count(Field(raw, token)).Absent?
  {
  }

  lemma CountsDefined(t: Tools, raw: Raw)
    ensures Counts(t, raw).Some?
            <==> !raw.Hostile? && TokensOk(Get(raw, InputTokens)) && TokensOk(Get(raw, OutputTokens))
                 && TokensOk(Get(raw, TotalTokens))
  {
    CountDefined(t, InputTokens, raw, NoFields);
    var a := Counted(t, InputTokens, raw, NoFields);
    if a.Some? {
      CountDefined(t, OutputTokens, raw, a.value);
      var b := FirstCounts(t, raw);
      if b.Some? {
        CountDefined(t, TotalTokens, raw, b.value);
      }
    }
  }

  lemma UsageDefined(t: Tools, raw: Raw)
    ensures UsageFields(t, raw).Some? <==> UsageOk(raw)
  {
    CountsDefined(t, raw);
    var a := Counts(t, raw);
    if a.Some? {
      CountInDefined(t, InputDetails, raw, CachedTokens, a.value);
      var b := CountsIn(t, raw);
      if b.Some? {
        CountInDefined(t, OutputDetails, raw, ReasoningTokens, b.value);
      }
    }
  }

  lemma HeadDefined(t: Tools, raw: Raw)
    ensures Head(t, raw).Some?
            <==> !raw.Hostile? && MayObserve(t, Get(raw, ObjectWord)) && MayObserve(t, Get(raw, Status))
  {
    assert Identified(t, raw).Some? <==> !raw.Hostile? && MayObserve(t, Get(raw, ObjectWord));
    assert Traced(t, raw).Some? <==> Identified(t, raw).Some?;
    assert Modelled(t, raw).Some? <==> Traced(t, raw).Some?;
  }

  lemma BodyDefined(t: Tools, raw: Raw)
    ensures Body(t, raw).Some? <==> Head(t, raw).Some? && OutputOk(t, Get(raw, OutputWord))
  {
    HeadDefined(t, raw);
    var output := Get(raw, OutputWord);
    if output.List? {
      ListedDefined(ItemsOf(t), output.items, |output.items|);
      forall item ensures ItemsOf(t)(item).Some? <==> ItemOk(t, item) {
        ItemDefined(t, item);
      }
    }
  }

  lemma SettledDefined(t: Tools, raw: Raw)
    ensures Settled(t, raw).Some? <==> Body(t, raw).Some? && !Get(raw, IncompleteDetails).Hostile?
    ensures Body(t, raw).Some? ==> !raw.Hostile?
  {
    HeadDefined(t, raw);
    BodyDefined(t, raw);
    if Body(t, raw).Some? {
      assert Field(raw, IncompleteDetails) == Some(Get(raw, IncompleteDetails));
    }
  }

  /** A response is copied exactly if it is well formed. */
  lemma CopiedDefined(t: Tools, raw: Raw)
    ensures Copied(t, raw).Some? <==> WellFormed(t, raw)
  {
    HeadDefined(t, raw);
    BodyDefined(t, raw);
    UsageDefined(t, Get(raw, Usage));
    SettledDefined(t, raw);
    assert Judged(t, raw).Some? <==> Settled(t, raw).Some?;
  }

  // ------------------------------------------------------------ what is found again

  function Verbatim(raw: Raw): Option<Json> { if raw.Words? then Some(Str(raw.text)) else None }

  function IfSafe(t: Tools, raw: Raw): Option<Json> { if Safe(t, raw) then Verbatim(raw) else None }

  function TokensOf(raw: Raw): Option<Json> {
    if raw.Integer? && 0 <= raw.n then Some(Number(raw.n)) else None
  }

  /** Under a key stands an object with one key, or nothing. */
  ghost predicate Holds(got: Option<Json>, key: Text, value: Option<Json>) {
    if value.None? then got.None?
    else got.Some? && got.value.Object? && OnlyKeys(got.value.fields, {key}) && Lookup(got.value.fields, key) == value
  }

  predicate KindOf(part: Raw, kind: Text) { Get(part, TypeWord) == Words(kind) }

  /** A text part keeps its text under the text key and a refusal its refusal, verbatim. */
  ghost predicate PartKept(t: Tools, part: Raw, copy: Fields) {
    && OnlyKeys(copy, {t.spell(TypeWord), t.spell(TextWord), t.spell(Word.Refusal)})
    && Lookup(copy, t.spell(TypeWord)) == Verbatim(Get(part, TypeWord))
    && Lookup(copy, t.spell(TextWord))
       == (if KindOf(part, t.spell(OutputText)) then Verbatim(Get(part, TextWord)) else None)
    && Lookup(copy, t.spell(Word.Refusal))
       == (if KindOf(part, t.spell(Word.Refusal)) then Verbatim(Get(part, Word.Refusal)) else None)
  }

  ghost predicate PartsKept(t: Tools, parts: seq<Raw>, copies: Items) {
    && Length(copies) == |parts|
    && forall i :: 0 <= i < |parts| ==> At(copies, i).Object? && PartKept(t, parts[i], At(copies, i).fields)
  }

  /** One part after another, where there is a list of them. */
  ghost predicate ContentKept(t: Tools, content: Raw, got: Option<Json>) {
    if !content.List? then got.None?
    else got.Some? && got.value.Array? && PartsKept(t, content.items, got.value.items)
  }

  /** A message keeps its status, its role and its parts; any other item only its type. */
  ghost predicate ItemKept(t: Tools, item: Raw, copy: Fields) {
    var isMessage := KindOf(item, t.spell(Message));
    && OnlyKeys(copy, {t.spell(TypeWord), t.spell(Status), t.spell(RoleWord), t.spell(Content)})
    && Lookup(copy, t.spell(TypeWord)) == Verbatim(Get(item, TypeWord))
    && Lookup(copy, t.spell(Status)) == (if isMessage then Verbatim(Get(item, Status)) else None)
    && Lookup(copy, t.spell(RoleWord)) == (if isMessage then Verbatim(Get(item, RoleWord)) else None)
    && ContentKept(t, if isMessage then Get(item, Content) else Missing, Lookup(copy, t.spell(Content)))
  }

  ghost predicate ItemsKept(t: Tools, items: seq<Raw>, copies: Items) {
    && Length(copies) == |items|
    && forall i :: 0 <= i < |items| ==> At(copies, i).Object? && ItemKept(t, items[i], At(copies, i).fields)
  }

  ghost predicate OutputKept(t: Tools, output: Raw, got: Option<Json>) {
    if !output.List? then got.None?
    else got.Some? && got.value.Array? && ItemsKept(t, output.items, got.value.items)
  }

  ghost predicate CountsKept(t: Tools, usage: Raw, copy: Fields) {
    && Lookup(copy, t.spell(InputTokens)) == TokensOf(Get(usage, InputTokens))
    && Lookup(copy, t.spell(OutputTokens)) == TokensOf(Get(usage, OutputTokens))
    && Lookup(copy, t.spell(TotalTokens)) == TokensOf(Get(usage, TotalTokens))
  }

  function UsageWords(): set<Word> { {InputTokens, OutputTokens, TotalTokens, InputDetails, OutputDetails} }

  function Spelled(t: Tools, words: set<Word>): set<Text> { set w | w in words :: t.spell(w) }

  /** Every count stands under its own name, the detailed ones one level down. */
  ghost predicate UsageKept(t: Tools, usage: Raw, got: Option<Json>) {
    if Void(usage) then got.None?
    else
      && got.Some? && got.value.Object? && OnlyKeys(got.value.fields, Spelled(t, UsageWords()))
      && CountsKept(t, usage, got.value.fields)
      && Holds(Lookup(got.value.fields, t.spell(InputDetails)), t.spell(CachedTokens),
               TokensOf(Get(Get(usage, InputDetails), CachedTokens)))
      && Holds(Lookup(got.value.fields, t.spell(OutputDetails)), t.spell(ReasoningTokens),
               TokensOf(Get(Get(usage, OutputDetails), ReasoningTokens)))
  }

  /** Null without details; otherwise an object with the reason if it is null or safe. */
  ghost predicate DetailsKept(t: Tools, details: Raw, got: Option<Json>) {
    if Void(details) then got == Some(Null)
    else
      && got.Some? && got.value.Object? && OnlyKeys(got.value.fields, {t.spell(Reason)})
      && Lookup(got.value.fields, t.spell(Reason))
         == (if Get(details, Reason).Nothing? then Some(Null) else IfSafe(t, Get(details, Reason)))
  }

  /** The request's name: the field, or the private attribute of an object without it. */
  function RequestNamed(raw: Raw): Raw {
    if Get(raw, RequestId).Missing? && raw.Record? && !raw.isDict then Get(raw, PrivateRequestId)
    else Get(raw, RequestId)
  }

  function ResponseWords(): set<Word> {
    {ObjectWord, IdWord, RequestId, ModelWord, Status, OutputWord, IncompleteDetails, ErrorWord, Usage}
  }

  /** The plain observations, each under its own name. */
  ghost predicate HeadKept(t: Tools, raw: Raw, copy: Fields) {
    && Lookup(copy, t.spell(ObjectWord)) == Verbatim(Get(raw, ObjectWord))
    && Lookup(copy, t.spell(IdWord)) == IfSafe(t, Get(raw, IdWord))
    && Lookup(copy, t.spell(RequestId)) == IfSafe(t, RequestNamed(raw))
    && Lookup(copy, t.spell(ModelWord)) == IfSafe(t, Get(raw, ModelWord))
    && Lookup(copy, t.spell(Status)) == Verbatim(Get(raw, Status))
  }

  /** Everything that is kept of a response stands under its own name, and nothing else. */
  ghost predicate ResponseKept(t: Tools, raw: Raw, copy: Fields) {
    && OnlyKeys(copy, Spelled(t, ResponseWords())) && HeadKept(t, raw, copy)
    && OutputKept(t, Get(raw, OutputWord), Lookup(copy, t.spell(OutputWord)))
    && DetailsKept(t, Get(raw, IncompleteDetails), Lookup(copy, t.spell(IncompleteDetails)))
    && Lookup(copy, t.spell(ErrorWord)) == Some(if Void(Get(raw, ErrorWord)) then Null else Bool(true))
    && UsageKept(t, Get(raw, Usage), Lookup(copy, t.spell(Usage)))
  }

  /** One key more, or none. */
  ghost predicate Puts(before: Fields, after: Fields, key: Text, value: Option<Json>) {
    after == if value.Some? then Fields(before, key, value.value) else before
  }

  lemma PutsHas(before: Fields, after: Fields, key: Text, value: Option<Json>)
    requires Puts(before, after, key, value)
    ensures forall other {:trigger Lookup(after, other)} ::
              Lookup(after, other) == if other == key && value.Some? then value else Lookup(before, other)
    ensures forall keys {:trigger OnlyKeys(after, keys)} ::
              OnlyKeys(before, keys) && key in keys ==> OnlyKeys(after, keys)
  {
  }

  lemma NoneHas(key: Text, keys: set<Text>)
    ensures Lookup(NoFields, key) == None && OnlyKeys(NoFields, keys)
  {
  }

  lemma TypedHas(t: Tools, kind: Text, keys: set<Text>)
    requires t.spell(TypeWord) in keys
    ensures forall key {:trigger Lookup(Typed(t, kind), key)} ::
              Lookup(Typed(t, kind), key) == if key == t.spell(TypeWord) then Some(Str(kind)) else None
    ensures OnlyKeys(Typed(t, kind), keys)
  {
    PutsHas(NoFields, Typed(t, kind), t.spell(TypeWord), Some(Str(kind)));
    forall key ensures Lookup(NoFields, key) == None {
      NoneHas(key, keys);
    }
    NoneHas(kind, keys);
  }

  lemma PartKeeps(t: Tools, part: Raw)
    requires Distinct(t) && Part(t, part).Some?
    ensures PartKept(t, part, Part(t, part).value)
  {
    assert Apart(t, TypeWord, TextWord) && Apart(t, TypeWord, Word.Refusal) && Apart(t, TextWord, Word.Refusal);
    assert Apart(t, OutputText, Word.Refusal);
    var kind := Get(part, TypeWord).text;
    TypedHas(t, kind, {t.spell(TypeWord), t.spell(TextWord), t.spell(Word.Refusal)});
    var name := PartName(t, kind);
    if name.Some? {
      PutsHas(Typed(t, kind), Part(t, part).value, t.spell(name.value), Verbatim(Get(part, name.value)));
    }
  }

  lemma {:induction false} ListedHas(one: Raw -> Option<Fields>, items: seq<Raw>, n: nat)
    requires n <= |items| && Listed(one, items, n).Some?
    ensures var copies := Listed(one, items, n).value;
            && Length(copies) == n
            && forall i :: 0 <= i < n ==> one(items[i]).Some? && At(copies, i) == Object(one(items[i]).value)
  {
    if n > 0 {
      ListedHas(one, items, n - 1);
    }
  }

  lemma PartsKeep(t: Tools, parts: seq<Raw>)
    requires Distinct(t) && Listed(Parts(t), parts, |parts|).Some?
    ensures PartsKept(t, parts, Listed(Parts(t), parts, |parts|).value)
  {
    ListedHas(Parts(t), parts, |parts|);
    forall i | 0 <= i < |parts| ensures PartKept(t, parts[i], Part(t, parts[i]).value) {
      assert Parts(t)(parts[i]).Some?;
      PartKeeps(t, parts[i]);
    }
  }

  lemma ObservedPuts(t: Tools, name: Word, raw: Raw, before: Fields)
    requires !raw.Hostile? && Observed(t, name, Field(raw, name), before).Some?
    ensures Puts(before, Observed(t, name, Field(raw, name), before).value, t.spell(name), Verbatim(Get(raw, name)))
  {
  }

  lemma MessageHeadHas(t: Tools, item: Raw, keys: set<Text>)
    requires Distinct(t) && !item.Hostile? && MessageHead(t, item, Typed(t, t.spell(Message))).Some?
    requires t.spell(TypeWord) in keys && t.spell(Status) in keys && t.spell(RoleWord) in keys
    ensures var head := MessageHead(t, item, Typed(t, t.spell(Message))).value;
            && Lookup(head, t.spell(TypeWord)) == Some(Str(t.spell(Message)))
            && Lookup(head, t.spell(Status)) == Verbatim(Get(item, Status))
            && Lookup(head, t.spell(RoleWord)) == Verbatim(Get(item, RoleWord))
            && Lookup(head, t.spell(Content)) == None && OnlyKeys(head, keys)
  {
    assert Apart(t, TypeWord, Status) && Apart(t, TypeWord, RoleWord) && Apart(t, TypeWord, Content);
    assert Apart(t, Status, RoleWord) && Apart(t, Status, Content) && Apart(t, RoleWord, Content);
    var typed := Typed(t, t.spell(Message));
    TypedHas(t, t.spell(Message), keys);
    ObservedPuts(t, Status, item, typed);
    var one := Observed(t, Status, Field(item, Status), typed).value;
    PutsHas(typed, one, t.spell(Status), Verbatim(Get(item, Status)));
    ObservedPuts(t, RoleWord, item, one);
    PutsHas(one, MessageHead(t, item, typed).value, t.spell(RoleWord), Verbatim(Get(item, RoleWord)));
  }

  lemma ContentKeeps(t: Tools, item: Raw, before: Fields)
    requires Distinct(t) && !item.Hostile? && Lookup(before, t.spell(Content)) == None
    requires Elements(t, Content, Parts(t), Field(item, Content), before).Some?
    ensures var after := Elements(t, Content, Parts(t), Field(item, Content), before).value;
            && ContentKept(t, Get(item, Content), Lookup(after, t.spell(Content)))
            && Puts(before, after, t.spell(Content), Lookup(after, t.spell(Content)))
  {
    var content := Get(item, Content);
    if content.List? {
      PartsKeep(t, content.items);
    }
  }

  lemma MessageKeeps(t: Tools, item: Raw)
    requires Distinct(t) && KindOf(item, t.spell(Message)) && Item(t, item).Some?
    ensures ItemKept(t, item, Item(t, item).value)
  {
    var keys := {t.spell(TypeWord), t.spell(Status), t.spell(RoleWord), t.spell(Content)};
    assert Apart(t, TypeWord, Content) && Apart(t, Status, Content) && Apart(t, RoleWord, Content);
    MessageHeadHas(t, item, keys);
    var head := MessageHead(t, item, Typed(t, t.spell(Message))).value;
    ContentKeeps(t, item, head);
    var after := Item(t, item).value;
    PutsHas(head, after, t.spell(Content), Lookup(after, t.spell(Content)));
  }

  lemma ItemKeeps(t: Tools, item: Raw)
    requires Distinct(t) && Item(t, item).Some?
    ensures ItemKept(t, item, Item(t, item).value)
  {
    if KindOf(item, t.spell(Message)) {
      MessageKeeps(t, item);
    } else {
      assert Apart(t, TypeWord, Status) && Apart(t, TypeWord, RoleWord) && Apart(t, TypeWord, Content);
      TypedHas(t, Get(item, TypeWord).text, {t.spell(TypeWord), t.spell(Status), t.spell(RoleWord), t.spell(Content)});
    }
  }

  lemma ItemsKeep(t: Tools, items: seq<Raw>)
    requires Distinct(t) && Listed(ItemsOf(t), items, |items|).Some?
    ensures ItemsKept(t, items, Listed(ItemsOf(t), items, |items|).value)
  {
    ListedHas(ItemsOf(t), items, |items|);
    forall i | 0 <= i < |items| ensures ItemKept(t, items[i], Item(t, items[i]).value) {
      assert ItemsOf(t)(items[i]).Some?;
      ItemKeeps(t, items[i]);
    }
  }

  // --------------------------------------------------------------------- usage

  lemma CountedPuts(t: Tools, name: Word, usage: Raw, before: Fields)
    requires Counted(t, name, usage, before).Some?
    ensures Puts(before, Counted(t, name, usage, before).value, t.spell(name), TokensOf(Get(usage, name)))
  {
  }

  function Inner(t: Tools, token: Word, tokens: Option<Json>): Option<Json> {
    if tokens.Some? then Some(Object(Fields(NoFields, t.spell(token), tokens.value))) else None
  }

  lemma InnerHolds(t: Tools, token: Word, tokens: Option<Json>)
    ensures Holds(Inner(t, token, tokens), t.spell(token), tokens)
  {
    NoneHas(t.spell(token), {t.spell(token)});
  }

  lemma NestedPuts(t: Tools, name: Word, token: Word, raw: Raw, before: Fields)
    requires !raw.Hostile? && TokensOk(Get(raw, token))
    ensures var r := Nested(t, name, token, Count(Field(raw, token)), before);
            r.Some? && Puts(before, r.value, t.spell(name), Inner(t, token, TokensOf(Get(raw, token))))
  {
  }

  lemma CountedInPuts(t: Tools, name: Word, usage: Raw, token: Word, before: Fields)
    requires CountedIn(t, name, usage, token, before).Some?
    ensures Puts(before, CountedIn(t, name, usage, token, before).value, t.spell(name),
                 Inner(t, token, TokensOf(Get(Get(usage, name), token))))
  {
    CountInDefined(t, name, usage, token, before);
    var details := Get(usage, name);
    if !Void(details) {
      NestedPuts(t, name, token, details, before);
      assert CountedIn(t, name, usage, token, before) == Nested(t, name, token, Count(Field(details, token)), before);
    }
  }

  // ------------------------------------------------------------- keys in order

  /** A key and what is put under it, if anything. */
  type Entry = (Text, Option<Json>)

  function Assembled(entries: seq<Entry>): Fields {
    if entries == [] then NoFields
    else
      var (before, last) := (Assembled(entries[..|entries| - 1]), entries[|entries| - 1]);
      if last.1.Some? then Fields(before, last.0, last.1.value) else before
  }

  lemma AssembledSnoc(entries: seq<Entry>, before: Fields, after: Fields, key: Text, value: Option<Json>)
    requires before == Assembled(entries) && Puts(before, after, key, value)
    ensures after == Assembled(entries + [(key, value)])
  {
    assert (entries + [(key, value)])[..|entries|] == entries;
  }

  predicate KeysDiffer(entries: seq<Entry>) {
    forall i, j :: 0 <= i < j < |entries| ==> entries[i].0 != entries[j].0
  }

  /** Under every key stands what was put there, and there are no other keys. */
  lemma {:induction false} AssembledHas(entries: seq<Entry>, keys: set<Text>)
    requires KeysDiffer(entries) && forall i :: 0 <= i < |entries| ==> entries[i].0 in keys
    ensures forall i :: 0 <= i < |entries| ==> Lookup(Assembled(entries), entries[i].0) == entries[i].1
    ensures forall key :: (forall i :: 0 <= i < |entries| ==> entries[i].0 != key)
                          ==> Lookup(Assembled(entries), key) == None
    ensures OnlyKeys(Assembled(entries), keys)
  {
    if entries == [] {
      NoneHas([], keys);
    } else {
      var init, last := entries[..|entries| - 1], entries[|entries| - 1];
      AssembledHas(init, keys);
      PutsHas(Assembled(init), Assembled(entries), last.0, last.1);
      forall i | 0 <= i < |entries| ensures Lookup(Assembled(entries), entries[i].0) == entries[i].1 {
        if i < |init| {
          assert init[i] == entries[i];
        }
      }
    }
  }

  /** Words that differ are spelled differently. */
  lemma EntriesDiffer(t: Tools, words: seq<Word>, entries: seq<Entry>)
    requires Distinct(t) && |words| == |entries| && forall i :: 0 <= i < |words| ==> entries[i].0 == t.spell(words[i])
    requires forall i, j :: 0 <= i < j < |words| ==> words[i] != words[j]
    ensures KeysDiffer(entries)
  {
    forall i, j | 0 <= i < j < |words| ensures entries[i].0 != entries[j].0 {
      assert Apart(t, words[i], words[j]);
    }
  }

  // --------------------------------------------------------------------- usage

  function CountEntries(t: Tools, raw: Raw): seq<Entry> {
    [(t.spell(InputTokens), TokensOf(Get(raw, InputTokens))), (t.spell(OutputTokens), TokensOf(Get(raw, OutputTokens))),
     (t.spell(TotalTokens), TokensOf(Get(raw, TotalTokens)))]
  }

  function UsageEntries(t: Tools, raw: Raw): seq<Entry> {
    CountEntries(t, raw)
    + [(t.spell(InputDetails), Inner(t, CachedTokens, TokensOf(Get(Get(raw, InputDetails), CachedTokens))))]
    + [(t.spell(OutputDetails), Inner(t, ReasoningTokens, TokensOf(Get(Get(raw, OutputDetails), ReasoningTokens))))]
  }

  lemma CountsAssembled(t: Tools, raw: Raw)
    requires Counts(t, raw).Some?
    ensures Counts(t, raw).value == Assembled(CountEntries(t, raw))
  {
    var es := CountEntries(t, raw);
    var one, two := Counted(t, InputTokens, raw, NoFields).value, FirstCounts(t, raw).value;
    CountedPuts(t, InputTokens, raw, NoFields);
    AssembledSnoc([], NoFields, one, es[0].0, es[0].1);
    CountedPuts(t, OutputTokens, raw, one);
    AssembledSnoc([es[0]], one, two, es[1].0, es[1].1);
    CountedPuts(t, TotalTokens, raw, two);
    AssembledSnoc([es[0], es[1]], two, Counts(t, raw).value, es[2].0, es[2].1);
    assert [] + [es[0]] == [es[0]] && [es[0]] + [es[1]] == [es[0], es[1]] && [es[0], es[1]] + [es[2]] == es;
  }

  lemma UsageAssembled(t: Tools, raw: Raw)
    requires UsageFields(t, raw).Some?
    ensures UsageFields(t, raw).value == Assembled(UsageEntries(t, raw))
  {
    CountsAssembled(t, raw);
    var es := UsageEntries(t, raw);
    CountedInPuts(t, InputDetails, raw, CachedTokens, Counts(t, raw).value);
    AssembledSnoc(CountEntries(t, raw), Counts(t, raw).value, CountsIn(t, raw).value, es[3].0, es[3].1);
    CountedInPuts(t, OutputDetails, raw, ReasoningTokens, CountsIn(t, raw).value);
    AssembledSnoc(es[..4], CountsIn(t, raw).value, UsageFields(t, raw).value, es[4].0, es[4].1);
    assert es[..4] == CountEntries(t, raw) + [es[3]] && es == es[..4] + [es[4]];
  }

  lemma UsageLooks(t: Tools, raw: Raw)
    requires Distinct(t)
    ensures var (copy, es) := (Assembled(UsageEntries(t, raw)), UsageEntries(t, raw));
            && OnlyKeys(copy, Spelled(t, UsageWords())) && |es| == 5
            && forall i :: 0 <= i < 5 ==> Lookup(copy, es[i].0) == es[i].1
  {
    var es := UsageEntries(t, raw);
    EntriesDiffer(t, [InputTokens, OutputTokens, TotalTokens, InputDetails, OutputDetails], es);
    AssembledHas(es, Spelled(t, UsageWords()));
  }

  lemma UsageKeeps(t: Tools, raw: Raw)
    requires Distinct(t) && !Void(raw) && UsageFields(t, raw).Some?
    ensures UsageKept(t, raw, Some(Object(UsageFields(t, raw).value)))
  {
    var es := UsageEntries(t, raw);
    UsageAssembled(t, raw);
    UsageLooks(t, raw);
    assert es[0].0 == t.spell(InputTokens) && es[1].0 == t.spell(OutputTokens) && es[2].0 == t.spell(TotalTokens);
    assert es[3].0 == t.spell(InputDetails) && es[4].0 == t.spell(OutputDetails);
    InnerHolds(t, CachedTokens, TokensOf(Get(Get(raw, InputDetails), CachedTokens)));
    InnerHolds(t, ReasoningTokens, TokensOf(Get(Get(raw, OutputDetails), ReasoningTokens)));
  }

  // ------------------------------------------------------------------ the response

  lemma OptionalPuts(t: Tools, name: Word, raw: Raw, before: Fields)
    ensures Puts(before, Optional(t, name, Some(raw), before).value, t.spell(name), IfSafe(t, raw))
  {
  }

  function HeadEntries(t: Tools, raw: Raw): seq<Entry> {
    [(t.spell(ObjectWord), Verbatim(Get(raw, ObjectWord))), (t.spell(IdWord), IfSafe(t, Get(raw, IdWord))),
     (t.spell(RequestId), IfSafe(t, RequestNamed(raw))), (t.spell(ModelWord), IfSafe(t, Get(raw, ModelWord))),
     (t.spell(Status), Verbatim(Get(raw, Status)))]
  }

  lemma IdentifiedAssembled(t: Tools, raw: Raw)
    requires !raw.Hostile? && Identified(t, raw).Some?
    ensures Identified(t, raw).value == Assembled(HeadEntries(t, raw)[..2])
  {
    var es := HeadEntries(t, raw);
    var a := Observed(t, ObjectWord, Field(raw, ObjectWord), NoFields).value;
    assert [] + [es[0]] == [es[0]] && [es[0]] + [es[1]] == es[..2];
    ObservedPuts(t, ObjectWord, raw, NoFields);
    AssembledSnoc([], NoFields, a, es[0].0, es[0].1);
    OptionalPuts(t, IdWord, Get(raw, IdWord), a);
    AssembledSnoc([es[0]], a, Identified(t, raw).value, es[1].0, es[1].1);
  }

  lemma TracedAssembled(t: Tools, raw: Raw)
    requires !raw.Hostile? && Traced(t, raw).Some?
    ensures Traced(t, raw).value == Assembled(HeadEntries(t, raw)[..3])
  {
    var es := HeadEntries(t, raw);
    IdentifiedAssembled(t, raw);
    assert es[..2] + [es[2]] == es[..3] && RequestIdOf(raw) == Some(RequestNamed(raw));
    OptionalPuts(t, RequestId, RequestNamed(raw), Identified(t, raw).value);
    AssembledSnoc(es[..2], Identified(t, raw).value, Traced(t, raw).value, es[2].0, es[2].1);
  }

  lemma HeadAssembled(t: Tools, raw: Raw)
    requires !raw.Hostile? && Head(t, raw).Some?
    ensures Head(t, raw).value == Assembled(HeadEntries(t, raw))
  {
    var es := HeadEntries(t, raw);
    var c, d := Traced(t, raw).value, Modelled(t, raw).value;
    TracedAssembled(t, raw);
    OptionalPuts(t, ModelWord, Get(raw, ModelWord), c);
    AssembledSnoc(es[..3], c, d, es[3].0, es[3].1);
    assert es[..3] + [es[3]] == es[..4] && es[..4] + [es[4]] == es;
    ObservedPuts(t, Status, raw, d);
    AssembledSnoc(es[..4], d, Head(t, raw).value, es[4].0, es[4].1);
  }

  /** The copied list, the reason, and the usage, as they stand under their keys. */
  function OutputOf(t: Tools, output: Raw): Option<Json> {
    if output.List? then Whole(Listed(ItemsOf(t), output.items, |output.items|)) else None
  }

  function UsageOf(t: Tools, usage: Raw): Option<Json> {
    if !Void(usage) && UsageFields(t, usage).Some? then Some(Object(UsageFields(t, usage).value)) else None
  }

  function ErrorOf(error: Raw): Option<Json> { Some(if Void(error) then Null else Bool(true)) }

  function TailEntries(t: Tools, raw: Raw): seq<Entry> {
    [(t.spell(OutputWord), OutputOf(t, Get(raw, OutputWord))),
     (t.spell(IncompleteDetails), Details(t, Get(raw, IncompleteDetails))),
     (t.spell(ErrorWord), ErrorOf(Get(raw, ErrorWord))), (t.spell(Usage), UsageOf(t, Get(raw, Usage)))]
  }

  function ResponseEntries(t: Tools, raw: Raw): seq<Entry> { HeadEntries(t, raw) + TailEntries(t, raw) }

  lemma BodyPuts(t: Tools, raw: Raw)
    requires !raw.Hostile? && Body(t, raw).Some?
    ensures Puts(Head(t, raw).value, Body(t, raw).value, t.spell(OutputWord), OutputOf(t, Get(raw, OutputWord)))
  {
  }

  lemma SettledPuts(t: Tools, raw: Raw)
    requires !raw.Hostile? && Settled(t, raw).Some?
    ensures Puts(Body(t, raw).value, Settled(t, raw).value, t.spell(IncompleteDetails),
                 Details(t, Get(raw, IncompleteDetails)))
  {
  }

  lemma JudgedPuts(t: Tools, raw: Raw)
    requires !raw.Hostile? && Judged(t, raw).Some?
    ensures Puts(Settled(t, raw).value, Judged(t, raw).value, t.spell(ErrorWord), ErrorOf(Get(raw, ErrorWord)))
  {
  }

  lemma UsedPuts(t: Tools, raw: Raw)
    requires !raw.Hostile? && AllFields(t, raw).Some?
    ensures Puts(Judged(t, raw).value, AllFields(t, raw).value, t.spell(Usage), UsageOf(t, Get(raw, Usage)))
  {
  }

  lemma CopiedAssembled(t: Tools, raw: Raw)
    requires Copied(t, raw).Some?
    ensures Copied(t, raw).value == Assembled(ResponseEntries(t, raw))
  {
    HeadDefined(t, raw);
    HeadAssembled(t, raw);
    var (es, tail) := (HeadEntries(t, raw), TailEntries(t, raw));
    BodyPuts(t, raw);
    AssembledSnoc(es, Head(t, raw).value, Body(t, raw).value, tail[0].0, tail[0].1);
    SettledPuts(t, raw);
    AssembledSnoc(es + [tail[0]], Body(t, raw).value, Settled(t, raw).value, tail[1].0, tail[1].1);
    JudgedPuts(t, raw);
    AssembledSnoc(es + [tail[0]] + [tail[1]], Settled(t, raw).value, Judged(t, raw).value, tail[2].0, tail[2].1);
    UsedPuts(t, raw);
    AssembledSnoc(es + [tail[0]] + [tail[1]] + [tail[2]], Judged(t, raw).value, AllFields(t, raw).value, tail[3].0,
      tail[3].1);
    assert es + [tail[0]] + [tail[1]] + [tail[2]] + [tail[3]] == ResponseEntries(t, raw);
  }

  function ResponseOrder(): seq<Word> {
    [ObjectWord, IdWord, RequestId, ModelWord, Status] + [OutputWord, IncompleteDetails, ErrorWord, Usage]
  }

  lemma ResponseKeys(t: Tools, raw: Raw)
    ensures var es := ResponseEntries(t, raw);
            && |es| == |ResponseOrder()| == 9
            && forall i :: 0 <= i < 9 ==>
                 es[i].0 == t.spell(ResponseOrder()[i]) && ResponseOrder()[i] in ResponseWords()
  {
    var (es, words) := (ResponseEntries(t, raw), ResponseOrder());
    forall i | 0 <= i < 9 ensures es[i].0 == t.spell(words[i]) && words[i] in ResponseWords() {
      if i < 5 {
        assert es[i] == HeadEntries(t, raw)[i];
      } else {
        assert es[i] == TailEntries(t, raw)[i - 5];
      }
    }
  }

  lemma ResponseLooks(t: Tools, raw: Raw)
    requires Distinct(t)
    ensures var (copy, es) := (Assembled(ResponseEntries(t, raw)), ResponseEntries(t, raw));
            && OnlyKeys(copy, Spelled(t, ResponseWords())) && |es| == 9
            && forall i :: 0 <= i < 9 ==> Lookup(copy, es[i].0) == es[i].1
  {
    var es := ResponseEntries(t, raw);
    ResponseKeys(t, raw);
    EntriesDiffer(t, ResponseOrder(), es);
    AssembledHas(es, Spelled(t, ResponseWords()));
  }

  lemma OutputKeeps(t: Tools, raw: Raw)
    requires Distinct(t) && OutputOk(t, raw)
    ensures OutputKept(t, raw, OutputOf(t, raw))
  {
    if raw.List? {
      ListedDefined(ItemsOf(t), raw.items, |raw.items|);
      forall item ensures ItemsOf(t)(item).Some? <==> ItemOk(t, item) {
        ItemDefined(t, item);
      }
      ItemsKeep(t, raw.items);
    }
  }

  lemma DetailsKeep(t: Tools, details: Raw)
    requires !details.Hostile?
    ensures DetailsKept(t, details, Details(t, details))
  {
    NoneHas(t.spell(Reason), {t.spell(Reason)});
  }

  /** Every field of a copied response can be looked up in the copy under its own name. */
  lemma CopiedKeeps(t: Tools, raw: Raw)
    requires Distinct(t) && Copied(t, raw).Some?
    ensures ResponseKept(t, raw, Copied(t, raw).value)
  {
    CopiedDefined(t, raw);
    CopiedAssembled(t, raw);
    ResponseLooks(t, raw);
    OutputKeeps(t, Get(raw, OutputWord));
    DetailsKeep(t, Get(raw, IncompleteDetails));
    UsageDefined(t, Get(raw, Usage));
    if !Void(Get(raw, Usage)) {
      UsageKeeps(t, Get(raw, Usage));
    }
    var es := ResponseEntries(t, raw);
    assert es[0] == HeadEntries(t, raw)[0] && es[1] == HeadEntries(t, raw)[1] && es[2] == HeadEntries(t, raw)[2];
    assert es[3] == HeadEntries(t, raw)[3] && es[4] == HeadEntries(t, raw)[4];
    assert es[5] == TailEntries(t, raw)[0] && es[6] == TailEntries(t, raw)[1];
    assert es[7] == TailEntries(t, raw)[2] && es[8] == TailEntries(t, raw)[3];
  }

  /** One short printable line without a secret marker. */
  ghost predicate PlainLine(t: Tools, v: Json) {
    && v.Str? && t.unmarked(v.text) && 0 < |v.text| && |Encode(v.text)| <= MAX_OBSERVATION
    && forall c :: c in v.text ==> Scalar(c) && c != 127 && !(0 <= c < 32)
  }

  /** Every observation that is kept of a response is one plain line. */
  lemma ObservationsPlain(t: Tools, raw: Raw, name: Word)
    requires Distinct(t) && Copied(t, raw).Some? && name in {ObjectWord, IdWord, RequestId, ModelWord, Status}
    ensures var got := Lookup(Copied(t, raw).value, t.spell(name)); got.Some? ==> PlainLine(t, got.value)
  {
    CopiedDefined(t, raw);
    CopiedKeeps(t, raw);
  }

  /** A copy that any budget pays for: few nodes, and at most half the octets when printed. */
  predicate Affordable(t: Tools, copy: Fields) {
    && Nodes(Object(copy)) <= OwnedJson.MAX_ITEMS
    && 2 * |Print(Object(copy))| + KeyCharge(t.spell(Reason)) <= MAX_BYTES
  }

  lemma WasteBounded(t: Tools, raw: Raw)
    ensures Waste(t, raw) <= KeyCharge(t.spell(Reason))
  {
    var source := Field(raw, IncompleteDetails);
    if source.Some? {
      assert Dropped(t, source.value) <= KeyCharge(t.spell(Reason));
    }
  }

  lemma AffordablePays(t: Tools, raw: Raw)
    requires Copied(t, raw).Some? && Affordable(t, Copied(t, raw).value)
    ensures Extracted(t, raw) == Some(Object(Copied(t, raw).value))
  {
    var v := Object(Copied(t, raw).value);
    WasteBounded(t, raw);
    ProviderCopyFits.ChargeBounded(v);
    assert Nodes(v) == 1 + FieldNodes(Copied(t, raw).value) && Charge(v) == 2 + FieldCharge(Copied(t, raw).value);
  }

  /** What is extracted is well formed and can be looked up in the result, key by key, and a
      well-formed response with an affordable copy is extracted. */
  lemma ExtractedMeans(t: Tools, raw: Raw)
    ensures var r := Extracted(t, raw);
            && (r.Some? ==> WellFormed(t, raw) && r.value.Object?)
            && (r.Some? && Distinct(t) ==> ResponseKept(t, raw, r.value.fields))
    ensures Copied(t, raw).Some? <==> WellFormed(t, raw)
    ensures Copied(t, raw).Some? && Affordable(t, Copied(t, raw).value) ==> Extracted(t, raw).Some?
  {
    CopiedDefined(t, raw);
    if Copied(t, raw).Some? && Distinct(t) {
      CopiedKeeps(t, raw);
    }
    if Copied(t, raw).Some? && Affordable(t, Copied(t, raw).value) {
      AffordablePays(t, raw);
    }
  }
}
