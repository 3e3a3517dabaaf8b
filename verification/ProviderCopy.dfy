/** What is kept of a provider's response, as a function of the response alone, and what the
    extraction budget takes for it. */
module ProviderCopy {
  import opened Wrappers
  import opened Utf8
  import opened Json
  import RawEvidence
  import opened OwnedJson

  const MAX_OBSERVATION := 256
  const MAX_USAGE := 0x1F_FFFF_FFFF_FFFF
  const MAX_BYTES := 1_000_000

  /** The field names and type names the copies know. */
  datatype Word =
    | ObjectWord | IdWord | RequestId | PrivateRequestId | ModelWord | Status | OutputWord | IncompleteDetails
    | ErrorWord | Usage
    | TypeWord | OutputText | TextWord | Refusal | Message | RoleWord | Content | Reason
    | InputTokens | OutputTokens | TotalTokens | InputDetails | CachedTokens | OutputDetails | ReasoningTokens

  type Spelling = f: Word -> Text | forall w :: AllScalar(f(w)) witness Unspelled

  function Unspelled(w: Word): Text { [] }

  /** `unmarked` recognises text without a secret marker. */
  datatype Tools = Tools(unmarked: Text -> bool, spell: Spelling)

  /** What the provider's objects may hold; Hostile raises when a field is read. */
  datatype Raw =
    | Missing | Nothing | Flag | Integer(n: int) | Words(text: Text) | List(items: seq<Raw>)
    | Record(fields: map<Word, Raw>, isDict: bool) | Hostile | Unknown

  /** A field, Missing where there is none; None where reading raises. */
  function Field(raw: Raw, name: Word): Option<Raw> {
    match raw
    case Hostile => None
    case Record(fields, _) => if name in fields then Some(fields[name]) else Some(Missing)
    case _ => Some(Missing)
  }

  /** A short single-line observation without control characters or secret markers. */
  predicate Safe(t: Tools, raw: Raw) {
    && raw.Words? && 0 < |raw.text| <= MAX_OBSERVATION && AllScalar(raw.text) && |Encode(raw.text)| <= MAX_OBSERVATION
    && (forall i :: 0 <= i < |raw.text| ==> 32 <= raw.text[i] && raw.text[i] != 127)
    && t.unmarked(raw.text)
  }

  // -------------------------------------------------------------- charges

  function TextCharge(text: Text): nat { 2 + Max(|Escape(text)|, 2 * |Encode(text)|) }

  /** What the budget takes for a value: no commas, but two octets more for every key than
      its text, of which one is the colon. */
  function Charge(v: Json): nat {
    match v
    case Null => 4
    case Bool(_) => 5
    case Number(n) => |RawEvidence.Print(n)|
    case Str(text) => TextCharge(text)
    case Array(items) => 2 + ItemCharge(items)
    case Object(fields) => 2 + FieldCharge(fields)
  }

  function ItemCharge(items: Items): nat {
    match items
    case NoItems => 0
    case Items(init, last) => ItemCharge(init) + Charge(last)
  }

  /** An object with one field. */
  lemma SingleCosts(key: Text, v: Json)
    ensures var one := Fields(NoFields, key, v);
            && FieldNodes(one) == Nodes(v) && FieldCharge(one) == KeyCharge(key) + Charge(v)
            && Nodes(Object(one)) == 1 + Nodes(v) && Charge(Object(one)) == 2 + KeyCharge(key) + Charge(v)
  {
    assert FieldNodes(NoFields) == 0 && FieldCharge(NoFields) == 0;
  }

  function KeyCharge(key: Text): nat { 2 + TextCharge(key) }

  function FieldCharge(fields: Fields): nat {
    match fields
    case NoFields => 0
    case Fields(init, key, last) => FieldCharge(init) + KeyCharge(key) + Charge(last)
  }

  /** Fields added behind others. */
  ghost predicate Grows(before: Fields, after: Fields) {
    FieldNodes(before) <= FieldNodes(after) && FieldCharge(before) <= FieldCharge(after)
  }

  // ------------------------------------------------------------ what is copied

  /** A field that must be safe if it is there. */
  function Observed(t: Tools, name: Word, raw: Option<Raw>, before: Fields): (r: Option<Fields>)
    ensures r.Some? ==> Grows(before, r.value)
  {
    if raw.None? then None
    else if raw.value.Missing? then Some(before)
    else if Safe(t, raw.value) then Some(Fields(before, t.spell(name), Str(raw.value.text)))
    else None
  }

  /** A field that is left out where it is not safe. */
  function Optional(t: Tools, name: Word, raw: Option<Raw>, before: Fields): (r: Option<Fields>)
    ensures r.Some? ==> Grows(before, r.value)
  {
    if raw.None? then None
    else if Safe(t, raw.value) then Some(Fields(before, t.spell(name), Str(raw.value.text)))
    else Some(before)
  }

  function Typed(t: Tools, itemType: Text): Fields { Fields(NoFields, t.spell(TypeWord), Str(itemType)) }

  function Part(t: Tools, part: Raw): Option<Fields>
  {
    var partType := Field(part, TypeWord);
    if partType.None? || !partType.value.Words? then None
    else
      var name := PartName(t, partType.value.text);
      if name.None? then if Safe(t, partType.value) then Some(Typed(t, partType.value.text)) else None
      else
        var text := Field(part, name.value);
        if text.None? || !text.value.Words? || !AllScalar(text.value.text)
          || MAX_BYTES < |Encode(text.value.text)| then None
        else Some(Fields(Typed(t, partType.value.text), t.spell(name.value), Str(text.value.text)))
  }

  /** The field that carries a part's text, by the part's type. */
  function PartName(t: Tools, partType: Text): Option<Word> {
    if partType == t.spell(OutputText) then Some(TextWord) else if partType == t.spell(Refusal) then Some(Refusal)
      else None
  }

  /** The first `n` elements of a list, each copied as an object. */
  function Listed(one: Raw -> Option<Fields>, items: seq<Raw>, n: nat): Option<Items>
    requires n <= |items|
  {
    if n == 0 then Some(NoItems)
    else
      var init, last := Listed(one, items, n - 1), one(items[n - 1]);
      if init.None? || last.None? then None else Some(Items(init.value, Object(last.value)))
  }

  /** A longer prefix holds and costs at least as much. */
  lemma {:induction false} ListedGrows(one: Raw -> Option<Fields>, items: seq<Raw>, m: nat, n: nat)
    requires m <= n <= |items|
    ensures var a, b := Listed(one, items, m), Listed(one, items, n);
            b.Some? ==>
                a.Some? && ItemNodes(a.value) + (n - m) <= ItemNodes(b.value)
                  && ItemCharge(a.value) <= ItemCharge(b.value)
  {
    if m < n {
      ListedGrows(one, items, m, n - 1);
    }
  }

  function Parts(t: Tools): Raw -> Option<Fields> { part => Part(t, part) }

  /** The elements of a list field, under its name. */
  function Elements(t: Tools, name: Word, one: Raw -> Option<Fields>, raw: Option<Raw>,
    before: Fields): (r: Option<Fields>)
    ensures r.Some? ==> Grows(before, r.value)
  {
    if raw.None? then None
    else if raw.value.Missing? then Some(before)
    else if !raw.value.List? then None
    else
      var list := Listed(one, raw.value.items, |raw.value.items|);
      if list.None? then None else Some(Fields(before, t.spell(name), Array(list.value)))
  }

  function MessageHead(t: Tools, item: Raw, before: Fields): (r: Option<Fields>)
    ensures r.Some? ==> Grows(before, r.value)
  {
    var a := Observed(t, Status, Field(item, Status), before);
    if a.None? then None else Observed(t, RoleWord, Field(item, RoleWord), a.value)
  }

  function MessageBody(t: Tools, item: Raw, before: Fields): (r: Option<Fields>)
    ensures r.Some? ==> Grows(before, r.value)
  {
    var a := MessageHead(t, item, before);
    if a.None? then None else Elements(t, Content, Parts(t), Field(item, Content), a.value)
  }

  function MessageFields(t: Tools, item: Raw): Option<Fields> { MessageBody(t, item, Typed(t, t.spell(Message))) }

  function Item(t: Tools, item: Raw): Option<Fields>
  {
    var itemType := Field(item, TypeWord);
    if itemType.None? || !Safe(t, itemType.value) then None
    else if itemType.value.text == t.spell(Message) then MessageFields(t, item)
    else Some(Typed(t, itemType.value.text))
  }

  function ItemsOf(t: Tools): Raw -> Option<Fields> { item => Item(t, item) }

  /** Why the response is incomplete: an unsafe reason is dropped after its key was paid. */
  function Details(t: Tools, raw: Raw): Option<Json> {
    if raw.Missing? || raw.Nothing? then Some(Null)
    else
      var reason := Cause(t, Field(raw, Reason));
      if reason.None? then None else Some(Object(reason.value))
  }

  function Cause(t: Tools, reason: Option<Raw>): Option<Fields> {
    if reason.None? then None
    else if reason.value.Nothing? then Some(Fields(NoFields, t.spell(Reason), Null))
    else Optional(t, Reason, reason, NoFields)
  }

  /** What the budget takes for a reason that is then dropped. */
  function Dropped(t: Tools, raw: Raw): nat { if raw.Missing?
    || raw.Nothing? then 0 else Unsafe(t, Field(raw, Reason)) }

  function Unsafe(t: Tools, reason: Option<Raw>): nat {
    if reason.None? || reason.value.Missing? || reason.value.Nothing? || Safe(t, reason.value) then 0
    else KeyCharge(t.spell(Reason))
  }

  /** Whether there was an error, and nothing else about it. */
  function Presence(raw: Raw): Json { if raw.Missing? || raw.Nothing? then Null else Bool(true) }

  /** A token count read from a field. */
  datatype Tally = Unreadable | Absent | Tokens(n: nat)

  function Count(raw: Option<Raw>): Tally {
    if raw.None? then Unreadable
    else if raw.value.Missing? || raw.value.Nothing? then Absent
    else if raw.value.Integer? && 0 <= raw.value.n <= MAX_USAGE then Tokens(raw.value.n) else Unreadable
  }

  function Counted(t: Tools, name: Word, usage: Raw, before: Fields): (r: Option<Fields>)
    ensures r.Some? ==> Grows(before, r.value)
  {
    var count := Count(Field(usage, name));
    if count.Unreadable? then None
    else if count.Absent? then Some(before)
    else Some(Fields(before, t.spell(name), Number(count.n)))
  }

  /** A count one level down, left out together with the object that would hold it. */
  function CountedIn(t: Tools, name: Word, usage: Raw, token: Word, before: Fields): (r: Option<Fields>)
    ensures r.Some? ==> Grows(before, r.value)
  {
    var details := Field(usage, name);
    if details.None? then None
    else if details.value.Missing? || details.value.Nothing? then Some(before)
    else Nested(t, name, token, Count(Field(details.value, token)), before)
  }

  function Nested(t: Tools, name: Word, token: Word, count: Tally, before: Fields): (r: Option<Fields>)
    ensures r.Some? ==> Grows(before, r.value)
  {
    if count.Unreadable? then None
    else if count.Absent? then Some(before)
    else Some(Fields(before, t.spell(name), Object(Fields(NoFields, t.spell(token), Number(count.n)))))
  }

  function FirstCounts(t: Tools, raw: Raw): (r: Option<Fields>)
    ensures r.Some? ==> Grows(NoFields, r.value)
  {
    var a := Counted(t, InputTokens, raw, NoFields);
    if a.None? then None else Counted(t, OutputTokens, raw, a.value)
  }

  function Counts(t: Tools, raw: Raw): (r: Option<Fields>)
    ensures r.Some? ==> Grows(NoFields, r.value)
  {
    var a := FirstCounts(t, raw);
    if a.None? then None else Counted(t, TotalTokens, raw, a.value)
  }

  function UsageFields(t: Tools, raw: Raw): (r: Option<Fields>)
    ensures r.Some? ==> Grows(NoFields, r.value)
  {
    var a := CountsIn(t, raw);
    if a.None? then None else CountedIn(t, OutputDetails, raw, ReasoningTokens, a.value)
  }

  function CountsIn(t: Tools, raw: Raw): (r: Option<Fields>)
    ensures r.Some? ==> Grows(NoFields, r.value)
  {
    var a := Counts(t, raw);
    if a.None? then None else CountedIn(t, InputDetails, raw, CachedTokens, a.value)
  }

  function Used(t: Tools, raw: Option<Raw>, before: Fields): (r: Option<Fields>)
    ensures r.Some? ==> Grows(before, r.value)
  {
    if raw.None? then None
    else if raw.value.Missing? || raw.value.Nothing? then Some(before)
    else
      var usage := UsageFields(t, raw.value);
      if usage.None? then None else Some(Fields(before, t.spell(Usage), Object(usage.value)))
  }

  /** Falls back on the private attribute of anything but a dict. */
  function RequestIdOf(raw: Raw): Option<Raw> {
    var value := Field(raw, RequestId);
    if value == Some(Missing) && !(raw.Record? && raw.isDict) then Field(raw, PrivateRequestId) else value
  }

  function Identified(t: Tools, raw: Raw): (r: Option<Fields>)
    ensures r.Some? ==> Grows(NoFields, r.value)
  {
    var a := Observed(t, ObjectWord, Field(raw, ObjectWord), NoFields);
    if a.None? then None else Optional(t, IdWord, Field(raw, IdWord), a.value)
  }

  function Traced(t: Tools, raw: Raw): (r: Option<Fields>)
    ensures r.Some? ==> Grows(NoFields, r.value)
  {
    var a := Identified(t, raw);
    if a.None? then None else Optional(t, RequestId, RequestIdOf(raw), a.value)
  }

  function Modelled(t: Tools, raw: Raw): (r: Option<Fields>)
    ensures r.Some? ==> Grows(NoFields, r.value)
  {
    var a := Traced(t, raw);
    if a.None? then None else Optional(t, ModelWord, Field(raw, ModelWord), a.value)
  }

  function Head(t: Tools, raw: Raw): (r: Option<Fields>)
    ensures r.Some? ==> Grows(NoFields, r.value)
  {
    var a := Modelled(t, raw);
    if a.None? then None else Observed(t, Status, Field(raw, Status), a.value)
  }

  function Explained(t: Tools, raw: Raw, before: Fields): (r: Option<Fields>)
    ensures r.Some? ==> Grows(before, r.value)
  {
    var source := Field(raw, IncompleteDetails);
    var details := if source.None? then None else Details(t, source.value);
    if details.None? then None else Some(Fields(before, t.spell(IncompleteDetails), details.value))
  }

  function Flagged(t: Tools, raw: Raw, before: Fields): (r: Option<Fields>)
    ensures r.Some? ==> Grows(before, r.value)
  {
    var error := Field(raw, ErrorWord);
    if error.None? then None else Some(Fields(before, t.spell(ErrorWord), Presence(error.value)))
  }

  function Body(t: Tools, raw: Raw): (r: Option<Fields>)
    ensures r.Some? ==> Grows(NoFields, r.value)
  {
    var head := Head(t, raw);
    if head.None? then None
    else Elements(t, OutputWord, ItemsOf(t), Field(raw, OutputWord), head.value)
  }

  /** Incomplete details and error presence are always there. */
  function Settled(t: Tools, raw: Raw): (r: Option<Fields>)
    ensures r.Some? ==> Grows(NoFields, r.value)
  {
    var a := Body(t, raw);
    if a.None? then None else Explained(t, raw, a.value)
  }

  function Judged(t: Tools, raw: Raw): (r: Option<Fields>)
    ensures r.Some? ==> Grows(NoFields, r.value)
  {
    var a := Settled(t, raw);
    if a.None? then None else Flagged(t, raw, a.value)
  }

  function AllFields(t: Tools, raw: Raw): (r: Option<Fields>)
    ensures r.Some? ==> Grows(NoFields, r.value)
  {
    var a := Judged(t, raw);
    if a.None? then None else Used(t, Field(raw, Usage), a.value)
  }

  /** Everything that is kept of a response. */
  function Copied(t: Tools, raw: Raw): Option<Fields> { if raw.Nothing? then None else AllFields(t, raw) }

  function Waste(t: Tools, raw: Raw): nat {
    var source := Field(raw, IncompleteDetails);
    if source.None? then 0 else Dropped(t, source.value)
  }

  /** Room for `n` more nodes and `size` more octets. */
  predicate Within(items: nat, nbytes: nat, n: nat, size: nat) { items + n <= MAX_ITEMS && nbytes + size <= MAX_BYTES }

  /** A finished list as a value. */
  function Whole(items: Option<Items>): Option<Json> { if items.Some? then Some(Array(items.value)) else None }

  /** Extraction: the whole copy where a fresh budget pays for it, nothing otherwise. */
  function Extracted(t: Tools, raw: Raw): Option<Json> {
    var fields := Copied(t, raw);
    if fields.Some? && Within(0, 0, 1 + FieldNodes(fields.value), 2 + FieldCharge(fields.value) + Waste(t, raw))
    then Some(Object(fields.value)) else None
  }
}
