/** JSON values and their canonical text: ASCII only, strings escaped as section 7 of
    RFC 8259 describes, characters beyond the basic plane as a surrogate pair. */
module Json {
  import opened Wrappers
  import opened Utf8
  import RawEvidence

  datatype Json =
    | Null | Bool(value: bool) | Number(n: nat) | Str(text: Text)
    | Array(items: Items) | Object(fields: Fields)

  datatype Items = NoItems | Items(init: Items, last: Json)

  datatype Fields = NoFields | Fields(init: Fields, key: Text, last: Json)

  /** The value of a key; the last one if it is repeated. */
  function Lookup(fields: Fields, key: Text): Option<Json> {
    match fields
    case NoFields => None
    case Fields(init, k, v) => if k == key then Some(v) else Lookup(init, key)
  }

  predicate OnlyKeys(fields: Fields, keys: set<Text>) {
    fields.NoFields? || (OnlyKeys(fields.init, keys) && fields.key in keys)
  }

  function Length(items: Items): nat { if items.NoItems? then 0 else Length(items.init) + 1 }

  function At(items: Items, i: nat): Json
    requires i < Length(items)
  {
    if i == Length(items) - 1 then items.last else At(items.init, i)
  }

  // ---------------------------------------------------------------- escaping

  const QUOTE := 0x22
  const BACKSLASH := 0x5C

  function Hex(d: int): int { if d < 10 then 48 + d else 87 + d }

  /** \\uXXXX */
  function Escaped(v: int): (r: Octets)
    ensures |r| == 6
  {
    [BACKSLASH, 117, Hex(v / 16 / 16 / 16 % 16), Hex(v / 16 / 16 % 16), Hex(v / 16 % 16), Hex(v % 16)]
  }

  /** The letter of a two-character escape. */
  function Short(c: int): Option<int> {
    if c == 0x08 then Some(98) else if c == 0x09 then Some(116) else if c == 0x0A then Some(110)
    else if c == 0x0C then Some(102) else if c == 0x0D then Some(114)
    else if c == QUOTE || c == BACKSLASH then Some(c) else None
  }

  function EscapeOne(c: int): (r: Octets)
    ensures 1 <= |r| <= 12
  {
    if Short(c).Some? then [BACKSLASH, Short(c).value]
    else if 0x20 <= c <= 0x7E then [c]
    else if c < 0x10000 then Escaped(c)
    else Escaped(0xD800 + (c - 0x10000) / 1024) + Escaped(0xDC00 + (c - 0x10000) % 1024)
  }

  /** A text character by character under some code. */
  function Flat(one: int -> Octets, text: Text): Octets {
    if text == [] then [] else one(text[0]) + Flat(one, text[1..])
  }

  function Escape(text: Text): Octets { Flat(EscapeOne, text) }

  lemma {:induction false} FlatSnoc(one: int -> Octets, text: Text, c: int)
    ensures Flat(one, text + [c]) == Flat(one, text) + one(c)
  {
    if text == [] {
      assert [] + [c] == [c] && [c][1..] == [];
      assert Flat(one, [c]) == one(c) + [];
    } else {
      FlatSnoc(one, text[1..], c);
      assert (text + [c])[1..] == text[1..] + [c];
    }
  }

  /** One code word read off the front, whatever follows it. */
  ghost predicate Delimits(one: int -> Octets, read: Octets -> Option<(int, nat)>) {
    forall c, rest :: Scalar(c) ==> one(c) != [] && read(one(c) + rest) == Some((c, |one(c)|))
  }

  /** Under a self-delimiting code a text ends where no code word can be read, and nowhere
      before: the text and what follows it are both determined. */
  lemma {:induction false} FlatStops(one: int -> Octets, read: Octets -> Option<(int, nat)>, x: Text, r: Octets,
    y: Text, s: Octets)
    requires Delimits(one, read) && read(r).None? && read(s).None? && AllScalar(x) && AllScalar(y)
    requires Flat(one, x) + r == Flat(one, y) + s
    ensures x == y && r == s
    decreases |x|
  {
    if x != [] {
      FlatFirst(one, read, x, r);
    }
    if y != [] {
      FlatFirst(one, read, y, s);
    }
    if x != [] && y != [] {
      assert Flat(one, x[1..]) + r == (Flat(one, x) + r)[|one(x[0])|..];
      assert Flat(one, y[1..]) + s == (Flat(one, y) + s)[|one(y[0])|..];
      FlatStops(one, read, x[1..], r, y[1..], s);
      assert x == [x[0]] + x[1..] && y == [y[0]] + y[1..];
    } else {
      assert [] + r == r && [] + s == s;
    }
  }

  lemma FlatFirst(one: int -> Octets, read: Octets -> Option<(int, nat)>, x: Text, r: Octets)
    requires Delimits(one, read) && x != [] && AllScalar(x)
    ensures Flat(one, x) + r == one(x[0]) + (Flat(one, x[1..]) + r)
    ensures read(Flat(one, x) + r) == Some((x[0], |one(x[0])|))
  {
    assert Flat(one, x) + r == one(x[0]) + (Flat(one, x[1..]) + r);
  }

  /** The size of one character's escape, as the extraction budget counts it. */
  function Cost(c: int): nat {
    if c in {0x08, 0x09, 0x0A, 0x0C, 0x0D, 0x22, 0x5C} then 2
    else if c < 0x20 then 6
    else if c <= 0x7E then 1
    else if c < 0x10000 then 6
    else 12
  }

  /** The size of a string's body is counted character by character without building it. */
  method BodyBytes(text: Text) returns (size: nat)
    ensures size == |Escape(text)|
  {
    size := 0;
    for i := 0 to |text|
      invariant size == |Escape(text[..i])|
    {
      FlatSnoc(EscapeOne, text[..i], text[i]);
      assert text[..i + 1] == text[..i] + [text[i]];
      size := size + Cost(text[i]);
    }
    assert text[..|text|] == text;
  }

  // ------------------------------------------------------------ reading it back

  function Digit(d: int): Option<int> {
    if 48 <= d <= 57 then Some(d - 48) else if 97 <= d <= 102 then Some(d - 87) else None
  }

  /** The value of \\uXXXX at the front. */
  function Unit(b: Octets): Option<int> {
    if |b| < 6 || b[0] != BACKSLASH || b[1] != 117 then None
    else
      var (p, q, r, s) := (Digit(b[2]), Digit(b[3]), Digit(b[4]), Digit(b[5]));
      if p.None? || q.None? || r.None? || s.None? then None
      else Some(((p.value * 16 + q.value) * 16 + r.value) * 16 + s.value)
  }

  function Long(letter: int): Option<int> {
    if letter == 98 then Some(0x08) else if letter == 116 then Some(0x09) else if letter == 110 then Some(0x0A)
    else if letter == 102 then Some(0x0C) else if letter == 114 then Some(0x0D)
    else if letter == QUOTE || letter == BACKSLASH then Some(letter) else None
  }

  /** The first character of an escaped body and the octets it takes. */
  function UnescapeOne(b: Octets): Option<(int, nat)> {
    if b == [] then None
    else if b[0] != BACKSLASH then if 0x20 <= b[0] <= 0x7E && b[0] != QUOTE then Some((b[0], 1)) else None
    else if |b| >= 2 && Long(b[1]).Some? then Some((Long(b[1]).value, 2))
    else
      var high := Unit(b);
      if high.None? || 0xDC00 <= high.value <= 0xDFFF then None
      else if high.value < 0xD800 || 0xDFFF < high.value then Some((high.value, 6))
      else
        var low := Unit(b[6..]);
        if low.None? || !(0xDC00 <= low.value <= 0xDFFF) then None
        else Some((0x10000 + (high.value - 0xD800) * 1024 + (low.value - 0xDC00), 12))
  }

  lemma DigitHex(d: int)
    requires 0 <= d < 16
    ensures Digit(Hex(d)) == Some(d)
  {
  }

  lemma UnitEscaped(v: int, rest: Octets)
    requires 0 <= v < 0x10000
    ensures Unit(Escaped(v) + rest) == Some(v)
  {
    var b := Escaped(v) + rest;
    assert b[0] == BACKSLASH && b[1] == 117;
    var (p, q, r) := (v / 16, v / 16 / 16, v / 16 / 16 / 16);
    assert b[2] == Hex(r % 16) && b[3] == Hex(q % 16) && b[4] == Hex(p % 16) && b[5] == Hex(v % 16);
    DigitHex(r % 16);
    DigitHex(q % 16);
    DigitHex(p % 16);
    DigitHex(v % 16);
    assert r < 16;
  }

  lemma UnescapeUnit(c: int, rest: Octets)
    requires Scalar(c) && c < 0x10000 && EscapeOne(c) == Escaped(c)
    ensures UnescapeOne(EscapeOne(c) + rest) == Some((c, 6))
  {
    UnitEscaped(c, rest);
    assert (Escaped(c) + rest)[0] == BACKSLASH && (Escaped(c) + rest)[1] == 117;
  }

  lemma UnescapePair(high: int, low: int, rest: Octets)
    requires 0xD800 <= high < 0xDC00 && 0xDC00 <= low < 0xE000
    ensures UnescapeOne(Escaped(high) + Escaped(low)
            + rest) == Some((0x10000 + (high - 0xD800) * 1024 + (low - 0xDC00), 12))
  {
    var tail := Escaped(low) + rest;
    var b := Escaped(high) + tail;
    assert Escaped(high) + Escaped(low) + rest == b;
    UnitEscaped(high, tail);
    UnitEscaped(low, rest);
    assert b[6..] == tail && b[0] == BACKSLASH && b[1] == 117;
  }

  /** Escaping loses nothing: every scalar value reads back, whatever follows it. */
  lemma UnescapeInverts(c: int, rest: Octets)
    requires Scalar(c)
    ensures UnescapeOne(EscapeOne(c) + rest) == Some((c, |EscapeOne(c)|))
  {
    if Short(c).Some? {
      assert EscapeOne(c) + rest == [BACKSLASH, Short(c).value] + rest;
    } else if 0x20 <= c <= 0x7E {
      assert EscapeOne(c) + rest == [c] + rest;
    } else if c < 0x10000 {
      UnescapeUnit(c, rest);
    } else {
      UnescapePair(0xD800 + (c - 0x10000) / 1024, 0xDC00 + (c - 0x10000) % 1024, rest);
    }
  }

  lemma EscapeDelimits()
    ensures Delimits(EscapeOne, UnescapeOne)
  {
    var one: int -> Octets, read: Octets -> Option<(int, nat)> := EscapeOne, UnescapeOne;
    forall c: int, rest: Octets | Scalar(c) ensures one(c) != [] && read(one(c) + rest) == Some((c, |one(c)|)) {
      UnescapeInverts(c, rest);
      assert one(c) == EscapeOne(c) && read(one(c) + rest) == UnescapeOne(EscapeOne(c) + rest);
    }
    assert Delimits(one, read);
  }

  // ---------------------------------------------------------------- printing

  function PrintString(text: Text): Octets { [QUOTE] + Escape(text) + [QUOTE] }

  function Print(v: Json): (r: Octets)
    ensures r != []
  {
    match v
    case Null => [110, 117, 108, 108]
    case Bool(b) => if b then [116, 114, 117, 101] else [102, 97, 108, 115, 101]
    case Number(n) => RawEvidence.Print(n)
    case Str(text) => PrintString(text)
    case Array(items) => [91] + PrintItems(items) + [93]
    case Object(fields) => [123] + PrintFields(fields) + [125]
  }

  function PrintItems(items: Items): Octets {
    match items
    case NoItems => []
    case Items(init, last) => PrintItems(init) + (if init.NoItems? then [] else [44]) + Print(last)
  }

  function PrintFields(fields: Fields): Octets {
    match fields
    case NoFields => []
    case Fields(init, key, last) =>
      PrintFields(init) + (if init.NoFields? then [] else [44]) + PrintString(key) + [58] + Print(last)
  }

  lemma {:induction false} FlatAscii(text: Text)
    ensures RawEvidence.Ascii(Escape(text))
  {
    if text != [] {
      FlatAscii(text[1..]);
    }
  }

  /** Canonical text is ASCII, whatever the strings in it. */
  lemma {:induction false} PrintAscii(v: Json)
    ensures RawEvidence.Ascii(Print(v))
  {
    match v
    case Number(n) => RawEvidence.ParsePrint(n);
    case Str(text) =>
      FlatAscii(text);
      Enclosed(QUOTE, Escape(text), QUOTE);
    case Array(items) =>
      ItemsAscii(items);
      Enclosed(91, PrintItems(items), 93);
    case Object(fields) =>
      FieldsAscii(fields);
      Enclosed(123, PrintFields(fields), 125);
    case _ =>
  }

  lemma Enclosed(opening: int, b: Octets, closing: int)
    requires RawEvidence.Ascii(b) && 0 <= opening < 0x80 && 0 <= closing < 0x80
    ensures RawEvidence.Ascii([opening] + b + [closing])
  {
  }

  lemma {:induction false} ItemsAscii(items: Items)
    ensures RawEvidence.Ascii(PrintItems(items))
  {
    if items.Items? {
      ItemsAscii(items.init);
      PrintAscii(items.last);
    }
  }

  lemma {:induction false} FieldsAscii(fields: Fields)
    ensures RawEvidence.Ascii(PrintFields(fields))
  {
    if fields.Fields? {
      FieldsAscii(fields.init);
      FlatAscii(fields.key);
      PrintAscii(fields.last);
      var sep: Octets := if fields.init.NoFields? then [] else [44];
      RawEvidence.AsciiConcat(PrintFields(fields.init), sep);
      RawEvidence.AsciiConcat(PrintFields(fields.init) + sep, PrintString(fields.key));
      RawEvidence.AsciiConcat(PrintFields(fields.init) + sep + PrintString(fields.key), [58]);
      RawEvidence.AsciiConcat(PrintFields(fields.init) + sep + PrintString(fields.key) + [58], Print(fields.last));
    }
  }

  // ------------------------------------------------------------------ measures

  function Nodes(v: Json): nat {
    match v
    case Array(items) => 1 + ItemNodes(items)
    case Object(fields) => 1 + FieldNodes(fields)
    case _ => 1
  }

  function ItemNodes(items: Items): nat {
    match items
    case NoItems => 0
    case Items(init, last) => ItemNodes(init) + Nodes(last)
  }

  function FieldNodes(fields: Fields): nat {
    match fields
    case NoFields => 0
    case Fields(init, _, last) => FieldNodes(init) + Nodes(last)
  }

  /** How deep the value nests; a leaf has depth 0. */
  function Depth(v: Json): nat {
    match v
    case Array(items) => ItemDepth(items)
    case Object(fields) => FieldDepth(fields)
    case _ => 0
  }

  function Max(a: nat, b: nat): nat { if a < b then b else a }

  function ItemDepth(items: Items): nat {
    match items
    case NoItems => 0
    case Items(init, last) => Max(ItemDepth(init), 1 + Depth(last))
  }

  function FieldDepth(fields: Fields): nat {
    match fields
    case NoFields => 0
    case Fields(init, _, last) => Max(FieldDepth(init), 1 + Depth(last))
  }
}
