/** UTF-8 as section 3 of RFC 3629 defines it, and the longest prefix that fits a byte
    budget, found by cutting bytes and stripping until what is left decodes. */
module Utf8 {
  import opened Wrappers

  /** Code points, and octets. */
  type Text = seq<int>
  type Octets = seq<int>

  /** Surrogates are code points of a string but have no encoding. */
  predicate Scalar(c: int) { 0 <= c < 0xD800 || 0xE000 <= c <= 0x10FFFF }

  predicate AllScalar(text: Text) { forall i :: 0 <= i < |text| ==> Scalar(text[i]) }

  function TailOf(c: int): int { 0x80 + c % 64 }

  function EncodeOne(c: int): (r: Octets)
    ensures 1 <= |r| <= 4
  {
    var (q, p, o) := (c / 64, c / 64 / 64, c / 64 / 64 / 64);
    if c < 0x80 then [c]
    else if c < 0x800 then [0xC0 + q, TailOf(c)]
    else if c < 0x10000 then [0xE0 + p, TailOf(q), TailOf(c)]
    else [0xF0 + o, TailOf(p), TailOf(q), TailOf(c)]
  }

  function Encode(text: Text): Octets {
    if text == [] then [] else EncodeOne(text[0]) + Encode(text[1..])
  }

  predicate Tail(b: int) { 0x80 <= b <= 0xBF }

  /** The first character of some octets and its length, by the grammar of section 4. */
  function DecodeFirst(b: Octets): Option<(int, nat)> {
    if |b| >= 1 && 0 <= b[0] < 0x80 then Some((b[0], 1))
    else if |b| >= 2 && 0xC2 <= b[0] <= 0xDF && Tail(b[1]) then Some(((b[0] - 0xC0) * 64 + (b[1] - 0x80), 2))
    else if |b| >= 3 && 0xE0 <= b[0] <= 0xEF && Tail(b[1]) && Tail(b[2])
            && (b[0] == 0xE0 ==> 0xA0 <= b[1]) && (b[0] == 0xED ==> b[1] <= 0x9F)
      then Some((((b[0] - 0xE0) * 64 + (b[1] - 0x80)) * 64 + (b[2] - 0x80), 3))
    else if |b| >= 4 && 0xF0 <= b[0] <= 0xF4 && Tail(b[1]) && Tail(b[2]) && Tail(b[3])
            && (b[0] == 0xF0 ==> 0x90 <= b[1]) && (b[0] == 0xF4 ==> b[1] <= 0x8F)
      then Some(((((b[0] - 0xF0) * 64 + (b[1] - 0x80)) * 64 + (b[2] - 0x80)) * 64 + (b[3] - 0x80), 4))
    else None
  }

  function Decode(b: Octets): Option<Text>
    decreases |b|
  {
    if b == [] then Some([])
    else
      var first := DecodeFirst(b);
      if first.None? || first.value.1 == 0 || first.value.1 > |b| then None
      else
        var rest := Decode(b[first.value.1..]);
        if rest.None? then None else Some([first.value.0] + rest.value)
  }

  lemma EncodeOneDecodes(c: int, rest: Octets)
    requires Scalar(c)
    ensures DecodeFirst(EncodeOne(c) + rest) == Some((c, |EncodeOne(c)|))
  {
    var b, q, p := EncodeOne(c) + rest, c / 64, c / 64 / 64;
    if c < 0x80 {
      assert b[0] == c;
    } else if c < 0x800 {
      assert b[0] == 0xC0 + q && b[1] == TailOf(c);
    } else if c < 0x10000 {
      assert b[0] == 0xE0 + p && b[1] == TailOf(q) && b[2] == TailOf(c);
    } else {
      assert b[0] == 0xF0 + p / 64 && b[1] == TailOf(p) && b[2] == TailOf(q) && b[3] == TailOf(c);
    }
  }

  lemma DecodeFirstEncodes(b: Octets)
    ensures var r := DecodeFirst(b);
            r.Some? ==> Scalar(r.value.0) && 1 <= r.value.1 <= |b| && EncodeOne(r.value.0) == b[..r.value.1]
  {
    var r := DecodeFirst(b);
    if r.Some? {
      var c, n := r.value.0, r.value.1;
      var q, p := c / 64, c / 64 / 64;
      if n == 2 {
        assert q == b[0] - 0xC0;
      } else if n == 3 {
        assert q == (b[0] - 0xE0) * 64 + (b[1] - 0x80);
        assert p == b[0] - 0xE0;
      } else if n == 4 {
        assert q == ((b[0] - 0xF0) * 64 + (b[1] - 0x80)) * 64 + (b[2] - 0x80);
        assert p == (b[0] - 0xF0) * 64 + (b[1] - 0x80);
        assert p / 64 == b[0] - 0xF0;
      }
    }
  }

  lemma {:induction false} DecodeInverts(text: Text)
    requires AllScalar(text)
    ensures Decode(Encode(text)) == Some(text)
  {
    if text != [] {
      var rest := Encode(text[1..]);
      EncodeOneDecodes(text[0], rest);
      DecodeInverts(text[1..]);
      assert Encode(text)[|EncodeOne(text[0])|..] == rest;
      assert [text[0]] + text[1..] == text;
    }
  }

  lemma EncodeCons(c: int, rest: Text)
    ensures Encode([c] + rest) == EncodeOne(c) + Encode(rest)
  {
    assert ([c] + rest)[1..] == rest;
  }

  lemma DecodeRest(b: Octets)
    requires b != [] && Decode(b).Some?
    ensures DecodeFirst(b).Some? && 1 <= DecodeFirst(b).value.1 <= |b| && Decode(b[DecodeFirst(b).value.1..]).Some?
    ensures Decode(b).value == [DecodeFirst(b).value.0] + Decode(b[DecodeFirst(b).value.1..]).value
  {
  }

  lemma SplitAt<T>(b: seq<T>, n: nat)
    requires n <= |b|
    ensures b == b[..n] + b[n..]
  {
  }

  lemma {:induction false} EncodeInverts(b: Octets)
    ensures Decode(b).Some? ==> AllScalar(Decode(b).value) && Encode(Decode(b).value) == b
    decreases |b|
  {
    if b != [] && Decode(b).Some? {
      var (c, n) := DecodeFirst(b).value;
      DecodeFirstEncodes(b);
      DecodeRest(b);
      EncodeInverts(b[n..]);
      EncodeCons(c, Decode(b[n..]).value);
      SplitAt(b, n);
    }
  }

  lemma {:induction false} EncodeConcat(a: Text, b: Text)
    ensures Encode(a + b) == Encode(a) + Encode(b)
  {
    if a == [] {
      assert a + b == b;
    } else {
      assert (a + b)[1..] == a[1..] + b;
      EncodeConcat(a[1..], b);
    }
  }

  lemma TailAfter(a: Octets, b: Octets)
    ensures (a + b)[|a|..] == b
  {
  }

  /** The first character and what follows it are determined by the octets. */
  lemma FirstSame(u: int, tail: Octets, rest: Octets, t: int, all: Octets)
    requires Scalar(u) && Scalar(t) && (EncodeOne(u) + tail) + rest == EncodeOne(t) + all
    ensures u == t && all == tail + rest
  {
    assert (EncodeOne(u) + tail) + rest == EncodeOne(u) + (tail + rest);
    EncodeOneDecodes(u, tail + rest);
    EncodeOneDecodes(t, all);
    TailAfter(EncodeOne(u), tail + rest);
    TailAfter(EncodeOne(t), all);
  }

  /** No encoding is cut into another: a text whose encoding starts another's is a prefix. */
  lemma {:induction false} EncodePrefix(u: Text, t: Text)
    requires AllScalar(u) && AllScalar(t) && Encode(u) <= Encode(t)
    ensures u <= t
  {
    if u != [] {
      assert t != [];
      var rest := Encode(t)[|Encode(u)|..];
      FirstSame(u[0], Encode(u[1..]), rest, t[0], Encode(t[1..]));
      EncodePrefix(u[1..], t[1..]);
    }
  }

  // ------------------------------------------------- the longest fitting prefix

  /** How many leading characters fit into `max` octets. */
  function Fitting(text: Text, max: nat): (n: nat)
    ensures n <= |text|
  {
    if text == [] || max < |EncodeOne(text[0])| then 0 else 1 + Fitting(text[1..], max - |EncodeOne(text[0])|)
  }

  lemma {:induction false} FittingIsLongest(text: Text, max: nat)
    ensures var n := Fitting(text, max);
            && |Encode(text[..n])| <= max
            && (n < |text| ==> max < |Encode(text[..n])| + |EncodeOne(text[n])|)
            && Encode(text[..n]) <= Encode(text)
  {
    var n := Fitting(text, max);
    EncodeConcat(text[..n], text[n..]);
    SplitAt(text, n);
    if n == 0 {
      assert text[..0] == [];
    } else {
      var first := EncodeOne(text[0]);
      FittingIsLongest(text[1..], max - |first|);
      assert text[..n] == [text[0]] + text[1..][..n - 1];
      EncodeCons(text[0], text[1..][..n - 1]);
      assert n < |text| ==> text[1..][n - 1] == text[n];
    }
  }

  /** Among the cuts of an encoding only those between characters decode. */
  lemma CutDecodes(text: Text, n: nat, max: nat)
    requires AllScalar(text) && |Encode(text[..Fitting(text, max)])| <= n <= max && n <= |Encode(text)|
    ensures Decode(Encode(text)[..n]) == if n == |Encode(text[..Fitting(text, max)])|
            then Some(text[..Fitting(text, max)]) else None
  {
    var k := Fitting(text, max);
    var cut := Encode(text)[..n];
    FittingIsLongest(text, max);
    if n == |Encode(text[..k])| {
      assert cut == Encode(text[..k]);
      DecodeInverts(text[..k]);
    } else if Decode(cut).Some? {
      EncodeInverts(cut);
      var u := Decode(cut).value;
      EncodePrefix(u, text);
      assert u == text[..|u|];
      FittingBound(text, |u|, max);
      EncodeMonotone(text, |u|, k);
    }
  }

  lemma EncodeMonotone(text: Text, m: nat, n: nat)
    requires m <= n <= |text|
    ensures |Encode(text[..m])| <= |Encode(text[..n])|
  {
    EncodeConcat(text[..m], text[m..n]);
    assert text[..m] + text[m..n] == text[..n];
  }

  lemma {:induction false} FittingBound(text: Text, n: nat, max: nat)
    requires n <= |text| && |Encode(text[..n])| <= max
    ensures n <= Fitting(text, max)
  {
    if n > 0 {
      assert text[..n] == [text[0]] + text[1..][..n - 1];
      EncodeCons(text[0], text[1..][..n - 1]);
      FittingBound(text[1..], n - 1, max - |EncodeOne(text[0])|);
    }
  }

  /** Cut at the budget, then strip octets until the rest decodes: never more than three,
      and what remains is the longest prefix of whole characters that fits. */
  method TruncatePrefix(text: Text, max: nat) returns (prefix: Text, observed: nat, truncated: bool)
    requires AllScalar(text)
    ensures observed == |Encode(text)| && (truncated <==> max < observed)
    ensures prefix == if truncated then text[..Fitting(text, max)] else text
    ensures |Encode(prefix)| <= max && (truncated ==> max <= |Encode(prefix)| + 3)
  {
    var data := Encode(text);
    observed := |data|;
    if observed <= max {
      return text, observed, false;
    }
    truncated := true;
    FittingIsLongest(text, max);
    ghost var k := Fitting(text, max);
    assert text[..|text|] == text;
    var n := max;
    while n > 0
      invariant |Encode(text[..k])| <= n <= max
    {
      CutDecodes(text, n, max);
      var decoded := Decode(data[..n]);
      if decoded.Some? {
        prefix := decoded.value;
        return;
      }
      n := n - 1;
    }
    CutDecodes(text, 0, max);
    prefix := [];
    assert Decode(data[..0]) == Some([]);
  }
}
