/** Bounded raw evidence: the writer keeps the persisted form within a byte limit, and an
    independent classifier and verifier read the form back from the bytes alone. */
module RawEvidence {
  import opened Wrappers
  import opened Utf8

  const FULL_CLOSE: Octets := [93, 10]

  predicate Ascii(b: Octets) { forall i :: 0 <= i < |b| ==> 0 <= b[i] < 0x80 }

  /** How a full marker opens, up to its digits, and the minimal marker. */
  datatype Markers = Markers(opening: Octets, minimal: Octets)
  {
    predicate Apart() {
      && Ascii(opening) && Ascii(minimal)
      && |opening| > 1 && |minimal| > 1 && opening[1] != minimal[1]
    }
  }

  /** "[m1-raw-evidence: truncated observed_bytes=" and "[truncated]\n", in pieces. */
  function Word0(): Octets { [91, 109, 49, 45, 114, 97, 119, 45] }
  function Word1(): Octets { [101, 118, 105, 100, 101, 110, 99, 101, 58, 32] }
  function Word2(): Octets { [116, 114, 117, 110, 99, 97, 116, 101, 100, 32] }
  function Word3(): Octets { [111, 98, 115, 101, 114, 118, 101, 100, 95] }
  function Word4(): Octets { [98, 121, 116, 101, 115, 61] }

  function M1(): Markers {
    Markers(Word0() + (Word1() + (Word2() + (Word3() + Word4()))),
      [91, 116, 114, 117, 110, 99, 97, 116, 101, 100, 93, 10])
  }

  function Chars(s: string): Octets { seq(|s|, i requires 0 <= i < |s| => s[i] as int) }

  lemma WordsSpelled()
    ensures Word0() == Chars("[m1-raw-") && Word1() == Chars("evidence: ") && Word2() == Chars("truncated ")
    ensures Word3() == Chars("observed_") && Word4() == Chars("bytes=")
  {
  }

  lemma CharsConcat(a: string, b: string)
    ensures Chars(a + b) == Chars(a) + Chars(b)
  {
  }

  /** The markers and the closing, spelled out. */
  lemma M1Spelled()
    ensures M1().opening == Chars("[m1-raw-" + ("evidence: " + ("truncated " + ("observed_" + "bytes="))))
    ensures M1().minimal == Chars("[truncated]\n") && FULL_CLOSE == Chars("]\n")
  {
    WordsSpelled();
    CharsConcat("observed_", "bytes=");
    CharsConcat("truncated ", "observed_" + "bytes=");
    CharsConcat("evidence: ", "truncated " + ("observed_" + "bytes="));
    CharsConcat("[m1-raw-", "evidence: " + ("truncated " + ("observed_" + "bytes=")));
  }

  lemma AsciiConcat(a: Octets, b: Octets)
    requires Ascii(a) && Ascii(b)
    ensures Ascii(a + b)
  {
  }

  lemma M1Apart()
    ensures M1().Apart()
  {
    AsciiConcat(Word3(), Word4());
    AsciiConcat(Word2(), Word3() + Word4());
    AsciiConcat(Word1(), Word2() + (Word3() + Word4()));
    AsciiConcat(Word0(), Word1() + (Word2() + (Word3() + Word4())));
    assert M1().opening[1] == Word0()[1] == 109 && M1().minimal[1] == 116;
  }

  // ------------------------------------------------------------------ decimals

  function Print(n: nat): (r: Octets)
    ensures r != []
  {
    if n < 10 then [48 + n] else Print(n / 10) + [48 + n % 10]
  }

  predicate Digits(b: Octets) { forall i :: 0 <= i < |b| ==> 48 <= b[i] <= 57 }

  function Parse(b: Octets): nat
    requires Digits(b)
  {
    if b == [] then 0 else Parse(b[..|b| - 1]) * 10 + (b[|b| - 1] - 48)
  }

  lemma {:induction false} ParsePrint(n: nat)
    ensures Digits(Print(n)) && Print(n) != [] && Parse(Print(n)) == n
  {
    if n >= 10 {
      ParsePrint(n / 10);
      assert Print(n)[..|Print(n)| - 1] == Print(n / 10);
    }
  }

  // -------------------------------------------------------------- the classifier

  datatype Form = Full(observed: nat) | Minimal | ClippedMinimal | Untruncated

  function LeadingDigits(b: Octets): (n: nat)
    ensures n <= |b| && Digits(b[..n]) && (n < |b| ==> !(48 <= b[n] <= 57))
  {
    if b == [] || !(48 <= b[0] <= 57) then 0 else 1 + LeadingDigits(b[1..])
  }

  /** The decimal digits of a marker that starts with `opening`, if there is one. */
  function MarkerDigits(opening: Octets, b: Octets): (r: Octets)
    ensures Digits(r)
  {
    var rest := if opening <= b then b[|opening|..] else [];
    var n := LeadingDigits(rest);
    if FULL_CLOSE <= rest[n..] then rest[..n] else []
  }

  function Classify(m: Markers, b: Octets): Form {
    var digits := MarkerDigits(m.opening, b);
    if digits != [] then Full(Parse(digits))
    else if m.minimal <= b then Minimal
    else if 0 < |b| < |m.minimal| && b == m.minimal[..|b|] then ClippedMinimal
    else Untruncated
  }

  /** Reads as a full marker: opening, at least one digit, closing, any payload. */
  ghost predicate Shaped(opening: Octets, b: Octets) {
    exists digits: Octets, payload: Octets ::
      digits != [] && Digits(digits) && b == opening + (digits + (FULL_CLOSE + payload))
  }

  ghost predicate MarkerShaped(m: Markers, b: Octets) {
    Shaped(m.opening, b) || m.minimal <= b || (b != [] && b <= m.minimal)
  }

  lemma {:induction false} LeadingDigitsUnique(b: Octets, n: nat)
    requires n <= |b| && Digits(b[..n]) && (n < |b| ==> !(48 <= b[n] <= 57))
    ensures LeadingDigits(b) == n
  {
    if n > 0 {
      assert b[0] == b[..n][0];
      assert b[1..][..n - 1] == b[..n][1..];
      LeadingDigitsUnique(b[1..], n - 1);
    }
  }

  lemma MarkerRead(opening: Octets, digits: Octets, payload: Octets)
    requires Digits(digits)
    ensures MarkerDigits(opening, opening + (digits + (FULL_CLOSE + payload))) == digits
  {
    var tail := FULL_CLOSE + payload;
    var rest := digits + tail;
    assert (opening + rest)[|opening|..] == rest;
    assert rest[..|digits|] == digits && rest[|digits|..] == tail && rest[|digits|] == 93;
    LeadingDigitsUnique(rest, |digits|);
  }

  lemma Strip(prefix: Octets, b: Octets)
    requires prefix <= b
    ensures b == prefix + b[|prefix|..]
  {
  }

  lemma MarkerSplit(opening: Octets, b: Octets) returns (payload: Octets)
    requires MarkerDigits(opening, b) != []
    ensures b == opening + (MarkerDigits(opening, b) + (FULL_CLOSE + payload))
  {
    Strip(opening, b);
    var rest := b[|opening|..];
    var n := LeadingDigits(rest);
    Strip(FULL_CLOSE, rest[n..]);
    Strip(rest[..n], rest);
    payload := rest[n..][|FULL_CLOSE|..];
  }

  lemma MarkerDigitsMean(opening: Octets, b: Octets)
    ensures MarkerDigits(opening, b) != [] <==> Shaped(opening, b)
  {
    if MarkerDigits(opening, b) != [] {
      var payload := MarkerSplit(opening, b);
    } else if Shaped(opening, b) {
      var digits, payload :| digits != [] && Digits(digits) && b == opening + (digits + (FULL_CLOSE + payload));
      MarkerRead(opening, digits, payload);
    }
  }

  /** The classifier finds a marker exactly in the marker-shaped octets. */
  lemma ClassifyMeans(m: Markers, b: Octets)
    ensures Classify(m, b).Full? <==> Shaped(m.opening, b)
    ensures Classify(m, b) != Untruncated <==> MarkerShaped(m, b)
  {
    MarkerDigitsMean(m.opening, b);
  }

  // ---------------------------------------------------------------- the verifier

  /** Classify first, then compare with the metadata. */
  predicate Verified(m: Markers, b: Octets, truncated: bool, storedBytes: int, observed: int) {
    && storedBytes == |b|
    && truncated == (Classify(m, b) != Untruncated)
    && (if truncated
        then storedBytes <= observed && (Classify(m, b).Full? ==> Classify(m, b).observed == observed)
        else observed == storedBytes)
  }

  /** The verifier believes metadata exactly if the sizes fit, truncation is claimed where
      the octets read as a marker and nowhere else, and a full marker's own number is the
      observed size. */
  lemma VerifiedMeans(m: Markers, b: Octets, truncated: bool, storedBytes: int, observed: int)
    ensures Verified(m, b, truncated, storedBytes, observed)
            <==> && storedBytes == |b| && (truncated <==> MarkerShaped(m, b))
                 && (if truncated then |b| <= observed else |b| == observed)
                 && (truncated ==> forall digits: Octets, payload: Octets ::
                       digits != [] && Digits(digits) && b == m.opening + (digits + (FULL_CLOSE + payload))
                       ==> Parse(digits) == observed)
  {
    ClassifyMeans(m, b);
    forall digits: Octets, payload: Octets
      | digits != [] && Digits(digits) && b == m.opening + (digits + (FULL_CLOSE + payload))
      ensures Classify(m, b) == Full(Parse(digits))
    {
      MarkerRead(m.opening, digits, payload);
    }
    if Classify(m, b).Full? {
      var payload := MarkerSplit(m.opening, b);
    }
  }

  // ------------------------------------------------------------------ the writer

  datatype Evidence = Absent | Present(text: Text, truncated: bool, storedBytes: nat, observed: nat)

  datatype Refusal = LimitNotPositive | NotEncodable

  function Header(opening: Octets, observed: nat): Octets { opening + (Print(observed) + FULL_CLOSE) }

  /** What is kept of a text too long for the limit. */
  function Fitted(m: Markers, text: Text, observed: nat, limit: nat): Text {
    var header := Header(m.opening, observed);
    if |header| <= limit then header + text[..Fitting(text, limit - |header|)]
    else if |m.minimal| <= limit then m.minimal + text[..Fitting(text, limit - |m.minimal|)]
    else m.minimal[..limit]
  }

  method FitTruncated(m: Markers, text: Text, observed: nat, limit: nat) returns (stored: Text)
    requires AllScalar(text) && observed == |Encode(text)| && limit < observed
    ensures stored == Fitted(m, text, observed, limit)
  {
    var header := Header(m.opening, observed);
    if |header| <= limit {
      var payload, _, _ := TruncatePrefix(text, limit - |header|);
      return header + payload;
    }
    if |m.minimal| <= limit {
      var payload, _, _ := TruncatePrefix(text, limit - |m.minimal|);
      return m.minimal + payload;
    }
    stored := m.minimal[..limit];
  }

  lemma {:induction false} EncodeAscii(b: Octets)
    requires Ascii(b)
    ensures Encode(b) == b
  {
    if b != [] {
      EncodeAscii(b[1..]);
      assert b == [b[0]] + b[1..];
    }
  }

  lemma EncodeMarked(marker: Octets, text: Text, room: nat) returns (payload: Octets)
    requires Ascii(marker) && AllScalar(text)
    ensures payload == Encode(text[..Fitting(text, room)]) && |payload| <= room
    ensures Encode(marker + text[..Fitting(text, room)]) == marker + payload
  {
    FittingIsLongest(text, room);
    payload := Encode(text[..Fitting(text, room)]);
    EncodeConcat(marker, text[..Fitting(text, room)]);
    EncodeAscii(marker);
  }

  lemma HeaderReads(opening: Octets, observed: nat, payload: Octets)
    requires Ascii(opening)
    ensures Ascii(Header(opening, observed))
    ensures var digits := MarkerDigits(opening, Header(opening, observed) + payload);
            digits != [] && Parse(digits) == observed
  {
    ParsePrint(observed);
    var digits := Print(observed);
    assert Header(opening, observed) + payload == opening + (digits + (FULL_CLOSE + payload));
    MarkerRead(opening, digits, payload);
  }

  lemma NoFullInMinimal(m: Markers, b: Octets)
    requires m.Apart() && (m.minimal <= b || b <= m.minimal)
    ensures MarkerDigits(m.opening, b) == []
  {
    assert !(m.opening <= b);
  }

  lemma FullReadsBack(m: Markers, text: Text, observed: nat, limit: nat)
    requires m.Apart() && AllScalar(text) && |Header(m.opening, observed)| <= limit < observed
    ensures var b := Encode(Fitted(m, text, observed, limit));
            0 < |b| <= limit && Classify(m, b) == Full(observed)
  {
    var header := Header(m.opening, observed);
    HeaderReads(m.opening, observed, []);
    var payload := EncodeMarked(header, text, limit - |header|);
    HeaderReads(m.opening, observed, payload);
  }

  lemma MinimalReadsBack(m: Markers, text: Text, observed: nat, limit: nat)
    requires m.Apart() && AllScalar(text) && |m.minimal| <= limit < |Header(m.opening, observed)|
    ensures var b := Encode(Fitted(m, text, observed, limit));
            0 < |b| <= limit && Classify(m, b) == Minimal
  {
    var payload := EncodeMarked(m.minimal, text, limit - |m.minimal|);
    NoFullInMinimal(m, m.minimal + payload);
  }

  lemma ClippedReadsBack(m: Markers, text: Text, observed: nat, limit: nat)
    requires m.Apart() && 0 < limit < |m.minimal| && limit < |Header(m.opening, observed)|
    ensures var b := Encode(Fitted(m, text, observed, limit));
            |b| == limit && Classify(m, b) == ClippedMinimal
  {
    EncodeAscii(m.minimal[..limit]);
    NoFullInMinimal(m, m.minimal[..limit]);
  }

  /** What is kept fits, and reads back as truncated with the size that was observed. */
  lemma FittedReadsBack(m: Markers, text: Text, observed: nat, limit: nat)
    requires m.Apart() && AllScalar(text) && observed == |Encode(text)| && 0 < limit < observed
    ensures var b := Encode(Fitted(m, text, observed, limit));
            0 < |b| <= limit && Verified(m, b, true, |b|, observed)
  {
    if |Header(m.opening, observed)| <= limit {
      FullReadsBack(m, text, observed, limit);
    } else if |m.minimal| <= limit {
      MinimalReadsBack(m, text, observed, limit);
    } else {
      ClippedReadsBack(m, text, observed, limit);
    }
  }

  /** These octets are a marker and the longest beginning of the text that fits behind it. */
  ghost predicate LongestBehind(marker: Octets, text: Text, limit: nat, b: Octets) {
    exists n: nat :: n < |text| && b == marker + Encode(text[..n]) && |b| <= limit < |b| + |EncodeOne(text[n])|
  }

  /** Nothing that fits is dropped: behind the fullest marker that fits stands as much of the
      text as fits, and only where no marker fits is the marker itself cut. */
  lemma FittedKeepsMost(m: Markers, text: Text, observed: nat, limit: nat)
    requires m.Apart() && AllScalar(text) && observed == |Encode(text)| && 0 < limit < observed
    ensures var b := Encode(Fitted(m, text, observed, limit));
            if |Header(m.opening, observed)| <= limit then LongestBehind(Header(m.opening, observed), text, limit, b)
            else if |m.minimal| <= limit then LongestBehind(m.minimal, text, limit, b)
            else b == m.minimal[..limit]
  {
    HeaderReads(m.opening, observed, []);
    var header := Header(m.opening, observed);
    if |header| <= limit {
      LongestFits(header, text, limit);
    } else if |m.minimal| <= limit {
      LongestFits(m.minimal, text, limit);
    } else {
      EncodeAscii(m.minimal[..limit]);
    }
  }

  lemma LongestFits(marker: Octets, text: Text, limit: nat)
    requires Ascii(marker) && AllScalar(text) && |marker| <= limit < |Encode(text)|
    ensures LongestBehind(marker, text, limit, Encode(marker + text[..Fitting(text, limit - |marker|)]))
  {
    var n := Fitting(text, limit - |marker|);
    var payload := EncodeMarked(marker, text, limit - |marker|);
    FittingIsLongest(text, limit - |marker|);
    assert text[..|text|] == text;
    assert n < |text|;
  }

  /** What is kept of a text under a limit. */
  function Bounded(m: Markers, text: Option<Text>, limit: int): Result<Evidence, Refusal> {
    if text.None? then Ok(Absent)
    else if limit <= 0 then Err(LimitNotPositive)
    else if !AllScalar(text.value) then Err(NotEncodable)
    else
      var observed := |Encode(text.value)|;
      if limit < observed
      then Ok(Present(Fitted(m, text.value, observed, limit), true, |Encode(Fitted(m, text.value, observed, limit))|,
        observed))
      else Ok(Present(text.value, false, observed, observed))
  }

  /** What is kept never exceeds the limit, and the verifier accepts it exactly when it was
      truncated or the text does not itself read as a marker. */
  lemma BoundedVerifies(m: Markers, text: Text, limit: int)
    requires m.Apart() && Bounded(m, Some(text), limit).Ok?
    ensures var r := Bounded(m, Some(text), limit).value;
            && r.Present? && r.storedBytes == |Encode(r.text)| <= limit && r.observed == |Encode(text)|
            && (r.truncated <==> limit < r.observed) && (!r.truncated ==> r.text == text)
            && (Verified(m, Encode(r.text), r.truncated, r.storedBytes, r.observed)
                <==> r.truncated || !MarkerShaped(m, Encode(text)))
  {
    if limit < |Encode(text)| {
      FittedReadsBack(m, text, |Encode(text)|, limit);
    } else {
      ClassifyMeans(m, Encode(text));
    }
  }

  /** Keep the text, or what fits of it behind a marker. */
  method BoundRaw(m: Markers, text: Option<Text>, limit: int) returns (r: Result<Evidence, Refusal>)
    ensures r == Bounded(m, text, limit)
  {
    if text.None? { return Ok(Absent); }
    if limit <= 0 { return Err(LimitNotPositive); }
    if !AllScalar(text.value) { return Err(NotEncodable); }
    var stored, observed, truncated := TruncatePrefix(text.value, limit);
    if truncated {
      stored := FitTruncated(m, text.value, observed, limit);
    }
    r := Ok(Present(stored, truncated, |Encode(stored)|, observed));
  }

  /** Whole texts the writer keeps as they are and its verifier refuses: already the first
      character of the minimal marker, and the marker itself. */
  lemma MarkerTextsRefused(m: Markers)
    requires m.Apart()
    ensures !Verified(m, Encode(m.minimal[..1]), false, 1, 1)
    ensures !Verified(m, Encode(m.minimal), false, |m.minimal|, |m.minimal|)
  {
    EncodeAscii(m.minimal[..1]);
    EncodeAscii(m.minimal);
  }
}
