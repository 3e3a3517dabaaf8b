/** The attempt journal as bytes: newline-terminated canonical frames whose events form
    one digest chain. Decoding, chain integrity, and what a torn append can leave. */
module Journal {
  import opened Wrappers

  type Digest = string

  const MAX_JOURNAL_BYTES := 16_000_000
  const MAX_FRAME_BYTES := 8_000_000
  const MAX_CLOSURE_BYTES := 4096
  const MAX_EVENTS := 5

  datatype Kind =
    | AttemptPrepared | DispatchPermitted | SdkCallBoundary
    | SdkReturnObserved | SdkExceptionObserved | OutcomeObserved

  datatype Outcome = Outcome(success: bool, text: string)

  /** What an attempt was prepared for; `rest` is everything else the run fixed. */
  datatype Binding = Binding(
    requestDigest: Digest, inputDigest: Digest, parameterDigest: Digest, role: string,
    configuredIdentity: string, wireModel: string, timeout: int, rest: string)

  /** The wall clock as written down, and the monotonic clock. */
  datatype Stamp = Stamp(observedAt: string, monotonic: int)

  /** Payloads of the shapes the transitions know, and any other object. */
  datatype Payload =
    | Prepared(binding: Binding)
    | Grant(timeout: int)
    | Wire(digest: Digest)
    | Observed(outcome: Outcome, digest: Digest)
    | Nothing
    | Other(text: string)

  datatype Body = Body(
    schema: string, attemptId: string, sequence: int, previous: Option<Digest>, kind: Kind, data: Payload, stamp: Stamp)

  datatype Event = Event(body: Body, digest: Digest)

  function Allowed(previous: Option<Kind>): set<Kind> {
    match previous
    case None => {AttemptPrepared}
    case Some(AttemptPrepared) => {DispatchPermitted}
    case Some(DispatchPermitted) => {SdkCallBoundary}
    case Some(SdkCallBoundary) => {SdkReturnObserved, SdkExceptionObserved}
    case Some(SdkReturnObserved) => {OutcomeObserved}
    case Some(SdkExceptionObserved) => {OutcomeObserved}
    case Some(OutcomeObserved) => {}
  }

  predicate IsHex(s: string) {
    forall i :: 0 <= i < |s| ==> s[i] in "0123456789abcdef"
  }

  predicate IsDigest(d: Digest) { |d| == 64 && IsHex(d) }

  datatype ClosureReason =
    | NotStarted | Returned | TimedOut | Infrastructure | Interrupted
    | UnknownReason(name: string)

  /** `closed.json`; the event name is `closed_not_started` or another. */
  datatype Closure = Closure(
    attemptId: string, headDigest: Digest, eventCount: int, reason: ClosureReason,
    saysNotStarted: bool, workerReaped: bool)
  {
    predicate Bounded() {
      |attemptId| == 32 && IsDigest(headDigest) && 0 <= eventCount <= MAX_EVENTS && !reason.UnknownReason?
    }
  }

  /** Canonical JSON and SHA-256, of which only the stated laws are used, and what makes a
      timestamp, a binding or an outcome well formed. */
  datatype Codec = Codec(
    dumps: Event -> string, loads: string -> Option<Event>,
    sha: Body -> Digest, shaOutcome: Outcome -> Digest,
    schema: string, zoned: string -> bool, validBinding: Binding -> bool, validOutcome: Outcome -> bool,
    dumpsClosure: Closure -> string, loadsClosure: string -> Option<Closure>,
    shaClosure: Closure -> Digest)
  {
    ghost predicate Lawful() {
      && (forall e :: loads(dumps(e)) == Some(e))
      && (forall e, i :: 0 <= i < |dumps(e)| ==> dumps(e)[i] != '\n' && dumps(e)[i] != '\r')
      && (forall e :: dumps(e) != [])
      && (forall b :: IsDigest(sha(b)))
    }

    /** A closure is one JSON object: no proper prefix of its text is JSON. */
    ghost predicate LawfulClosures() {
      && (forall x :: loadsClosure(dumpsClosure(x)) == Some(x))
      && (forall x, n :: 0 <= n < |dumpsClosure(x)| ==> loadsClosure(dumpsClosure(x)[..n]) == None)
      && (forall x: Closure :: x.Bounded() ==> 0 < |dumpsClosure(x)| <= MAX_CLOSURE_BYTES)
    }

    function Frame(e: Event): string { dumps(e) + "\n" }
  }

  function Encode(c: Codec, events: seq<Event>): string {
    if events == [] then [] else Encode(c, events[..|events| - 1]) + c.Frame(events[|events| - 1])
  }

  // ------------------------------------------------------------------ lines

  function LineEnd(s: string): (n: nat)
    ensures n <= |s| && (n < |s| ==> s[n] == '\n' || s[n] == '\r')
    ensures forall i :: 0 <= i < n ==> s[i] != '\n' && s[i] != '\r'
  {
    if s == [] || s[0] == '\n' || s[0] == '\r' then 0 else 1 + LineEnd(s[1..])
  }

  /** Where the line after the first one starts. */
  function LineNext(s: string): (n: nat)
    requires LineEnd(s) < |s|
    ensures LineEnd(s) < n <= |s|
  {
    var n := LineEnd(s);
    if s[n] == '\r' && n + 1 < |s| && s[n + 1] == '\n' then n + 2 else n + 1
  }

  /** Lines end with a line feed, a carriage return, or both. */
  function SplitLines(s: string): seq<string>
    decreases |s|
  {
    if s == [] then []
    else if LineEnd(s) == |s| then [s]
    else [s[..LineEnd(s)]] + SplitLines(s[LineNext(s)..])
  }

  lemma {:induction false} LineEndUnique(s: string, n: nat)
    requires n <= |s| && (n < |s| ==> s[n] == '\n' || s[n] == '\r')
    requires forall i :: 0 <= i < n ==> s[i] != '\n' && s[i] != '\r'
    ensures LineEnd(s) == n
  {
    if n > 0 {
      LineEndUnique(s[1..], n - 1);
    }
  }

  lemma DropOf<T>(xs: seq<T>, ys: seq<T>, n: nat)
    requires n <= |xs|
    ensures (xs + ys)[n..] == xs[n..] + ys
  {
  }

  lemma FirstLine(x: string, y: string)
    requires x != [] && x[|x| - 1] == '\n'
    ensures LineEnd(x) < |x| && LineEnd(x + y) == LineEnd(x) && LineNext(x + y) == LineNext(x)
    ensures (x + y)[..LineEnd(x)] == x[..LineEnd(x)]
    ensures (x + y)[LineNext(x)..] == x[LineNext(x)..] + y
  {
    LineEndUnique(x + y, LineEnd(x));
    DropOf(x, y, LineNext(x));
  }

  lemma {:induction false} SplitAfterNewline(x: string, y: string)
    requires x != [] ==> x[|x| - 1] == '\n'
    ensures SplitLines(x + y) == SplitLines(x) + SplitLines(y)
    decreases |x|
  {
    if x == [] {
      assert x + y == y;
    } else {
      FirstLine(x, y);
      var rest := x[LineNext(x)..];
      SplitAfterNewline(rest, y);
      Associative([x[..LineEnd(x)]], SplitLines(rest), SplitLines(y));
    }
  }

  lemma Associative<T>(a: seq<T>, b: seq<T>, c: seq<T>)
    ensures a + (b + c) == (a + b) + c
  {
  }

  lemma {:induction false} EncodeEndsLine(c: Codec, events: seq<Event>)
    ensures Encode(c, events) != [] <==> events != []
    ensures events != [] ==> Encode(c, events)[|Encode(c, events)| - 1] == '\n'
  {
    if events != [] {
      var init, frame := Encode(c, events[..|events| - 1]), c.Frame(events[|events| - 1]);
      assert Encode(c, events) == init + frame && frame[|frame| - 1] == '\n';
      assert |Encode(c, events)| == |init| + |frame|;
      assert Encode(c, events)[|Encode(c, events)| - 1] == frame[|frame| - 1];
    } else {
      assert Encode(c, events) == [];
    }
  }

  lemma SplitFrame(c: Codec, e: Event)
    requires c.Lawful()
    ensures SplitLines(c.Frame(e)) == [c.dumps(e)]
  {
    LineEndUnique(c.Frame(e), |c.dumps(e)|);
    assert c.Frame(e)[..|c.dumps(e)|] == c.dumps(e);
    assert c.Frame(e)[|c.dumps(e)| + 1..] == [];
  }

  function Lines(c: Codec, events: seq<Event>): seq<string> {
    seq(|events|, i requires 0 <= i < |events| => c.dumps(events[i]))
  }

  lemma LinesSnoc(c: Codec, events: seq<Event>, e: Event)
    ensures Lines(c, events + [e]) == Lines(c, events) + [c.dumps(e)]
  {
  }

  lemma {:induction false} SplitEncode(c: Codec, events: seq<Event>)
    requires c.Lawful()
    ensures SplitLines(Encode(c, events)) == Lines(c, events)
  {
    if events != [] {
      var init, e := events[..|events| - 1], events[|events| - 1];
      SplitEncode(c, init);
      EncodeEndsLine(c, init);
      SplitAfterNewline(Encode(c, init), c.Frame(e));
      SplitFrame(c, e);
      LinesSnoc(c, init, e);
      assert init + [e] == events;
    }
  }

  // --------------------------------------------------------------- decoding

  predicate PayloadOk(c: Codec, events: seq<Event>, i: nat)
    requires i < |events|
  {
    var data := events[i].body.data;
    match events[i].body.kind
    case AttemptPrepared => data.Prepared? && c.validBinding(data.binding)
    case DispatchPermitted =>
      data.Grant? && 0 < data.timeout && events[0].body.data.Prepared?
        && data.timeout <= events[0].body.data.binding.timeout
    case SdkCallBoundary => data.Wire? && IsDigest(data.digest)
    case OutcomeObserved =>
      && data.Observed? && c.validOutcome(data.outcome) && data.digest == c.shaOutcome(data.outcome)
      && (data.outcome.success ==> 0 < i && events[i - 1].body.kind.SdkReturnObserved?)
    case _ => data.Nothing?
  }

  predicate EventOk(c: Codec, events: seq<Event>, i: nat)
    requires i < |events|
  {
    var b := events[i].body;
    && b.sequence == i && events[i].digest == c.sha(b)
    && b.previous == (if i == 0 then None else Some(events[i - 1].digest))
    && b.kind in Allowed(if i == 0 then None else Some(events[i - 1].body.kind))
    && b.schema == c.schema && c.zoned(b.stamp.observedAt)
    && (if i == 0 then -1 else events[i - 1].body.stamp.monotonic) <= b.stamp.monotonic
    && b.attemptId == events[0].body.attemptId && |b.attemptId| == 32 && IsHex(b.attemptId)
    && PayloadOk(c, events, i)
  }

  /** One attempt's events: a digest chain along the allowed transitions. */
  predicate Chain(c: Codec, events: seq<Event>) {
    1 <= |events| <= MAX_EVENTS && forall i: nat :: i < |events| ==> EventOk(c, events, i)
  }

  function ParseLines(c: Codec, lines: seq<string>): Option<seq<Event>> {
    if lines == [] then Some([])
    else
      var e := c.loads(lines[0]);
      var rest := ParseLines(c, lines[1..]);
      if e.Some? && rest.Some? && c.dumps(e.value) == lines[0] then Some([e.value] + rest.value) else None
  }

  function Decoded(c: Codec, data: string): Option<seq<Event>> {
    var lines := SplitLines(data);
    if 0 < |data| <= MAX_JOURNAL_BYTES && data[|data| - 1] == '\n' && |lines| <= MAX_EVENTS
       && (forall i :: 0 <= i < |lines| ==> |lines[i]| <= MAX_FRAME_BYTES)
       && ParseLines(c, lines).Some? && Chain(c, ParseLines(c, lines).value)
    then ParseLines(c, lines)
    else None
  }

  function Prepend<T>(xs: seq<T>, r: Option<seq<T>>): Option<seq<T>> {
    if r.Some? then Some(xs + r.value) else None
  }

  lemma PrependNested<T>(xs: seq<T>, ys: seq<T>, r: Option<seq<T>>)
    ensures Prepend(xs, Prepend(ys, r)) == Prepend(xs + ys, r)
    ensures Prepend([], r) == r
  {
    if r.Some? {
      assert xs + (ys + r.value) == (xs + ys) + r.value;
      assert [] + r.value == r.value;
    }
  }

  method ParseFrames(c: Codec, lines: seq<string>) returns (r: Option<seq<Event>>)
    ensures r == if forall i :: 0 <= i < |lines| ==> |lines[i]| <= MAX_FRAME_BYTES then ParseLines(c, lines) else None
  {
    var events: seq<Event> := [];
    assert lines[0..] == lines;
    PrependNested([], [], ParseLines(c, lines));
    for i := 0 to |lines|
      invariant forall k :: 0 <= k < i ==> |lines[k]| <= MAX_FRAME_BYTES
      invariant ParseLines(c, lines) == Prepend(events, ParseLines(c, lines[i..]))
    {
      if MAX_FRAME_BYTES < |lines[i]| {
        return None;
      }
      assert lines[i..][1..] == lines[i + 1..];
      var e := c.loads(lines[i]);
      if e.None? || c.dumps(e.value) != lines[i] {
        return None;
      }
      PrependNested(events, [e.value], ParseLines(c, lines[i + 1..]));
      events := events + [e.value];
    }
    assert events + [] == events;
    r := Some(events);
  }

  /** The decoding loop: frames first, then the chain from its start. */
  method Decode(c: Codec, data: string) returns (r: Option<seq<Event>>)
    ensures r == Decoded(c, data)
  {
    if |data| == 0 || MAX_JOURNAL_BYTES < |data| || data[|data| - 1] != '\n' || MAX_EVENTS < |SplitLines(data)| {
      return None;
    }
    r := ParseFrames(c, SplitLines(data));
    if r.None? { return; }
    var events := r.value;
    ParseMeans(c, SplitLines(data));
    if events == [] { return None; }
    for i := 0 to |events|
      invariant forall k: nat :: k < i ==> EventOk(c, events, k)
    {
      if !EventOk(c, events, i) {
        return None;
      }
    }
  }

  lemma {:induction false} ParseInverts(c: Codec, events: seq<Event>)
    requires c.Lawful()
    ensures ParseLines(c, Lines(c, events)) == Some(events)
  {
    if events != [] {
      ParseInverts(c, events[1..]);
      assert Lines(c, events)[1..] == Lines(c, events[1..]);
      assert c.loads(Lines(c, events)[0]) == Some(events[0]);
      assert [events[0]] + events[1..] == events;
    }
  }

  lemma {:induction false} ParseMeans(c: Codec, lines: seq<string>)
    ensures ParseLines(c, lines).Some? ==> |ParseLines(c, lines).value| == |lines|
    ensures ParseLines(c, lines).Some? ==> Lines(c, ParseLines(c, lines).value) == lines
  {
    if ParseLines(c, lines).Some? && lines != [] {
      ParseMeans(c, lines[1..]);
      var events := ParseLines(c, lines).value;
      assert events[1..] == ParseLines(c, lines[1..]).value;
      assert Lines(c, events) == [c.dumps(events[0])] + Lines(c, events[1..]);
      assert c.dumps(events[0]) == lines[0];
      assert Lines(c, events) == lines;
    }
  }

  predicate Fits(c: Codec, events: seq<Event>) {
    && |Encode(c, events)| <= MAX_JOURNAL_BYTES
    && forall i :: 0 <= i < |events| ==> |c.dumps(events[i])| <= MAX_FRAME_BYTES
  }

  /** Decoding inverts encoding on every chain that fits the bounds, and on nothing else. */
  lemma DecodeEncode(c: Codec, events: seq<Event>)
    requires c.Lawful()
    ensures Decoded(c, Encode(c, events)) == if Chain(c, events) && Fits(c, events) then Some(events) else None
  {
    SplitEncode(c, events);
    ParseInverts(c, events);
    EncodeEndsLine(c, events);
    var lines := Lines(c, events);
    assert forall i :: 0 <= i < |lines| ==> |lines[i]| == |c.dumps(events[i])|;
    assert Chain(c, events) ==> events != [];
    if Decoded(c, Encode(c, events)).Some? {
      assert forall i :: 0 <= i < |events| ==> |c.dumps(events[i])| == |lines[i]|;
    }
  }

  /** Which transition a chain may be in: the kinds are fixed by position but for one choice. */
  lemma ChainKinds(c: Codec, events: seq<Event>)
    requires Chain(c, events)
    ensures events[0].body.kind == AttemptPrepared
    ensures 1 < |events| ==> events[1].body.kind == DispatchPermitted
    ensures 2 < |events| ==> events[2].body.kind == SdkCallBoundary
    ensures 3 < |events| ==> events[3].body.kind in {SdkReturnObserved, SdkExceptionObserved}
    ensures 4 < |events| ==> events[4].body.kind == OutcomeObserved
  {
    assert EventOk(c, events, 0);
    assert 1 < |events| ==> EventOk(c, events, 1);
    assert 2 < |events| ==> EventOk(c, events, 2);
    assert 3 < |events| ==> EventOk(c, events, 3);
    assert 4 < |events| ==> EventOk(c, events, 4);
  }

  /** Which event may stand where. */
  predicate KindAt(i: nat, kind: Kind) {
    match i
    case 0 => kind == AttemptPrepared
    case 1 => kind == DispatchPermitted
    case 2 => kind == SdkCallBoundary
    case 3 => kind == SdkReturnObserved || kind == SdkExceptionObserved
    case 4 => kind == OutcomeObserved
    case _ => false
  }

  /** The transitions allow exactly the sequences that are right at every position. */
  lemma {:induction false} KindsExactly(kinds: seq<Kind>)
    ensures (forall i {:trigger kinds[i]} :: 0 <= i < |kinds| ==> kinds[i] in Allowed(if i == 0 then None
              else Some(kinds[i - 1])))
            <==> forall i {:trigger kinds[i]} :: 0 <= i < |kinds| ==> KindAt(i, kinds[i])
  {
    if kinds != [] {
      var init, n := kinds[..|kinds| - 1], |kinds| - 1;
      KindsExactly(init);
      assert kinds == init + [kinds[n]];
      assert forall i :: 0 <= i < n ==> init[i] == kinds[i];
      if forall i :: 0 <= i < n ==> KindAt(i, init[i]) {
        assert n > 0 ==> KindAt(n - 1, init[n - 1]);
        assert kinds[n] in Allowed(if n == 0 then None else Some(kinds[n - 1])) <==> KindAt(n, kinds[n]);
      }
    }
  }

  /** What holds across a chain: one attempt, one schema, linked digests, a clock that does
      not run back, a grant within the time prepared for, and success only after a return. */
  lemma ChainMeans(c: Codec, events: seq<Event>, i: nat, j: nat)
    requires Chain(c, events) && i <= j < |events|
    ensures var a, b := events[i].body, events[j].body;
      && a.attemptId == b.attemptId && a.schema == b.schema == c.schema && a.sequence == i
      && -1 <= a.stamp.monotonic <= b.stamp.monotonic && c.zoned(a.stamp.observedAt)
      && events[i].digest == c.sha(a)
      && (j == i + 1 ==> b.previous == Some(events[i].digest)) && (i == 0 ==> a.previous.None?)
    ensures events[0].body.data.Prepared? && c.validBinding(events[0].body.data.binding)
    ensures |events[i].body.attemptId| == 32 && IsHex(events[i].body.attemptId)
    ensures 1 < |events| ==>
      var grant := events[1].body.data;
      grant.Grant? && 0 < grant.timeout <= events[0].body.data.binding.timeout
    ensures 2 < |events| ==> events[2].body.data.Wire? && IsDigest(events[2].body.data.digest)
    ensures 3 < |events| ==> events[3].body.data == Nothing
    ensures 4 < |events| ==>
      var last := events[4].body.data;
      && last.Observed? && c.validOutcome(last.outcome) && last.digest == c.shaOutcome(last.outcome)
      && (last.outcome.success ==> events[3].body.kind == SdkReturnObserved)
    decreases j
  {
    ChainKinds(c, events);
    assert EventOk(c, events, 0) && EventOk(c, events, i) && EventOk(c, events, j);
    assert 1 < |events| ==> EventOk(c, events, 1);
    assert 2 < |events| ==> EventOk(c, events, 2);
    assert 3 < |events| ==> EventOk(c, events, 3);
    assert 4 < |events| ==> EventOk(c, events, 4);
    if i < j {
      ChainMeans(c, events, i, j - 1);
    } else if 0 < i {
      ChainMeans(c, events, i - 1, i - 1);
    }
  }

  lemma PrefixOfChain(c: Codec, events: seq<Event>, n: nat)
    requires Chain(c, events) && 1 <= n <= |events|
    ensures Chain(c, events[..n])
  {
    forall i: nat | i < n ensures EventOk(c, events[..n], i) {
      assert EventOk(c, events, i);
    }
  }

  /** Two of the bodies differ and hash alike. */
  predicate Collision(c: Codec, a: seq<Event>, b: seq<Event>) {
    exists i, j :: 0 <= i < |a| && 0 <= j < |b| && a[i].body != b[j].body && c.sha(a[i].body) == c.sha(b[j].body)
  }

  /** Equal head digests, equal histories, unless the two chains hold a hash collision. */
  lemma {:induction false} HeadsCommit(c: Codec, a: seq<Event>, b: seq<Event>)
    requires Chain(c, a) && Chain(c, b) && !Collision(c, a, b)
    requires a[|a| - 1].digest == b[|b| - 1].digest
    ensures a == b
    decreases |a|
  {
    var m, n := |a| - 1, |b| - 1;
    assert EventOk(c, a, m) && EventOk(c, b, n);
    assert a[m].body == b[n].body;
    if m > 0 {
      PrefixOfChain(c, a, m);
      PrefixOfChain(c, b, n);
      assert !Collision(c, a[..m], b[..n]);
      HeadsCommit(c, a[..m], b[..n]);
    }
    assert a == a[..m] + [a[m]] && b == b[..n] + [b[n]];
  }

  /** The same for two journals that decode, whatever their bytes. */
  lemma ChainIntegrity(c: Codec, x: string, y: string)
    requires Decoded(c, x).Some? && Decoded(c, y).Some?
    ensures var a, b := Decoded(c, x).value, Decoded(c, y).value;
            a[|a| - 1].digest == b[|b| - 1].digest ==> a == b || Collision(c, a, b)
  {
    var a, b := Decoded(c, x).value, Decoded(c, y).value;
    if a[|a| - 1].digest == b[|b| - 1].digest && !Collision(c, a, b) {
      HeadsCommit(c, a, b);
    }
  }

  // -------------------------------------------------------------- appending

  lemma EncodeSnoc(c: Codec, events: seq<Event>, e: Event)
    ensures Encode(c, events + [e]) == Encode(c, events) + c.Frame(e)
  {
    assert (events + [e])[..|events|] == events;
  }

  /** A crash part-way through an append leaves the old journal, the extended one, or
      something that does not decode; which of them is decided by how much was written. */
  lemma TornAppend(c: Codec, data: string, e: Event, k: nat)
    requires c.Lawful() && Decoded(c, data).Some? && k <= |c.Frame(e)|
    requires Decoded(c, data + c.Frame(e)).Some?
    ensures Decoded(c, data + c.Frame(e)) == Some(Decoded(c, data).value + [e])
    ensures Decoded(c, data + c.Frame(e)[..k])
            == if k == 0 then Decoded(c, data)
               else if k == |c.Frame(e)| then Some(Decoded(c, data).value + [e])
               else None
  {
    AppendDecodes(c, data, e);
    if k == 0 {
      assert data + c.Frame(e)[..k] == data;
    } else if k == |c.Frame(e)| {
      assert c.Frame(e)[..k] == c.Frame(e);
    } else {
      var torn := data + c.Frame(e)[..k];
      assert torn[|torn| - 1] == c.dumps(e)[k - 1];
    }
  }

  lemma {:induction false} ParseConcat(c: Codec, xs: seq<string>, ys: seq<string>)
    ensures ParseLines(c, xs + ys)
            == (if ParseLines(c, xs).Some? && ParseLines(c, ys).Some?
                then Some(ParseLines(c, xs).value + ParseLines(c, ys).value) else None)
  {
    if xs == [] {
      assert xs + ys == ys;
      if ParseLines(c, ys).Some? {
        assert [] + ParseLines(c, ys).value == ParseLines(c, ys).value;
      }
    } else {
      assert (xs + ys)[1..] == xs[1..] + ys;
      ParseConcat(c, xs[1..], ys);
      PrependNested(if c.loads(xs[0]).Some? then [c.loads(xs[0]).value] else [],
                    if ParseLines(c, xs[1..]).Some? then ParseLines(c, xs[1..]).value else [], ParseLines(c, ys));
    }
  }

  lemma AppendDecodes(c: Codec, data: string, e: Event)
    requires c.Lawful() && Decoded(c, data).Some?
    requires Decoded(c, data + c.Frame(e)).Some?
    ensures Decoded(c, data + c.Frame(e)) == Some(Decoded(c, data).value + [e])
  {
    SplitAfterNewline(data, c.Frame(e));
    SplitFrame(c, e);
    assert [c.dumps(e)] == Lines(c, [e]);
    ParseInverts(c, [e]);
    ParseConcat(c, SplitLines(data), SplitLines(c.Frame(e)));
  }

  /** Bytes after a journal that decodes only add events to it. */
  lemma LongerDecodes(c: Codec, data: string, more: string)
    requires Decoded(c, data).Some? && Decoded(c, data + more).Some?
    ensures Decoded(c, data).value <= Decoded(c, data + more).value
  {
    SplitAfterNewline(data, more);
    ParseConcat(c, SplitLines(data), SplitLines(more));
  }

  lemma EncodeGrows(c: Codec, events: seq<Event>, n: nat)
    requires n <= |events|
    ensures Encode(c, events[..n]) <= Encode(c, events)
    ensures n < |events| ==> |Encode(c, events[..n])| < |Encode(c, events)|
    decreases |events|
  {
    if n < |events| {
      var init := events[..|events| - 1];
      EncodeGrows(c, init, n);
      assert init[..n] == events[..n];
    } else {
      assert events[..n] == events;
    }
  }

  lemma {:induction false} EncodeShorter(c: Codec, events: seq<Event>, m: nat, n: nat)
    requires m <= |events| && n <= |events| && |Encode(c, events[..m])| <= |Encode(c, events[..n])|
    ensures m <= n
  {
    if n < m {
      assert events[..m][..n] == events[..n];
      EncodeGrows(c, events[..m], n);
    }
  }

  /** A complete line count: text cut from an encoding right after a newline is the
      encoding of some of the events. */
  lemma {:induction false} CutAtLine(c: Codec, events: seq<Event>, x: string) returns (n: nat)
    requires c.Lawful() && x <= Encode(c, events) && x != [] && x[|x| - 1] == '\n'
    ensures n <= |events| && x == Encode(c, events[..n])
    decreases |events|
  {
    var init, e := events[..|events| - 1], events[|events| - 1];
    if |x| <= |Encode(c, init)| {
      n := CutAtLine(c, init, x);
      assert init[..n] == events[..n];
    } else {
      var k := |x| - |Encode(c, init)|;
      assert x[|x| - 1] == c.Frame(e)[k - 1];
      assert k == |c.Frame(e)|;
      n := |events|;
      assert events[..n] == events;
      assert x == Encode(c, events);
    }
  }

  /** What a journal cut short anywhere can still decode to: its first events. */
  lemma CutDecodes(c: Codec, events: seq<Event>, x: string) returns (n: nat)
    requires c.Lawful() && x <= Encode(c, events) && Decoded(c, x).Some?
    ensures 1 <= n <= |events| && x == Encode(c, events[..n]) && Decoded(c, x) == Some(events[..n])
  {
    n := CutAtLine(c, events, x);
    DecodeEncode(c, events[..n]);
    assert Chain(c, events[..n]);
  }

  /** An append to a journal that still decodes, whatever came after it before the cut. */
  lemma AppendOnto(c: Codec, events: seq<Event>, x: string, e: Event) returns (n: nat)
    requires c.Lawful() && x <= Encode(c, events)
    requires Decoded(c, x).Some? && Decoded(c, x + c.Frame(e)).Some?
    ensures 1 <= n <= |events| && x == Encode(c, events[..n]) && Decoded(c, x) == Some(events[..n])
    ensures var more := events[..n] + [e];
            Chain(c, more) && Fits(c, more) && Encode(c, more) == x + c.Frame(e)
  {
    n := CutDecodes(c, events, x);
    AppendDecodes(c, x, e);
    EncodeSnoc(c, events[..n], e);
    DecodeEncode(c, events[..n] + [e]);
  }
}
