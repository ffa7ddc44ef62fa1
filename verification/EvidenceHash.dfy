/** The canonical string a bundle's hash is taken over, and why it determines the timeline. */
module EvidenceHash {
  import opened Json
  import opened Text
  import opened Evidence

  /** A field as its UTF-8 length, a colon, the text and a semicolon. */
  function Field(s: string): string { Decimal(ByteLen(s)) + [':'] + s + [';'] }

  function StepText(stepId: Option<string>): string { Or(stepId, "<none>") }

  function Position(r: Record): string { Decimal(r.seqNo) + [':'] + Signed(r.about.occurredAtMs) + [';'] }

  function FieldsOf(r: Record): seq<string>
  {
    [r.about.eventId, r.about.runId, r.about.sessionId, StepText(r.about.stepId), r.about.eventType, r.payloadHash]
  }

  function FieldsThen(fields: seq<string>, rest: string): string
  {
    if fields == [] then rest else Field(fields[0]) + FieldsThen(fields[1..], rest)
  }

  /** One event in front of the rest of the string. */
  function EncodeThen(r: Record, rest: string): string { FieldsThen(FieldsOf(r), Position(r) + rest) }

  function Canonical(records: seq<Record>): string
  {
    if records == [] then "" else EncodeThen(records[0], Canonical(records[1..]))
  }

  function EventHash(c: Codec, records: seq<Record>): string { c.hash(Canonical(records)) }

  lemma Associates(a: string, b: string, x: string)
    ensures (a + b) + x == a + (b + x)
  {
  }

  /** The loops of the source, which append to one growing string. */
  method AppendFields(canonical: string, fields: seq<string>, ghost rest: string) returns (longer: string)
    ensures longer + rest == canonical + FieldsThen(fields, rest)
  {
    longer := canonical;
    for j := 0 to |fields|
      invariant longer + FieldsThen(fields[j..], rest) == canonical + FieldsThen(fields, rest)
    {
      assert fields[j..][0] == fields[j] && fields[j..][1..] == fields[j + 1..];
      Associates(longer, Field(fields[j]), FieldsThen(fields[j + 1..], rest));
      longer := longer + Field(fields[j]);
    }
  }

  method CanonicalString(records: seq<Record>) returns (canonical: string)
    ensures canonical == Canonical(records)
  {
    canonical := "";
    for i := 0 to |records|
      invariant canonical + Canonical(records[i..]) == Canonical(records)
    {
      var r := records[i];
      ghost var rest := Canonical(records[i + 1..]);
      assert records[i..][0] == r && records[i..][1..] == records[i + 1..];
      var longer := AppendFields(canonical, FieldsOf(r), Position(r) + rest);
      Associates(longer, Position(r), rest);
      canonical := longer + Position(r);
    }
    assert canonical + "" == canonical;
  }

  // ---------------------------------------------------------------- unique decoding

  predicate Without(s: string, stop: char) { forall i :: 0 <= i < |s| ==> s[i] != stop }

  /** Text up to the first stop character can be told from what follows. */
  lemma StopSplits(a: string, b: string, stop: char, x: string, y: string)
    requires Without(a, stop) && Without(b, stop) && a + [stop] + x == b + [stop] + y
    ensures a == b && x == y
  {
    var s := a + [stop] + x;
    assert s[|a|] == stop && s[|b|] == stop;
    assert forall i :: 0 <= i < |a| ==> s[i] == a[i];
    assert forall i :: 0 <= i < |b| ==> s[i] == b[i];
    assert |a| == |b|;
    assert a == s[..|a|] && b == s[..|b|] && x == s[|a| + 1..] && y == s[|b| + 1..];
  }

  lemma ShorterSplits(a: string, b: string, x: string, y: string)
    requires a + x == b + y && ByteLen(a) == ByteLen(b) && |a| <= |b|
    ensures a == b && x == y
  {
    var s, rest := a + x, b[|a|..];
    assert a == s[..|a|] && b == s[..|b|];
    assert b == a + rest;
    ByteLenOfConcat(a, rest);
    assert rest == "";
    assert x == s[|a|..] && y == s[|b|..];
  }

  /** Texts of the same byte length at the front of one string are the same text. */
  lemma BytesSplit(a: string, b: string, x: string, y: string)
    requires a + x == b + y && ByteLen(a) == ByteLen(b)
    ensures a == b && x == y
  {
    if |a| <= |b| {
      ShorterSplits(a, b, x, y);
    } else {
      ShorterSplits(b, a, y, x);
    }
  }

  lemma FieldSplits(a: string, b: string, x: string, y: string)
    requires Field(a) + x == Field(b) + y
    ensures a == b && x == y
  {
    var la, lb := Decimal(ByteLen(a)), Decimal(ByteLen(b));
    assert Field(a) + x == la + [':'] + (a + ([';'] + x));
    assert Field(b) + y == lb + [':'] + (b + ([';'] + y));
    StopSplits(la, lb, ':', a + ([';'] + x), b + ([';'] + y));
    DecimalInjective(ByteLen(a), ByteLen(b));
    BytesSplit(a, b, [';'] + x, [';'] + y);
    assert x == ([';'] + x)[1..] && y == ([';'] + y)[1..];
  }

  lemma PositionSplits(r: Record, s: Record, x: string, y: string)
    requires Position(r) + x == Position(s) + y
    ensures r.seqNo == s.seqNo && r.about.occurredAtMs == s.about.occurredAtMs && x == y
  {
    var m, n := Signed(r.about.occurredAtMs), Signed(s.about.occurredAtMs);
    assert Position(r) + x == Decimal(r.seqNo) + [':'] + (m + [';'] + x);
    assert Position(s) + y == Decimal(s.seqNo) + [':'] + (n + [';'] + y);
    StopSplits(Decimal(r.seqNo), Decimal(s.seqNo), ':', m + [';'] + x, n + [';'] + y);
    DecimalInjective(r.seqNo, s.seqNo);
    StopSplits(m, n, ';', x, y);
    SignedInjective(r.about.occurredAtMs, s.about.occurredAtMs);
  }

  /** The fields the encoding holds. A missing step and a step named `<none>` read the same. */
  predicate SameEncoded(r: Record, s: Record)
  {
    && r.about.eventId == s.about.eventId && r.about.runId == s.about.runId && r.about.sessionId == s.about.sessionId
    && StepText(r.about.stepId) == StepText(s.about.stepId) && r.about.eventType == s.about.eventType
    && r.payloadHash == s.payloadHash && r.seqNo == s.seqNo && r.about.occurredAtMs == s.about.occurredAtMs
  }

  lemma {:induction false} FieldsSplit(f: seq<string>, g: seq<string>, x: string, y: string)
    requires |f| == |g| && FieldsThen(f, x) == FieldsThen(g, y)
    ensures f == g && x == y
    decreases |f|
  {
    if f != [] {
      FieldSplits(f[0], g[0], FieldsThen(f[1..], x), FieldsThen(g[1..], y));
      FieldsSplit(f[1..], g[1..], x, y);
      assert f == [f[0]] + f[1..] && g == [g[0]] + g[1..];
    }
  }

  lemma EncodeSplits(r: Record, s: Record, x: string, y: string)
    requires EncodeThen(r, x) == EncodeThen(s, y)
    ensures SameEncoded(r, s) && x == y
  {
    var f, g := FieldsOf(r), FieldsOf(s);
    FieldsSplit(f, g, Position(r) + x, Position(s) + y);
    assert f[0] == g[0] && f[1] == g[1] && f[2] == g[2] && f[3] == g[3] && f[4] == g[4] && f[5] == g[5];
    PositionSplits(r, s, x, y);
  }

  lemma EmptyStringEmptyList(records: seq<Record>)
    ensures Canonical(records) == "" <==> records == []
  {
    if records != [] {
      assert |Field(FieldsOf(records[0])[0])| > 0;
    }
  }

  ghost predicate SameTimeline(a: seq<Record>, b: seq<Record>)
  {
    |a| == |b| && forall i :: 0 <= i < |a| ==> SameEncoded(a[i], b[i])
  }

  lemma {:induction false} SameStringSameTimeline(a: seq<Record>, b: seq<Record>)
    requires Canonical(a) == Canonical(b)
    ensures SameTimeline(a, b)
    decreases |a|
  {
    EmptyStringEmptyList(a);
    EmptyStringEmptyList(b);
    if a != [] {
      EncodeSplits(a[0], b[0], Canonical(a[1..]), Canonical(b[1..]));
      SameStringSameTimeline(a[1..], b[1..]);
      forall i | 0 <= i < |a| ensures SameEncoded(a[i], b[i]) {
        if i > 0 {
          assert a[i] == a[1..][i - 1] && b[i] == b[1..][i - 1];
        }
      }
    }
  }

  lemma {:induction false} SameTimelineSameString(a: seq<Record>, b: seq<Record>)
    requires SameTimeline(a, b)
    ensures Canonical(a) == Canonical(b)
    decreases |a|
  {
    if a != [] {
      assert SameEncoded(a[0], b[0]) && FieldsOf(a[0]) == FieldsOf(b[0]);
      SameTimelineSameString(a[1..], b[1..]);
    }
  }

  /** The canonical string is uniquely decodable: it determines, and is determined by, the length of the list and
      every encoded field of every event. */
  lemma CanonicalDeterminesTimeline(a: seq<Record>, b: seq<Record>)
    ensures Canonical(a) == Canonical(b) <==> SameTimeline(a, b)
  {
    if Canonical(a) == Canonical(b) {
      SameStringSameTimeline(a, b);
    }
    if SameTimeline(a, b) {
      SameTimelineSameString(a, b);
    }
  }

  predicate NamesNoStepNone(records: seq<Record>)
  {
    forall i :: 0 <= i < |records| ==> records[i].about.stepId != Some("<none>")
  }

  predicate SameFacts(r: Record, s: Record)
  {
    r.about == s.about && r.seqNo == s.seqNo && r.payloadHash == s.payloadHash
  }

  ghost predicate SameFactsThroughout(a: seq<Record>, b: seq<Record>)
  {
    |a| == |b| && forall i :: 0 <= i < |a| ==> SameFacts(a[i], b[i])
  }

  lemma SameEncodedIff(r: Record, s: Record)
    requires r.about.stepId != Some("<none>") && s.about.stepId != Some("<none>")
    ensures SameEncoded(r, s) <==> SameFacts(r, s)
  {
  }

  lemma SameTimelineIff(a: seq<Record>, b: seq<Record>)
    requires NamesNoStepNone(a) && NamesNoStepNone(b)
    ensures SameTimeline(a, b) <==> SameFactsThroughout(a, b)
  {
    if |a| == |b| {
      forall i | 0 <= i < |a| ensures SameEncoded(a[i], b[i]) <==> SameFacts(a[i], b[i]) {
        SameEncodedIff(a[i], b[i]);
      }
    }
  }

  /** Unless a step is literally named `<none>`, the string determines everything but the payloads behind
      their hashes. */
  lemma CanonicalDeterminesFacts(a: seq<Record>, b: seq<Record>)
    requires NamesNoStepNone(a) && NamesNoStepNone(b)
    ensures Canonical(a) == Canonical(b) <==> SameFactsThroughout(a, b)
  {
    CanonicalDeterminesTimeline(a, b);
    SameTimelineIff(a, b);
  }

  /** The exception is real: a step named `<none>` is confused with no step at all. */
  lemma StepNamedNoneIsConfused(r: Record)
    requires r.about.stepId == None
    ensures var s := r.(about := r.about.(stepId := Some("<none>")));
            s != r && Canonical([r]) == Canonical([s])
  {
    SameTimelineSameString([r], [r.(about := r.about.(stepId := Some("<none>")))]);
  }
}
