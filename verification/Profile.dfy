// The managed block of a shell profile (internal/clientconnect/antigravity.go and
// antigravity_env_unix.go): found by its marker lines, rewritten at the end.
module Profile {

  datatype Span = Span(start: nat, end: nat)

  const START := "# >>> swobu antigravity >>>"
  const END := "# <<< swobu antigravity <<<"
  const KEY_EXPORT := "export GEMINI_API_KEY="
  const KEY_DEFAULT := "\"${GEMINI_API_KEY:-swobu-local}\""
  const KEY_LINE := KEY_EXPORT + KEY_DEFAULT
  const ENDPOINT_PREFIX := "export GOOGLE_GEMINI_BASE_URL='"

  // ------------------------------------------------------------- marker lines

  // The end of the line starting here: the next line feed, or the end of text.
  function LineEnd(raw: string, start: nat): (end: nat)
    requires start <= |raw|
    ensures start <= end <= |raw|
    ensures end < |raw| ==> raw[end] == '\n'
    ensures forall i :: start <= i < end ==> raw[i] != '\n'
    decreases |raw| - start
  {
    if start == |raw| || raw[start] == '\n' then start else LineEnd(raw, start + 1)
  }

  // The text from start to end is the marker.
  predicate LineIs(raw: string, start: nat, end: nat, marker: string)
    requires start <= end <= |raw|
  {
    end - start == |marker| && forall i :: 0 <= i < |marker| ==> raw[start + i] == marker[i]
  }

  lemma LineIsSlice(raw: string, start: nat, end: nat, marker: string)
    requires start <= end <= |raw|
    ensures LineIs(raw, start, end, marker) <==> raw[start..end] == marker
  {
    if raw[start..end] == marker {
      forall i | 0 <= i < |marker| ensures raw[start + i] == marker[i] {
        assert raw[start..end][i] == marker[i];
      }
    }
  }

  // The line from start to end, its line feed included, if it is the marker.
  function LineSpan(raw: string, start: nat, end: nat, marker: string): seq<Span>
    requires start <= end <= |raw|
  {
    if LineIs(raw, start, end, marker) then [Span(start, if end < |raw| then end + 1 else end)] else []
  }

  // The lines from start on that are exactly the marker.
  function SpansFrom(raw: string, start: nat, marker: string): seq<Span>
    requires start <= |raw|
    decreases |raw| - start
  {
    if start == |raw| then []
    else
      var end := LineEnd(raw, start);
      if end == |raw| then LineSpan(raw, start, end, marker)
      else LineSpan(raw, start, end, marker) + SpansFrom(raw, end + 1, marker)
  }

  function Spans(raw: string, marker: string): seq<Span> {
    SpansFrom(raw, 0, marker)
  }

  // The marker lines from start on, after those already found.
  function Collected(raw: string, start: nat, marker: string, found: seq<Span>): seq<Span>
    requires start <= |raw|
    decreases |raw| - start
  {
    if start == |raw| then found
    else
      var end := LineEnd(raw, start);
      var more :=
        if raw[start..end] == marker then found + [Span(start, if end < |raw| then end + 1 else end)] else found;
      if end == |raw| then more else Collected(raw, end + 1, marker, more)
  }

  lemma {:induction false} CollectedIs(raw: string, start: nat, marker: string, found: seq<Span>)
    requires start <= |raw|
    ensures Collected(raw, start, marker, found) == found + SpansFrom(raw, start, marker)
    decreases |raw| - start
  {
    if start < |raw| {
      var end := LineEnd(raw, start);
      var here := LineSpan(raw, start, end, marker);
      LineIsSlice(raw, start, end, marker);
      assert here == [] ==> found + here == found;
      if end < |raw| {
        CollectedIs(raw, end + 1, marker, found + here);
        Regroup(found, here, SpansFrom(raw, end + 1, marker));
      }
    }
  }

  method StandaloneLineSpans(raw: string, marker: string) returns (spans: seq<Span>)
    ensures spans == Spans(raw, marker)
  {
    spans := [];
    var start := 0;
    CollectedIs(raw, 0, marker, []);
    ghost var all := Collected(raw, 0, marker, []);
    while start < |raw|
      invariant start <= |raw|
      invariant Collected(raw, start, marker, spans) == all
    {
      var end := LineEnd(raw, start);
      if raw[start..end] == marker {
        var lineEnd := end;
        if lineEnd < |raw| {
          lineEnd := lineEnd + 1;
        }
        spans := spans + [Span(start, lineEnd)];
      }
      if end == |raw| {
        break;
      }
      start := end + 1;
    }
  }

  lemma Regroup<T>(a: seq<T>, b: seq<T>, c: seq<T>)
    ensures a + b + c == a + (b + c)
  {
  }

  predicate NoNewline(s: string) {
    forall i :: 0 <= i < |s| ==> s[i] != '\n'
  }

  predicate LineStart(raw: string, p: nat)
    requires p <= |raw|
  {
    p == 0 || raw[p - 1] == '\n'
  }

  // A whole line of the text, starting at p, is the marker.
  predicate MarkAt(raw: string, p: nat, marker: string) {
    && p < |raw| && p + |marker| <= |raw|
    && LineStart(raw, p)
    && LineIs(raw, p, p + |marker|, marker)
    && (p + |marker| < |raw| ==> raw[p + |marker|] == '\n')
  }

  // Where that line ends, its line feed included.
  function Stop(raw: string, p: nat, marker: string): nat {
    if p + |marker| < |raw| then p + |marker| + 1 else p + |marker|
  }

  lemma {:induction false} LineEndIs(raw: string, start: nat, end: nat)
    requires start <= end <= |raw| && (end < |raw| ==> raw[end] == '\n')
    requires forall i :: start <= i < end ==> raw[i] != '\n'
    ensures LineEnd(raw, start) == end
    decreases end - start
  {
    if start < end {
      LineEndIs(raw, start + 1, end);
    }
  }

  lemma MarkIsLine(raw: string, start: nat, marker: string)
    requires start < |raw| && LineStart(raw, start) && NoNewline(marker)
    ensures MarkAt(raw, start, marker) <==> LineIs(raw, start, LineEnd(raw, start), marker)
    ensures MarkAt(raw, start, marker) ==> start + |marker| == LineEnd(raw, start)
  {
    if MarkAt(raw, start, marker) {
      forall i | start <= i < start + |marker| ensures raw[i] != '\n' {
        assert raw[start + (i - start)] == marker[i - start];
      }
      LineEndIs(raw, start, start + |marker|);
    }
  }

  predicate Sorted(spans: seq<Span>) {
    forall i, j :: 0 <= i < j < |spans| ==> spans[i].start < spans[j].start
  }

  predicate Found(raw: string, from: nat, marker: string, s: Span) {
    from <= s.start && MarkAt(raw, s.start, marker) && s.end == Stop(raw, s.start, marker)
  }

  // The spans are exactly the marker lines from here on, in order.
  ghost predicate Covers(spans: seq<Span>, raw: string, from: nat, marker: string) {
    && Sorted(spans)
    && (forall i :: 0 <= i < |spans| ==> Found(raw, from, marker, spans[i]))
    && (forall p: nat :: from <= p && MarkAt(raw, p, marker) ==> Span(p, Stop(raw, p, marker)) in spans)
  }

  lemma {:induction false} SpansCover(raw: string, start: nat, marker: string)
    requires start <= |raw| && LineStart(raw, start) && NoNewline(marker)
    ensures Covers(SpansFrom(raw, start, marker), raw, start, marker)
    decreases |raw| - start
  {
    if start < |raw| {
      var end := LineEnd(raw, start);
      var here := LineSpan(raw, start, end, marker);
      MarkIsLine(raw, start, marker);
      NoMarkWithin(raw, start, end, marker);
      if end < |raw| {
        var later := SpansFrom(raw, end + 1, marker);
        SpansCover(raw, end + 1, marker);
        CoverMore(raw, start, end, marker, here, later);
        assert SpansFrom(raw, start, marker) == here + later;
      } else {
        CoverLast(raw, start, marker, here);
      }
    }
  }

  lemma CoverLast(raw: string, start: nat, marker: string, line: seq<Span>)
    requires start < |raw|
    requires line == if MarkAt(raw, start, marker) then [Span(start, Stop(raw, start, marker))] else []
    requires forall p: nat :: start < p <= |raw| ==> !MarkAt(raw, p, marker)
    ensures Covers(line, raw, start, marker)
  {
    forall p: nat | start <= p && MarkAt(raw, p, marker) ensures Span(p, Stop(raw, p, marker)) in line {
      assert p == start;
    }
  }

  lemma NoMarkWithin(raw: string, start: nat, end: nat, marker: string)
    requires start < |raw| && end == LineEnd(raw, start)
    ensures forall p: nat :: start < p <= end ==> !MarkAt(raw, p, marker)
  {
    forall p: nat | start < p <= end ensures !MarkAt(raw, p, marker) {
      assert raw[p - 1] != '\n';
    }
  }

  lemma CoverMore(raw: string, start: nat, end: nat, marker: string, line: seq<Span>, rest: seq<Span>)
    requires start <= end < |raw| && Covers(rest, raw, end + 1, marker)
    requires line == if MarkAt(raw, start, marker) then [Span(start, Stop(raw, start, marker))] else []
    requires forall p: nat :: start < p <= end ==> !MarkAt(raw, p, marker)
    ensures Covers(line + rest, raw, start, marker)
  {
    forall p: nat | start <= p && MarkAt(raw, p, marker) ensures Span(p, Stop(raw, p, marker)) in line + rest {
      assert p == start || end + 1 <= p;
    }
  }

  // -------------------------------------------------- none, and exactly one

  ghost predicate NoMark(raw: string, marker: string) {
    forall p: nat :: !MarkAt(raw, p, marker)
  }

  ghost predicate OneMark(raw: string, p: nat, marker: string) {
    MarkAt(raw, p, marker) && forall q: nat :: MarkAt(raw, q, marker) ==> q == p
  }

  lemma CoverNone(spans: seq<Span>, raw: string, marker: string)
    requires Covers(spans, raw, 0, marker)
    ensures spans == [] <==> NoMark(raw, marker)
  {
    if !NoMark(raw, marker) {
      var p: nat :| MarkAt(raw, p, marker);
      assert Span(p, Stop(raw, p, marker)) in spans;
    }
    if spans != [] {
      assert Found(raw, 0, marker, spans[0]);
    }
  }

  lemma CoverOne(spans: seq<Span>, raw: string, marker: string)
    requires Covers(spans, raw, 0, marker) && |spans| == 1
    ensures OneMark(raw, spans[0].start, marker) && spans[0].end == Stop(raw, spans[0].start, marker)
  {
    assert Found(raw, 0, marker, spans[0]);
    forall q: nat | MarkAt(raw, q, marker) ensures q == spans[0].start {
      assert Span(q, Stop(raw, q, marker)) in spans;
    }
  }

  lemma CoverMany(spans: seq<Span>, raw: string, marker: string)
    requires Covers(spans, raw, 0, marker) && |spans| > 1
    ensures spans[0].start != spans[1].start
    ensures MarkAt(raw, spans[0].start, marker) && MarkAt(raw, spans[1].start, marker)
  {
    assert Found(raw, 0, marker, spans[0]) && Found(raw, 0, marker, spans[1]);
  }

  lemma NoSpans(raw: string, marker: string)
    requires NoNewline(marker)
    ensures Spans(raw, marker) == [] <==> NoMark(raw, marker)
  {
    SpansCover(raw, 0, marker);
    CoverNone(Spans(raw, marker), raw, marker);
  }

  // One span is one marker line, and one marker line is one span.
  lemma OneSpan(raw: string, marker: string)
    requires NoNewline(marker) && |Spans(raw, marker)| == 1
    ensures var s := Spans(raw, marker)[0];
            OneMark(raw, s.start, marker) && s.end == Stop(raw, s.start, marker)
  {
    SpansCover(raw, 0, marker);
    CoverOne(Spans(raw, marker), raw, marker);
  }

  lemma SpanOfOne(raw: string, p: nat, marker: string)
    requires NoNewline(marker) && OneMark(raw, p, marker)
    ensures Spans(raw, marker) == [Span(p, Stop(raw, p, marker))]
  {
    SpansCover(raw, 0, marker);
    var spans := Spans(raw, marker);
    CoverNone(spans, raw, marker);
    if |spans| > 1 {
      CoverMany(spans, raw, marker);
    } else {
      CoverOne(spans, raw, marker);
    }
  }

  // ----------------------------------------------------------- the inspection

  datatype Change =
    | Endpoint(before: string, existed: bool, after: string)
    | KeyFallback
    | Precedence
    | BlockManaged

  datatype Inspection = Malformed | Inspected(changes: seq<Change>, next: string)

  // The position of the first occurrence.
  function IndexFrom(s: string, pattern: string, i: nat): (at: int)
    requires i <= |s|
    ensures at == -1 || (i <= at && at + |pattern| <= |s| && s[at..at + |pattern|] == pattern)
    decreases |s| - i
  {
    if i + |pattern| <= |s| && s[i..i + |pattern|] == pattern then i
    else if i == |s| then -1
    else IndexFrom(s, pattern, i + 1)
  }

  function Index(s: string, pattern: string): int {
    IndexFrom(s, pattern, 0)
  }

  // The endpoint a block sets, and whether it sets one.
  function BlockEndpoint(block: string): (string, bool) {
    var at := Index(block, ENDPOINT_PREFIX);
    if at < 0 then ("", false)
    else
      var rest := block[at + |ENDPOINT_PREFIX|..];
      var close := Index(rest, "'");
      if close < 0 then ("", false) else (rest[..close], true)
  }

  function EndpointLine(endpoint: string): string {
    ENDPOINT_PREFIX + endpoint + "'"
  }

  function Block(endpoint: string): string {
    START + "\n" + (KEY_LINE + "\n" + (EndpointLine(endpoint) + "\n" + (END + "\n")))
  }

  function Terminated(s: string): string {
    if s != "" && s[|s| - 1] != '\n' then s + "\n" else s
  }

  function AppendBlock(foreign: string, block: string, absent: bool): string {
    var kept := Terminated(foreign);
    (if absent && kept != "" then kept + "\n" else kept) + block
  }

  predicate MarkersFit(starts: seq<Span>, ends: seq<Span>) {
    |starts| <= 1 && |ends| <= 1 && |starts| == |ends| && (|starts| == 1 ==> starts[0].start <= ends[0].start)
  }

  predicate WellMarked(raw: string) {
    MarkersFit(Spans(raw, START), Spans(raw, END))
  }

  function EndpointChange(current: (string, bool), endpoint: string): seq<Change> {
    if current.1 && current.0 == endpoint then [] else [Endpoint(current.0, current.1, endpoint)]
  }

  // What the inspected block leaves to change, and the text around it.
  datatype Reading = Reading(foreign: string, endpoint: (string, bool), fallback: bool, final: bool)

  function ReadBlock(raw: string, start: nat, end: nat): Reading
    requires start <= end <= |raw|
  {
    var block := raw[start..end];
    Reading(raw[..start] + raw[end..], BlockEndpoint(block), Index(block, KEY_LINE) >= 0, end == |raw|)
  }

  function Changes(reading: Reading, endpoint: string): seq<Change> {
    EndpointChange(reading.endpoint, endpoint)
    + (if reading.fallback then [] else [KeyFallback])
    + (if reading.final then [] else [Precedence])
  }

  function Planned(raw: string, reading: Reading, endpoint: string, absent: bool): Inspection {
    var changes := Changes(reading, endpoint);
    var next := AppendBlock(reading.foreign, Block(endpoint), absent);
    Inspected(if raw != next && changes == [] then [BlockManaged] else changes, next)
  }

  // environment is the endpoint the shell already exports, if any.
  function Inspect(raw: string, environment: string, endpoint: string): Inspection {
    var starts, ends := Spans(raw, START), Spans(raw, END);
    if !WellMarked(raw) then Malformed
    else if starts == [] then Planned(raw, Reading(raw, (environment, environment != ""), false, true), endpoint, true)
    else
      MarkersLocated(raw, starts, ends);
      Planned(raw, ReadBlock(raw, starts[0].start, ends[0].end), endpoint, false)
  }

  lemma MarkersLocated(raw: string, starts: seq<Span>, ends: seq<Span>)
    requires starts == Spans(raw, START) && ends == Spans(raw, END) && |starts| == |ends| == 1
    ensures starts[0].start <= |raw| && ends[0].start <= ends[0].end <= |raw|
  {
    OneSpan(raw, START);
    OneSpan(raw, END);
  }

  method PlanChanges(raw: string, reading: Reading, endpoint: string, absent: bool) returns (r: Inspection)
    ensures r == Planned(raw, reading, endpoint, absent)
  {
    var changes := EndpointChange(reading.endpoint, endpoint);
    if !reading.fallback {
      changes := changes + [KeyFallback];
    }
    if !reading.final {
      changes := changes + [Precedence];
    }
    assert changes == Changes(reading, endpoint);
    var next := AppendBlock(reading.foreign, Block(endpoint), absent);
    if raw != next && changes == [] {
      changes := [BlockManaged];
    }
    r := Inspected(changes, next);
  }

  method InspectProfile(raw: string, environment: string, endpoint: string) returns (r: Inspection)
    ensures r == Inspect(raw, environment, endpoint)
  {
    var starts := StandaloneLineSpans(raw, START);
    var ends := StandaloneLineSpans(raw, END);
    if |starts| > 1 || |ends| > 1 || |starts| != |ends| {
      return Malformed;
    }
    var reading := Reading(raw, (environment, environment != ""), false, true);
    if |starts| == 1 {
      MarkersLocated(raw, starts, ends);
      if ends[0].start < starts[0].start {
        return Malformed;
      }
      reading := ReadBlock(raw, starts[0].start, ends[0].end);
    }
    r := PlanChanges(raw, reading, endpoint, starts == []);
  }
}
