// Rewriting a shell profile keeps foreign text and reaches a fixed point.
module ProfileLaws {
  import opened Profile

  // ------------------------------------------------ marker lines of joined text

  predicate Whole(s: string) {
    s == "" || s[|s| - 1] == '\n'
  }

  lemma MarkAvoids(raw: string, p: nat, marker: string, e: nat)
    requires MarkAt(raw, p, marker) && NoNewline(marker) && p <= e < |raw| && raw[e] == '\n'
    ensures p + |marker| <= e
  {
    forall i | p <= i < p + |marker| ensures raw[i] != '\n' {
      assert raw[p + (i - p)] == marker[i - p];
    }
  }

  lemma MarkInFirst(a: string, b: string, p: nat, marker: string)
    requires Whole(a) && NoNewline(marker) && p < |a|
    ensures MarkAt(a + b, p, marker) <==> MarkAt(a, p, marker)
  {
    var raw := a + b;
    assert forall i :: 0 <= i < |a| ==> raw[i] == a[i];
    if MarkAt(raw, p, marker) {
      MarkAvoids(raw, p, marker, |a| - 1);
    }
    if MarkAt(a, p, marker) {
      MarkAvoids(a, p, marker, |a| - 1);
    }
  }

  lemma MarkInSecond(a: string, b: string, q: nat, marker: string)
    requires Whole(a)
    ensures MarkAt(a + b, |a| + q, marker) <==> MarkAt(b, q, marker)
  {
    var raw := a + b;
    if MarkAt(raw, |a| + q, marker) {
      forall i | 0 <= i < |marker| ensures b[q + i] == marker[i] {
        assert raw[|a| + q + i] == marker[i];
      }
    }
  }

  lemma NoMarkJoins(a: string, b: string, marker: string)
    requires Whole(a) && NoNewline(marker) && NoMark(a, marker) && NoMark(b, marker)
    ensures NoMark(a + b, marker)
  {
    forall p: nat ensures !MarkAt(a + b, p, marker) {
      if p < |a| {
        MarkInFirst(a, b, p, marker);
      } else {
        MarkInSecond(a, b, p - |a|, marker);
      }
    }
  }

  lemma OneMarkFirst(a: string, b: string, p: nat, marker: string)
    requires Whole(a) && NoNewline(marker) && OneMark(a, p, marker) && NoMark(b, marker)
    ensures OneMark(a + b, p, marker)
  {
    MarkInFirst(a, b, p, marker);
    forall q: nat | MarkAt(a + b, q, marker) ensures q == p {
      if q < |a| {
        MarkInFirst(a, b, q, marker);
      } else {
        MarkInSecond(a, b, q - |a|, marker);
      }
    }
  }

  lemma OneMarkSecond(a: string, b: string, p: nat, marker: string)
    requires Whole(a) && NoNewline(marker) && NoMark(a, marker) && OneMark(b, p, marker)
    ensures OneMark(a + b, |a| + p, marker)
  {
    MarkInSecond(a, b, p, marker);
    forall q: nat | MarkAt(a + b, q, marker) ensures q == |a| + p {
      if q < |a| {
        MarkInFirst(a, b, q, marker);
      } else {
        MarkInSecond(a, b, q - |a|, marker);
      }
    }
  }

  // A line feed at the end of an unfinished line marks nothing new.
  lemma MarkUnfinished(s: string, p: nat, marker: string)
    requires s != "" && s[|s| - 1] != '\n' && NoNewline(marker) && MarkAt(s + "\n", p, marker)
    ensures MarkAt(s, p, marker)
  {
    var raw := s + "\n";
    assert (forall i :: 0 <= i < |s| ==> raw[i] == s[i]) && raw[|s|] == '\n';
    MarkAvoids(raw, p, marker, |s|);
  }

  lemma FinishedLine(s: string, marker: string)
    requires s != "" && s[|s| - 1] != '\n' && NoNewline(marker) && NoMark(s, marker)
    ensures NoMark(s + "\n", marker)
  {
    forall p: nat ensures !MarkAt(s + "\n", p, marker) {
      if MarkAt(s + "\n", p, marker) {
        MarkUnfinished(s, p, marker);
      }
    }
  }

  lemma LineMarks(line: string, marker: string)
    requires NoNewline(line) && NoNewline(marker)
    ensures line == marker ==> OneMark(line + "\n", 0, marker)
    ensures line != marker ==> NoMark(line + "\n", marker)
  {
    var raw := line + "\n";
    assert (forall i :: 0 <= i < |line| ==> raw[i] == line[i]) && raw[|line|] == '\n';
    forall p: nat | MarkAt(raw, p, marker) ensures p == 0 && line == marker {
      LineEndIs(raw, 0, |line|);
      MarkIsLine(raw, 0, marker);
      LineIsSlice(raw, 0, |line|, marker);
      assert raw[0..|line|] == line;
    }
    if line == marker {
      assert MarkAt(raw, 0, marker);
    }
  }

  // ------------------------------------------------------------ foreign text

  ghost predicate Unmarked(s: string) {
    NoMark(s, START) && NoMark(s, END)
  }

  lemma BeforeMark(raw: string, s: nat, p: nat, marker: string)
    requires s < |raw| && LineStart(raw, s) && OneMark(raw, p, marker) && s <= p && NoNewline(marker)
    ensures NoMark(raw[..s], marker) && Whole(raw[..s])
  {
    assert raw == raw[..s] + raw[s..];
    forall q: nat ensures !MarkAt(raw[..s], q, marker) {
      if q < s {
        MarkInFirst(raw[..s], raw[s..], q, marker);
      }
    }
  }

  lemma AfterMark(raw: string, end: nat, p: nat, marker: string)
    requires end <= |raw| && Whole(raw[..end]) && OneMark(raw, p, marker) && p < end && NoNewline(marker)
    ensures NoMark(raw[end..], marker)
  {
    assert raw == raw[..end] + raw[end..];
    forall q: nat ensures !MarkAt(raw[end..], q, marker) {
      MarkInSecond(raw[..end], raw[end..], q, marker);
    }
  }

  // The text around a managed block holds no marker line.
  lemma AroundIsUnmarked(raw: string, s: nat, e: nat)
    requires OneMark(raw, s, START) && OneMark(raw, e, END) && s <= e
    ensures Unmarked(raw[..s] + raw[Stop(raw, e, END)..])
  {
    var end := Stop(raw, e, END);
    BeforeMark(raw, s, s, START);
    BeforeMark(raw, s, e, END);
    if end < |raw| {
      assert raw[..end][end - 1] == '\n';
      AfterMark(raw, end, s, START);
      AfterMark(raw, end, e, END);
    }
    NoMarkJoins(raw[..s], raw[end..], START);
    NoMarkJoins(raw[..s], raw[end..], END);
  }

  // What is outside the managed block.
  function Foreign(raw: string): string
    requires WellMarked(raw)
  {
    var starts, ends := Spans(raw, START), Spans(raw, END);
    if starts == [] then raw
    else
      MarkersLocated(raw, starts, ends);
      raw[..starts[0].start] + raw[ends[0].end..]
  }

  lemma ForeignIsUnmarked(raw: string)
    requires WellMarked(raw)
    ensures Unmarked(Foreign(raw))
  {
    if Spans(raw, START) == [] {
      NoSpans(raw, START);
      NoSpans(raw, END);
    } else {
      AroundSpans(raw, Spans(raw, START), Spans(raw, END));
    }
  }

  lemma AroundSpans(raw: string, starts: seq<Span>, ends: seq<Span>)
    requires starts == Spans(raw, START) && ends == Spans(raw, END) && |starts| == |ends| == 1
    requires starts[0].start <= ends[0].start
    ensures starts[0].start <= |raw| && ends[0].end <= |raw| && Unmarked(raw[..starts[0].start] + raw[ends[0].end..])
  {
    OneSpan(raw, START);
    OneSpan(raw, END);
    AroundIsUnmarked(raw, starts[0].start, ends[0].start);
  }

  // Foreign text as it is kept: with its last line finished and, before a new
  // block, one empty line.
  function Kept(foreign: string, absent: bool): string {
    var kept := Terminated(foreign);
    if absent && kept != "" then kept + "\n" else kept
  }

  lemma KeptIsUnmarked(foreign: string, absent: bool)
    requires Unmarked(foreign)
    ensures Unmarked(Kept(foreign, absent)) && Whole(Kept(foreign, absent))
    ensures foreign <= Kept(foreign, absent)
  {
    if foreign != "" && foreign[|foreign| - 1] != '\n' {
      FinishedLine(foreign, START);
      FinishedLine(foreign, END);
    }
    var kept := Terminated(foreign);
    if absent && kept != "" {
      EmptyLine(START);
      EmptyLine(END);
      NoMarkJoins(kept, "\n", START);
      NoMarkJoins(kept, "\n", END);
    }
  }

  lemma EmptyLine(marker: string)
    requires NoNewline(marker) && marker != ""
    ensures NoMark("\n", marker)
  {
    LineMarks("", marker);
    assert "" + "\n" == "\n";
  }

  // ---------------------------------------------------------------- the block

  // No line of the endpoint's own text reads as a marker.
  ghost predicate Clean(endpoint: string) {
    Unmarked(EndpointLine(endpoint) + "\n")
  }

  lemma KeyLineIsUnmarked()
    ensures Unmarked(KEY_LINE + "\n")
  {
    assert NoNewline(KEY_EXPORT) && NoNewline(KEY_DEFAULT) && KEY_EXPORT[0] == 'e';
    assert NoNewline(KEY_LINE) && KEY_LINE[0] == 'e' && START[0] == END[0] == '#';
    LineMarks(KEY_LINE, START);
    LineMarks(KEY_LINE, END);
  }

  lemma MarkerLines()
    ensures OneMark(START + "\n", 0, START) && NoMark(START + "\n", END)
    ensures OneMark(END + "\n", 0, END) && NoMark(END + "\n", START)
  {
    assert START[2] != END[2];
    LineMarks(START, START);
    LineMarks(START, END);
    LineMarks(END, START);
    LineMarks(END, END);
  }

  lemma TailMarks(key: string, line: string, end: string)
    requires Whole(key) && Whole(line) && Unmarked(key) && Unmarked(line) && NoMark(end, START) && OneMark(end, 0, END)
    ensures NoMark(key + (line + end), START) && OneMark(key + (line + end), |key| + |line|, END)
  {
    NoMarkJoins(line, end, START);
    NoMarkJoins(key, line + end, START);
    OneMarkSecond(line, end, 0, END);
    OneMarkSecond(key, line + end, |line|, END);
  }

  lemma PartsMark(start: string, key: string, line: string, end: string)
    requires Whole(start) && OneMark(start, 0, START) && NoMark(start, END)
    requires Whole(key) && Whole(line) && Unmarked(key) && Unmarked(line) && NoMark(end, START) && OneMark(end, 0, END)
    ensures OneMark(start + (key + (line + end)), 0, START)
    ensures OneMark(start + (key + (line + end)), |start| + |key| + |line|, END)
  {
    TailMarks(key, line, end);
    OneMarkFirst(start, key + (line + end), 0, START);
    OneMarkSecond(start, key + (line + end), |key| + |line|, END);
  }

  // Where the end marker of a block is.
  function EndAt(endpoint: string): nat {
    |START + "\n"| + |KEY_LINE + "\n"| + |EndpointLine(endpoint) + "\n"|
  }

  lemma BlockMarks(endpoint: string)
    requires Clean(endpoint)
    ensures OneMark(Block(endpoint), 0, START) && OneMark(Block(endpoint), EndAt(endpoint), END)
    ensures EndAt(endpoint) + |END| + 1 == |Block(endpoint)|
  {
    KeyLineIsUnmarked();
    MarkerLines();
    PartsMark(START + "\n", KEY_LINE + "\n", EndpointLine(endpoint) + "\n", END + "\n");
  }

  // Unmarked text before a block leaves exactly the block's own markers.
  lemma OneBlock(kept: string, block: string, e: nat)
    requires Whole(kept) && Unmarked(kept) && OneMark(block, 0, START) && OneMark(block, e, END)
    ensures OneMark(kept + block, |kept|, START) && OneMark(kept + block, |kept| + e, END)
  {
    OneMarkSecond(kept, block, 0, START);
    OneMarkSecond(kept, block, e, END);
  }

  // --------------------------------------------------- reading the block back

  lemma {:induction false} IndexFinds(s: string, pattern: string, i: nat, at: nat)
    requires i <= at && at + |pattern| <= |s| && s[at..at + |pattern|] == pattern
    ensures 0 <= IndexFrom(s, pattern, i) <= at
    decreases at - i
  {
    if i < at && !(i + |pattern| <= |s| && s[i..i + |pattern|] == pattern) {
      IndexFinds(s, pattern, i + 1, at);
    }
  }

  predicate Occurs(s: string, pattern: string, i: nat) {
    i + |pattern| <= |s| && s[i..i + |pattern|] == pattern
  }

  lemma {:induction false} IndexIsFirst(s: string, pattern: string, i: nat, at: nat)
    requires i <= at && Occurs(s, pattern, at) && forall j :: i <= j < at ==> !Occurs(s, pattern, j)
    ensures IndexFrom(s, pattern, i) == at
    decreases at - i
  {
    if i < at {
      assert !Occurs(s, pattern, i);
      IndexIsFirst(s, pattern, i + 1, at);
    }
  }

  // A pattern whose character at d does not appear in the head, and which does
  // not hold the head's last character, does not start inside the head.
  lemma NotInHead(head: string, pattern: string, s: string, d: nat, j: nat)
    requires d < |pattern| && pattern[d] !in head && head <= s
    requires head != "" && head[|head| - 1] !in pattern && j < |head|
    ensures !Occurs(s, pattern, j)
  {
    if j + |pattern| <= |s| {
      var slice := s[j..j + |pattern|];
      if j + d < |head| {
        assert slice[d] == s[j + d] == head[j + d];
      } else {
        assert slice[|head| - 1 - j] == s[|head| - 1] == head[|head| - 1];
      }
    }
  }

  lemma FirstAfterHead(head: string, pattern: string, tail: string, d: nat)
    requires d < |pattern| && pattern[d] !in head
    requires head != "" && head[|head| - 1] !in pattern
    ensures Index(head + pattern + tail, pattern) == |head|
  {
    var s := head + pattern + tail;
    assert head <= s && s[|head|..|head| + |pattern|] == pattern;
    forall j | 0 <= j < |head| ensures !Occurs(s, pattern, j) {
      NotInHead(head, pattern, s, d, j);
    }
    IndexIsFirst(s, pattern, 0, |head|);
  }

  // The endpoint read back is the text up to its first quote.
  function Unquoted(endpoint: string): string {
    if endpoint == "" || endpoint[0] == '\'' then "" else [endpoint[0]] + Unquoted(endpoint[1..])
  }

  lemma {:induction false} UnquotedIs(endpoint: string)
    ensures Unquoted(endpoint) == endpoint <==> '\'' !in endpoint
    ensures Unquoted(endpoint) <= endpoint
    ensures '\'' !in Unquoted(endpoint)
    ensures |Unquoted(endpoint)| < |endpoint| ==> endpoint[|Unquoted(endpoint)|] == '\''
  {
    if endpoint != "" && endpoint[0] != '\'' {
      UnquotedIs(endpoint[1..]);
      assert endpoint == [endpoint[0]] + endpoint[1..];
    }
  }

  lemma FirstQuote(endpoint: string, tail: string)
    ensures var rest := endpoint + "'" + tail;
            Index(rest, "'") == |Unquoted(endpoint)| && rest[..|Unquoted(endpoint)|] == Unquoted(endpoint)
  {
    UnquotedIs(endpoint);
    var rest := endpoint + "'" + tail;
    var n := |Unquoted(endpoint)|;
    assert rest[n] == '\'';
    assert rest[n..n + 1] == "'";
    forall j | 0 <= j < n ensures !Occurs(rest, "'", j) {
      assert rest[j] == Unquoted(endpoint)[j];
      assert rest[j..j + 1][0] == rest[j];
    }
    IndexIsFirst(rest, "'", 0, n);
  }

  lemma BlockRegroups(start: string, key: string, prefix: string, endpoint: string, quote: string, feed: string, end: string)
    ensures start + (key + (prefix + endpoint + quote + feed + end))
         == (start + key) + prefix + (endpoint + quote + (feed + end))
  {
  }

  lemma LiteralsAvoidPrefix()
    ensures 'O' !in START && 'O' !in KEY_EXPORT && 'O' !in KEY_DEFAULT
  {
  }

  lemma PrefixLetters()
    ensures |ENDPOINT_PREFIX| > 8 && ENDPOINT_PREFIX[8] == 'O' && '\n' !in ENDPOINT_PREFIX
  {
  }

  lemma HeadLetters(start: string, key: string, c: char)
    requires c !in start && c !in key && c != '\n'
    ensures var head := (start + "\n") + (key + "\n"); c !in head && head[|head| - 1] == '\n'
  {
  }

  lemma ReadsBack(head: string, prefix: string, endpoint: string, tail: string, block: string)
    requires prefix == ENDPOINT_PREFIX && block == head + prefix + (endpoint + "'" + tail)
    requires Index(block, prefix) == |head|
    ensures BlockEndpoint(block) == (Unquoted(endpoint), true)
  {
    assert block[|head| + |prefix|..] == endpoint + "'" + tail;
    FirstQuote(endpoint, tail);
  }

  // A block read back gives its endpoint, up to a quote in it.
  lemma BlockReadsBack(endpoint: string)
    ensures BlockEndpoint(Block(endpoint)) == (Unquoted(endpoint), true)
  {
    var head := (START + "\n") + (KEY_LINE + "\n");
    var tail := "\n" + (END + "\n");
    BlockRegroups(START + "\n", KEY_LINE + "\n", ENDPOINT_PREFIX, endpoint, "'", "\n", END + "\n");
    LiteralsAvoidPrefix();
    PrefixLetters();
    HeadLetters(START, KEY_LINE, 'O');
    FirstAfterHead(head, ENDPOINT_PREFIX, endpoint + "'" + tail, 8);
    ReadsBack(head, ENDPOINT_PREFIX, endpoint, tail, Block(endpoint));
  }

  lemma MiddleSlice(a: string, b: string, c: string, d: string)
    ensures var s := a + (b + c + d); |a| + |b| <= |s| && s[|a|..|a| + |b|] == b
  {
  }

  lemma BlockHasFallback(endpoint: string)
    ensures Index(Block(endpoint), KEY_LINE) >= 0
  {
    var rest := EndpointLine(endpoint) + "\n" + (END + "\n");
    MiddleSlice(START + "\n", KEY_LINE, "\n", rest);
    IndexFinds(Block(endpoint), KEY_LINE, 0, |START + "\n"|);
  }

  // ------------------------------------------------------------- the fixed point

  lemma InspectsAt(raw: string, s: nat, e: nat, environment: string, endpoint: string)
    requires OneMark(raw, s, START) && OneMark(raw, e, END) && s <= e
    ensures Inspect(raw, environment, endpoint) == Planned(raw, ReadBlock(raw, s, Stop(raw, e, END)), endpoint, false)
  {
    SpanOfOne(raw, s, START);
    SpanOfOne(raw, e, END);
  }

  lemma InspectsOneBlock(kept: string, block: string, e: nat, raw: string, environment: string, endpoint: string)
    requires Whole(kept) && Unmarked(kept) && OneMark(block, 0, START) && OneMark(block, e, END)
    requires e + |END| + 1 == |block| && raw == kept + block
    ensures Inspect(raw, environment, endpoint) == Planned(raw, ReadBlock(raw, |kept|, |raw|), endpoint, false)
  {
    OneBlock(kept, block, e);
    InspectsAt(raw, |kept|, |kept| + e, environment, endpoint);
  }

  lemma ReadsOneBlock(kept: string, block: string, raw: string)
    requires raw == kept + block
    ensures ReadBlock(raw, |kept|, |raw|) == Reading(kept, BlockEndpoint(block), Index(block, KEY_LINE) >= 0, true)
  {
    assert raw[|kept|..|raw|] == block && raw[..|kept|] + raw[|raw|..] == kept;
  }

  lemma PlansNothing(raw: string, kept: string, found: string, endpoint: string)
    requires Whole(kept) && raw == kept + Block(endpoint)
    ensures Planned(raw, Reading(kept, (found, true), true, true), endpoint, false)
         == Inspected(EndpointChange((found, true), endpoint), raw)
  {
    var changes := EndpointChange((found, true), endpoint);
    assert Changes(Reading(kept, (found, true), true, true), endpoint) == changes + [] + [] == changes;
    assert AppendBlock(kept, Block(endpoint), false) == raw;
  }

  // Text ending in one managed block, nothing before it marked: inspected again
  // it stays as it is, and no change is reported but for a quoted endpoint.
  lemma BlockIsFixed(kept: string, raw: string, environment: string, endpoint: string)
    requires Whole(kept) && Unmarked(kept) && Clean(endpoint) && raw == kept + Block(endpoint)
    ensures Inspect(raw, environment, endpoint)
         == Inspected(EndpointChange((Unquoted(endpoint), true), endpoint), raw)
  {
    BlockMarks(endpoint);
    InspectsOneBlock(kept, Block(endpoint), EndAt(endpoint), raw, environment, endpoint);
    ReadsOneBlock(kept, Block(endpoint), raw);
    BlockReadsBack(endpoint);
    BlockHasFallback(endpoint);
    PlansNothing(raw, kept, Unquoted(endpoint), endpoint);
  }

  // What an inspection would write.
  function Rewritten(raw: string, endpoint: string): string
    requires WellMarked(raw)
  {
    Kept(Foreign(raw), Spans(raw, START) == []) + Block(endpoint)
  }

  lemma InspectionRewrites(raw: string, environment: string, endpoint: string)
    ensures Inspect(raw, environment, endpoint).Inspected? <==> WellMarked(raw)
    ensures WellMarked(raw) ==> Inspect(raw, environment, endpoint).next == Rewritten(raw, endpoint)
  {
  }

  // Nothing, or one or two line feeds.
  predicate FewFeeds(added: string) {
    added == "" || added == "\n" || added == "\n\n"
  }

  lemma KeptAddsFeeds(foreign: string, absent: bool, kept: string)
    requires kept == Kept(foreign, absent)
    ensures foreign <= kept && FewFeeds(kept[|foreign|..])
  {
    var added := kept[|foreign|..];
    assert kept == foreign + added;
    assert |added| == 1 ==> added == "\n";
    assert |added| == 2 ==> added == "\n\n";
  }

  lemma RewriteMarks(kept: string, endpoint: string, next: string)
    requires Whole(kept) && Unmarked(kept) && Clean(endpoint) && next == kept + Block(endpoint)
    ensures OneMark(next, |kept|, START) && OneMark(next, |kept| + EndAt(endpoint), END)
  {
    BlockMarks(endpoint);
    OneBlock(kept, Block(endpoint), EndAt(endpoint));
  }

  // Every well-marked profile is rewritten to text that ends with one managed
  // block: the foreign text, untouched and first, at most two line feeds, the
  // block, and no other marker line anywhere.
  lemma RewriteKeepsForeignText(raw: string, endpoint: string, foreign: string, kept: string, next: string)
    requires WellMarked(raw) && Clean(endpoint) && foreign == Foreign(raw)
    requires kept == Kept(foreign, Spans(raw, START) == []) && next == Rewritten(raw, endpoint)
    ensures next == kept + Block(endpoint)
    ensures foreign <= kept && FewFeeds(kept[|foreign|..]) && Whole(kept)
    ensures OneMark(next, |kept|, START) && OneMark(next, |kept| + EndAt(endpoint), END)
  {
    ForeignIsUnmarked(raw);
    KeptIsUnmarked(foreign, Spans(raw, START) == []);
    KeptAddsFeeds(foreign, Spans(raw, START) == [], kept);
    RewriteMarks(kept, endpoint, next);
  }

  // The rewritten profile inspected again, by any shell, is the same bytes.
  lemma RewriteIsStable(raw: string, environment: string, endpoint: string)
    requires WellMarked(raw) && Clean(endpoint)
    ensures Inspect(Rewritten(raw, endpoint), environment, endpoint)
         == Inspected(EndpointChange((Unquoted(endpoint), true), endpoint), Rewritten(raw, endpoint))
  {
    var absent := Spans(raw, START) == [];
    ForeignIsUnmarked(raw);
    KeptIsUnmarked(Foreign(raw), absent);
    BlockIsFixed(Kept(Foreign(raw), absent), Rewritten(raw, endpoint), environment, endpoint);
  }

  // ----------------------------------------------------- exactly when it is one

  lemma TwoMarks(raw: string, p: nat, q: nat, marker: string)
    requires NoNewline(marker) && MarkAt(raw, p, marker) && MarkAt(raw, q, marker) && p != q
    ensures |Spans(raw, marker)| > 1
  {
    NoSpans(raw, marker);
    if |Spans(raw, marker)| == 1 {
      OneSpan(raw, marker);
    }
  }

  // A marker line inside the endpoint line is one more in the text.
  lemma InnerMark(kept: string, start: string, key: string, line: string, end: string, p: nat, marker: string)
    requires Whole(kept) && Whole(start) && Whole(key) && Whole(line) && NoNewline(marker) && MarkAt(line, p, marker)
    ensures MarkAt(kept + (start + (key + (line + end))), |kept| + |start| + |key| + p, marker)
  {
    MarkInFirst(line, end, p, marker);
    MarkInSecond(key, line + end, p, marker);
    MarkInSecond(start, key + (line + end), |key| + p, marker);
    MarkInSecond(kept, start + (key + (line + end)), |start| + |key| + p, marker);
  }

  lemma OuterMarks(kept: string, start: string, key: string, line: string, end: string)
    requires Whole(kept) && Whole(start) && Whole(key) && Whole(line)
    requires MarkAt(start, 0, START) && MarkAt(end, 0, END)
    ensures MarkAt(kept + (start + (key + (line + end))), |kept|, START)
    ensures MarkAt(kept + (start + (key + (line + end))), |kept| + |start| + |key| + |line|, END)
  {
    MarkInFirst(start, key + (line + end), 0, START);
    MarkInSecond(kept, start + (key + (line + end)), 0, START);
    MarkInSecond(line, end, 0, END);
    MarkInSecond(key, line + end, |line|, END);
    MarkInSecond(start, key + (line + end), |key| + |line|, END);
    MarkInSecond(kept, start + (key + (line + end)), |start| + |key| + |line|, END);
  }

  lemma ExtraMark(kept: string, start: string, key: string, line: string, end: string, raw: string, marker: string,
                  outer: nat, p: nat)
    requires Whole(kept) && Whole(start) && Whole(key) && Whole(line) && NoNewline(marker)
    requires raw == kept + (start + (key + (line + end)))
    requires MarkAt(line, p, marker) && MarkAt(raw, outer, marker) && outer != |kept| + |start| + |key| + p
    ensures |Spans(raw, marker)| > 1
  {
    InnerMark(kept, start, key, line, end, p, marker);
    TwoMarks(raw, outer, |kept| + |start| + |key| + p, marker);
  }

  lemma UncleanIsMalformed(kept: string, start: string, key: string, line: string, end: string, raw: string)
    requires Whole(kept) && Whole(start) && Whole(key) && Whole(line) && start != ""
    requires MarkAt(start, 0, START) && MarkAt(end, 0, END) && !Unmarked(line)
    requires raw == kept + (start + (key + (line + end)))
    ensures |Spans(raw, START)| > 1 || |Spans(raw, END)| > 1
  {
    OuterMarks(kept, start, key, line, end);
    if !NoMark(line, START) {
      var p: nat :| MarkAt(line, p, START);
      ExtraMark(kept, start, key, line, end, raw, START, |kept|, p);
    } else {
      var p: nat :| MarkAt(line, p, END);
      ExtraMark(kept, start, key, line, end, raw, END, |kept| + |start| + |key| + |line|, p);
    }
  }

  // Inspecting the rewritten profile reports no change and the same bytes exactly
  // when the endpoint holds no quote and no line of it reads as a marker.
  lemma RewriteIsFixedPointExactlyWhen(raw: string, environment: string, endpoint: string)
    requires WellMarked(raw)
    ensures Inspect(Rewritten(raw, endpoint), environment, endpoint) == Inspected([], Rewritten(raw, endpoint))
       <==> '\'' !in endpoint && Clean(endpoint)
  {
    UnquotedIs(endpoint);
    if Clean(endpoint) {
      RewriteIsStable(raw, environment, endpoint);
    } else {
      var absent := Spans(raw, START) == [];
      ForeignIsUnmarked(raw);
      KeptIsUnmarked(Foreign(raw), absent);
      MarkerLines();
      UncleanIsMalformed(Kept(Foreign(raw), absent), START + "\n", KEY_LINE + "\n", EndpointLine(endpoint) + "\n",
                         END + "\n", Rewritten(raw, endpoint));
    }
  }

  // Inspecting, writing what it says and inspecting again, from any two shells:
  // the second inspection never fails on a clean endpoint, keeps every byte, and
  // reports no change exactly when the endpoint also holds no quote.
  lemma InspectTwice(raw: string, first: string, second: string, endpoint: string, next: string)
    requires Inspect(raw, first, endpoint).Inspected? && next == Inspect(raw, first, endpoint).next
    ensures Clean(endpoint) ==> Inspect(next, second, endpoint).Inspected? && Inspect(next, second, endpoint).next == next
    ensures Inspect(next, second, endpoint) == Inspected([], next) <==> '\'' !in endpoint && Clean(endpoint)
  {
    InspectionRewrites(raw, first, endpoint);
    RewriteIsFixedPointExactlyWhen(raw, second, endpoint);
    if Clean(endpoint) {
      RewriteIsStable(raw, second, endpoint);
    }
  }

  // An endpoint without line feeds is clean.
  lemma PlainEndpointIsClean(endpoint: string)
    requires NoNewline(endpoint)
    ensures Clean(endpoint)
  {
    var line := EndpointLine(endpoint);
    assert ENDPOINT_PREFIX[0] == 'e' && NoNewline(ENDPOINT_PREFIX);
    assert NoNewline(line) && line[0] == 'e' && START[0] == END[0] == '#';
    LineMarks(line, START);
    LineMarks(line, END);
  }
}
