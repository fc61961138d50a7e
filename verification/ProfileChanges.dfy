// What an inspection of a shell profile accepts and which changes it reports,
// stated on the text itself (internal/clientconnect/antigravity_env_unix.go).
module ProfileChanges {
  import opened Profile
  import opened ProfileLaws

  // --------------------------------------------------------- what is accepted

  lemma ManyOrNone(raw: string, marker: string)
    requires NoNewline(marker)
    ensures |Spans(raw, marker)| <= 1 <==> NoMark(raw, marker) || exists p :: OneMark(raw, p, marker)
    ensures |Spans(raw, marker)| == 1 <==> exists p :: OneMark(raw, p, marker)
  {
    NoSpans(raw, marker);
    if |Spans(raw, marker)| == 1 {
      OneSpan(raw, marker);
    }
    if p :| OneMark(raw, p, marker) {
      SpanOfOne(raw, p, marker);
    }
  }

  // One start line and one end line, in that order.
  ghost predicate Paired(raw: string) {
    exists s, e :: OneMark(raw, s, START) && OneMark(raw, e, END) && s <= e
  }

  lemma MarkersFitExactlyWhen(raw: string)
    ensures WellMarked(raw)
       <==> (NoMark(raw, START) && NoMark(raw, END)) || Paired(raw)
  {
    MarkerLines();
    ManyOrNone(raw, START);
    ManyOrNone(raw, END);
    NoSpans(raw, START);
    NoSpans(raw, END);
    if WellMarked(raw) && Spans(raw, START) != [] {
      OneSpan(raw, START);
      OneSpan(raw, END);
      var s, e := Spans(raw, START)[0].start, Spans(raw, END)[0].start;
      assert OneMark(raw, s, START) && OneMark(raw, e, END) && s <= e;
    }
    if s, e :| OneMark(raw, s, START) && OneMark(raw, e, END) && s <= e {
      SpanOfOne(raw, s, START);
      SpanOfOne(raw, e, END);
    }
  }

  // A profile is read exactly when it holds no marker line at all, or one of each
  // with the start not after the end; every other one is malformed.
  lemma InspectedExactlyWhen(raw: string, environment: string, endpoint: string)
    ensures Inspect(raw, environment, endpoint) != Malformed
       <==> (NoMark(raw, START) && NoMark(raw, END)) || Paired(raw)
  {
    MarkersFitExactlyWhen(raw);
  }

  // ----------------------------------------------------------- the block's text

  ghost predicate Holds(s: string, pattern: string) {
    exists i: nat :: Occurs(s, pattern, i)
  }

  predicate FirstAt(s: string, pattern: string, at: nat) {
    Occurs(s, pattern, at) && forall j :: 0 <= j < at ==> !Occurs(s, pattern, j)
  }

  // The block's first endpoint assignment is closed, and quotes this value.
  ghost predicate Sets(block: string, value: string) {
    exists at: nat :: FirstAt(block, ENDPOINT_PREFIX, at) && Quotes(block[at + |ENDPOINT_PREFIX|..], value)
  }

  predicate Quotes(rest: string, value: string) {
    |value| < |rest| && rest[..|value|] == value && rest[|value|] == '\'' && '\'' !in value
  }

  lemma {:induction false} IndexFirst(s: string, pattern: string, i: nat)
    requires i <= |s|
    ensures var at := IndexFrom(s, pattern, i);
            if at < 0 then forall j: nat :: i <= j ==> !Occurs(s, pattern, j)
            else i <= at && Occurs(s, pattern, at) && forall j :: i <= j < at ==> !Occurs(s, pattern, j)
    decreases |s| - i
  {
    if i < |s| && !Occurs(s, pattern, i) {
      IndexFirst(s, pattern, i + 1);
    }
  }

  lemma IndexTells(s: string, pattern: string)
    ensures Index(s, pattern) >= 0 <==> Holds(s, pattern)
    ensures Index(s, pattern) >= 0 ==> FirstAt(s, pattern, Index(s, pattern))
  {
    IndexFirst(s, pattern, 0);
  }

  lemma QuoteOccurs(s: string, j: nat)
    ensures Occurs(s, "'", j) <==> j < |s| && s[j] == '\''
  {
    if j < |s| {
      assert s[j..j + 1] == [s[j]];
    }
  }

  lemma QuotedTo(rest: string, value: string)
    ensures Quotes(rest, value) <==> Index(rest, "'") >= 0 && value == rest[..Index(rest, "'")]
  {
    var close := Index(rest, "'");
    IndexFirst(rest, "'", 0);
    forall j: nat ensures Occurs(rest, "'", j) <==> j < |rest| && rest[j] == '\'' {
      QuoteOccurs(rest, j);
    }
    if Quotes(rest, value) {
      assert Occurs(rest, "'", |value|);
      assert forall j :: 0 <= j < |value| ==> rest[j] == value[j] != '\'';
    }
    if close >= 0 && value == rest[..close] {
      assert forall j :: 0 <= j < |value| ==> !Occurs(rest, "'", j) && value[j] == rest[j];
    }
  }

  // The endpoint read from a block is the one it sets, if it sets one.
  lemma EndpointReadIs(block: string)
    ensures BlockEndpoint(block).1 ==> Sets(block, BlockEndpoint(block).0)
    ensures forall v :: Sets(block, v) ==> BlockEndpoint(block) == (v, true)
    ensures (forall v :: !Sets(block, v)) ==> BlockEndpoint(block) == ("", false)
  {
    var at := Index(block, ENDPOINT_PREFIX);
    IndexTells(block, ENDPOINT_PREFIX);
    if at >= 0 {
      var rest := block[at + |ENDPOINT_PREFIX|..];
      forall v ensures Quotes(rest, v) <==> Index(rest, "'") >= 0 && v == rest[..Index(rest, "'")] {
        QuotedTo(rest, v);
      }
      forall v ensures Sets(block, v) <==> Quotes(rest, v) {
        SetsAt(block, at, v);
      }
      if Index(rest, "'") >= 0 {
        assert Sets(block, rest[..Index(rest, "'")]);
      }
    } else {
      assert forall v :: Sets(block, v) ==> Holds(block, ENDPOINT_PREFIX);
    }
  }

  lemma SetsAt(block: string, at: nat, v: string)
    requires FirstAt(block, ENDPOINT_PREFIX, at)
    ensures Sets(block, v) <==> Quotes(block[at + |ENDPOINT_PREFIX|..], v)
  {
    if i: nat :| FirstAt(block, ENDPOINT_PREFIX, i) && Quotes(block[i + |ENDPOINT_PREFIX|..], v) {
      assert i == at;
    }
  }

  // -------------------------------------------------------- what is reported

  // The endpoint changes among these.
  predicate OnlyEndpoint(changes: seq<Change>, before: string, existed: bool, after: string) {
    && Endpoint(before, existed, after) in changes
    && forall c :: c in changes && c.Endpoint? ==> c == Endpoint(before, existed, after)
  }

  predicate NoEndpoint(changes: seq<Change>) {
    forall c :: c in changes ==> !c.Endpoint?
  }

  lemma ReportsOf(raw: string, reading: Reading, endpoint: string, absent: bool, r: Inspection)
    requires r == Planned(raw, reading, endpoint, absent)
    ensures if reading.endpoint == (endpoint, true) then NoEndpoint(r.changes)
            else OnlyEndpoint(r.changes, reading.endpoint.0, reading.endpoint.1, endpoint)
    ensures KeyFallback in r.changes <==> !reading.fallback
    ensures Precedence in r.changes <==> !reading.final
    ensures r.changes == [] ==> r.next == raw
    ensures BlockManaged in r.changes ==> r.changes == [BlockManaged] && r.next != raw
  {
  }

  // A profile without markers: the shell's own endpoint is what the change is
  // from, and the key fallback is always new.
  lemma UnmarkedChanges(raw: string, environment: string, endpoint: string, r: Inspection)
    requires NoMark(raw, START) && NoMark(raw, END) && r == Inspect(raw, environment, endpoint)
    ensures r.Inspected? && r.next == AppendBlock(raw, Block(endpoint), true)
    ensures if environment == endpoint != "" then NoEndpoint(r.changes)
            else OnlyEndpoint(r.changes, environment, environment != "", endpoint)
    ensures KeyFallback in r.changes && Precedence !in r.changes && BlockManaged !in r.changes
  {
    UnmarkedInspects(raw, environment, endpoint);
    ReportsOf(raw, Reading(raw, (environment, environment != ""), false, true), endpoint, true, r);
  }

  lemma UnmarkedInspects(raw: string, environment: string, endpoint: string)
    requires NoMark(raw, START) && NoMark(raw, END)
    ensures Inspect(raw, environment, endpoint)
         == Planned(raw, Reading(raw, (environment, environment != ""), false, true), endpoint, true)
  {
    MarkerLines();
    NoSpans(raw, START);
    NoSpans(raw, END);
  }

  // A profile with one block: each change is reported exactly when the block's
  // text calls for it, and no change means nothing to write.
  lemma MarkedChanges(raw: string, s: nat, e: nat, environment: string, endpoint: string, stop: nat, block: string,
                      r: Inspection)
    requires OneMark(raw, s, START) && OneMark(raw, e, END) && s <= e
    requires stop == Stop(raw, e, END) && block == raw[s..stop] && r == Inspect(raw, environment, endpoint)
    ensures r.Inspected? && r.next == AppendBlock(raw[..s] + raw[stop..], Block(endpoint), false)
    ensures Sets(block, endpoint) ==> NoEndpoint(r.changes)
    ensures forall v :: Sets(block, v) && v != endpoint ==> OnlyEndpoint(r.changes, v, true, endpoint)
    ensures (forall v :: !Sets(block, v)) ==> OnlyEndpoint(r.changes, "", false, endpoint)
    ensures KeyFallback in r.changes <==> !Holds(block, KEY_LINE)
    ensures Precedence in r.changes <==> stop < |raw|
    ensures r.changes == [] ==> r.next == raw
    ensures BlockManaged in r.changes ==> r.changes == [BlockManaged] && r.next != raw
  {
    InspectsAt(raw, s, e, environment, endpoint);
    EndpointReadIs(block);
    IndexTells(block, KEY_LINE);
    ReportsOf(raw, ReadBlock(raw, s, stop), endpoint, false, r);
  }
}
