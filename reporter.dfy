/**
 * `Reporter` (api_hunter/reporter.py): every report lists the endpoints by
 * descending confidence, and the text reports group them into high, medium
 * and low confidence. Clock readings, `:.2f` formatting (`fmt`) and the
 * Python rendering of a headers dictionary (`headersRepr`) are parameters.
 */
module Reporter {
  import opened Text
  import opened Seqs
  import opened Endpoints

  const NoEndpointsMessage: string := "No API endpoints discovered."

  // ---------------------------------------------------------------------------
  // Ordering

  predicate NonIncreasing(s: seq<Endpoint>) {
    forall i, j :: 0 <= i < j < |s| ==> s[i].confidence >= s[j].confidence
  }

  /** Place `x` after every record at least as confident, before the first less confident one. */
  function Insert(s: seq<Endpoint>, x: Endpoint): seq<Endpoint>
    decreases |s|
  {
    if s == [] then [x]
    else if s[0].confidence >= x.confidence then [s[0]] + Insert(s[1..], x)
    else [x] + s
  }

  /** The records in order of decreasing confidence; records of equal confidence keep their input order, as Python's stable sort keeps them. */
  function SortByConfidence(s: seq<Endpoint>): seq<Endpoint>
    decreases |s|
  {
    if s == [] then [] else Insert(SortByConfidence(s[..|s| - 1]), s[|s| - 1])
  }

  lemma {:induction false} InsertPermutes(s: seq<Endpoint>, x: Endpoint)
    ensures multiset(Insert(s, x)) == multiset(s) + multiset{x}
    ensures |Insert(s, x)| == |s| + 1
    decreases |s|
  {
    if s != [] && s[0].confidence >= x.confidence {
      InsertPermutes(s[1..], x);
      assert s == [s[0]] + s[1..];
    }
  }

  /** No record of `s` is more confident than `b`. */
  predicate AtMost(s: seq<Endpoint>, b: real) {
    forall i :: 0 <= i < |s| ==> s[i].confidence <= b
  }

  lemma {:induction false} InsertAtMost(s: seq<Endpoint>, x: Endpoint, b: real)
    requires AtMost(s, b) && x.confidence <= b
    ensures AtMost(Insert(s, x), b)
    decreases |s|
  {
    if s != [] && s[0].confidence >= x.confidence {
      InsertAtMost(s[1..], x, b);
      var r := [s[0]] + Insert(s[1..], x);
      assert forall i :: 1 <= i < |r| ==> r[i] == Insert(s[1..], x)[i - 1];
    }
  }

  lemma ConsNonIncreasing(h: Endpoint, rest: seq<Endpoint>)
    requires NonIncreasing(rest) && AtMost(rest, h.confidence)
    ensures NonIncreasing([h] + rest)
  {
    var r := [h] + rest;
    forall i, j | 0 <= i < j < |r| ensures r[i].confidence >= r[j].confidence {
      assert r[j] == rest[j - 1];
      if i > 0 {
        assert r[i] == rest[i - 1];
      }
    }
  }

  lemma {:induction false} InsertKeepsOrder(s: seq<Endpoint>, x: Endpoint)
    requires NonIncreasing(s)
    ensures NonIncreasing(Insert(s, x))
    decreases |s|
  {
    if s == [] {
    } else if s[0].confidence >= x.confidence {
      var tail := s[1..];
      assert NonIncreasing(tail) by {
        forall i, j | 0 <= i < j < |tail| ensures tail[i].confidence >= tail[j].confidence {
          assert tail[i] == s[i + 1] && tail[j] == s[j + 1];
        }
      }
      assert AtMost(tail, s[0].confidence) by {
        forall i | 0 <= i < |tail| ensures tail[i].confidence <= s[0].confidence {
          assert tail[i] == s[i + 1];
        }
      }
      InsertKeepsOrder(tail, x);
      InsertAtMost(tail, x, s[0].confidence);
      ConsNonIncreasing(s[0], Insert(tail, x));
    } else {
      assert AtMost(s, x.confidence) by {
        forall i | 0 <= i < |s| ensures s[i].confidence <= x.confidence {
          assert s[0].confidence >= s[i].confidence || i == 0;
        }
      }
      ConsNonIncreasing(x, s);
    }
  }

  /** The sorted list is a rearrangement of the input, in non-increasing confidence. */
  lemma {:induction false} SortByConfidenceSpec(s: seq<Endpoint>)
    ensures multiset(SortByConfidence(s)) == multiset(s)
    ensures |SortByConfidence(s)| == |s|
    ensures NonIncreasing(SortByConfidence(s))
    decreases |s|
  {
    if s != [] {
      var init := s[..|s| - 1];
      SortByConfidenceSpec(init);
      InsertPermutes(SortByConfidence(init), s[|s| - 1]);
      InsertKeepsOrder(SortByConfidence(init), s[|s| - 1]);
      assert s == init + [s[|s| - 1]];
    }
  }

  function HasConfidence(c: real): Endpoint -> bool {
    (e: Endpoint) => e.confidence == c
  }

  lemma FilterSingle(x: Endpoint, c: real)
    ensures Filter([x], HasConfidence(c)) == if x.confidence == c then [x] else []
  {
    var none: seq<Endpoint> := [];
    assert [x][..0] == none;
  }

  lemma {:induction false} InsertStable(s: seq<Endpoint>, x: Endpoint, c: real)
    requires NonIncreasing(s)
    ensures Filter(Insert(s, x), HasConfidence(c)) ==
      Filter(s, HasConfidence(c)) + (if x.confidence == c then [x] else [])
    decreases |s|
  {
    if s == [] {
      FilterSingle(x, c);
    } else if s[0].confidence >= x.confidence {
      InsertStable(s[1..], x, c);
      InsertBehindHead(s, x, c);
    } else {
      InsertInFront(s, x, c);
    }
  }

  lemma InsertBehindHead(s: seq<Endpoint>, x: Endpoint, c: real)
    requires s != [] && s[0].confidence >= x.confidence
    requires Filter(Insert(s[1..], x), HasConfidence(c)) ==
      Filter(s[1..], HasConfidence(c)) + (if x.confidence == c then [x] else [])
    ensures Filter(Insert(s, x), HasConfidence(c)) ==
      Filter(s, HasConfidence(c)) + (if x.confidence == c then [x] else [])
  {
    var p := HasConfidence(c);
    var extra: seq<Endpoint> := if x.confidence == c then [x] else [];
    var head: seq<Endpoint> := if p(s[0]) then [s[0]] else [];
    var inserted := Insert(s[1..], x);
    assert Insert(s, x) == [s[0]] + inserted;
    FilterCons(s[0], inserted, p);
    assert s == [s[0]] + s[1..];
    FilterCons(s[0], s[1..], p);
    AppendAssoc(head, Filter(s[1..], p), extra);
  }

  lemma InsertInFront(s: seq<Endpoint>, x: Endpoint, c: real)
    requires NonIncreasing(s) && s != [] && s[0].confidence < x.confidence
    ensures Filter(Insert(s, x), HasConfidence(c)) ==
      Filter(s, HasConfidence(c)) + (if x.confidence == c then [x] else [])
  {
    var p := HasConfidence(c);
    assert Insert(s, x) == [x] + s;
    FilterAppend([x], s, p);
    FilterSingle(x, c);
    if x.confidence == c {
      forall e | e in s ensures !p(e) {
        var k :| 0 <= k < |s| && s[k] == e;
        assert s[0].confidence >= s[k].confidence;
      }
      FilterNone(s, p);
    }
  }

  /** The sort is stable: records of equal confidence keep their input order. */
  lemma {:induction false} SortByConfidenceStable(s: seq<Endpoint>, c: real)
    ensures Filter(SortByConfidence(s), HasConfidence(c)) == Filter(s, HasConfidence(c))
    decreases |s|
  {
    if s != [] {
      var init := s[..|s| - 1];
      SortByConfidenceStable(init, c);
      SortByConfidenceSpec(init);
      InsertStable(SortByConfidence(init), s[|s| - 1], c);
    }
  }

  // ---------------------------------------------------------------------------
  // Confidence levels

  predicate IsHigh(e: Endpoint) { e.confidence >= 0.8 }
  predicate IsMedium(e: Endpoint) { 0.5 <= e.confidence < 0.8 }
  predicate IsLow(e: Endpoint) { e.confidence < 0.5 }

  /** `high_conf`, `medium_conf` and `low_conf` over the sorted list. */
  function High(s: seq<Endpoint>): seq<Endpoint> { Filter(s, IsHigh) }
  function Medium(s: seq<Endpoint>): seq<Endpoint> { Filter(s, IsMedium) }
  function Low(s: seq<Endpoint>): seq<Endpoint> { Filter(s, IsLow) }

  /** Every record lands in exactly one level, with its multiplicity, and nothing else does. */
  lemma LevelsPartition(s: seq<Endpoint>)
    ensures multiset(High(s)) + multiset(Medium(s)) + multiset(Low(s)) == multiset(s)
    ensures |High(s)| + |Medium(s)| + |Low(s)| == |s|
  {
    LevelsMultiset(s);
    assert |multiset(High(s)) + multiset(Medium(s)) + multiset(Low(s))| == |multiset(s)|;
  }

  lemma {:induction false} LevelsMultiset(s: seq<Endpoint>)
    ensures multiset(High(s)) + multiset(Medium(s)) + multiset(Low(s)) == multiset(s)
    decreases |s|
  {
    if s != [] {
      var init, x := s[..|s| - 1], s[|s| - 1];
      LevelsMultiset(init);
      assert s == init + [x];
      LevelsSnoc(init, x);
    }
  }

  /** A record appended to the list lands in exactly one level. */
  lemma LevelsSnoc(init: seq<Endpoint>, x: Endpoint)
    ensures multiset(High(init + [x])) + multiset(Medium(init + [x])) + multiset(Low(init + [x]))
      == multiset(High(init)) + multiset(Medium(init)) + multiset(Low(init)) + multiset{x}
  {
    FilterSnoc(init, x, IsHigh);
    FilterSnoc(init, x, IsMedium);
    FilterSnoc(init, x, IsLow);
  }

  /** A record is in exactly one level, the one its confidence names. */
  lemma LevelMembership(s: seq<Endpoint>, e: Endpoint)
    requires e in s
    ensures e in High(s) <==> IsHigh(e)
    ensures e in Medium(s) <==> IsMedium(e)
    ensures e in Low(s) <==> IsLow(e)
    ensures (IsHigh(e) && !IsMedium(e) && !IsLow(e)) || (!IsHigh(e) && IsMedium(e) && !IsLow(e))
      || (!IsHigh(e) && !IsMedium(e) && IsLow(e))
  {
    if IsHigh(e) { FilterKeeps(s, IsHigh, e); }
    if IsMedium(e) { FilterKeeps(s, IsMedium, e); }
    if IsLow(e) { FilterKeeps(s, IsLow, e); }
  }

  /** In a sorted list the levels are consecutive blocks: high, then medium, then low. */
  lemma {:induction false} SortedLevelsAreBlocks(s: seq<Endpoint>)
    requires NonIncreasing(s)
    ensures High(s) + Medium(s) + Low(s) == s
    decreases |s|
  {
    if s != [] {
      var init := s[..|s| - 1];
      assert s == init + [s[|s| - 1]];
      SortedInit(s);
      SortedLevelsAreBlocks(init);
      LevelsStep(init, s[|s| - 1]);
    }
  }

  /** Appending a record no more confident than any before it keeps the levels in blocks. */
  lemma LevelsStep(init: seq<Endpoint>, x: Endpoint)
    requires High(init) + Medium(init) + Low(init) == init
    requires forall e :: e in init ==> e.confidence >= x.confidence
    ensures High(init + [x]) + Medium(init + [x]) + Low(init + [x]) == init + [x]
  {
    var h, m, l := High(init), Medium(init), Low(init);
    FilterSnoc(init, x, IsHigh);
    FilterSnoc(init, x, IsMedium);
    FilterSnoc(init, x, IsLow);
    if IsHigh(x) {
      FilterNone(init, IsMedium);
      FilterNone(init, IsLow);
      assert h == init by { assert h + m + l == h; }
      assert Medium(init + [x]) == [] && Low(init + [x]) == [];
    } else if IsMedium(x) {
      FilterNone(init, IsLow);
      assert h + m == init by { assert h + m + l == h + m; }
      assert High(init + [x]) == h && Low(init + [x]) == [];
      AppendAssoc(h, m, [x]);
    } else {
      assert High(init + [x]) == h && Medium(init + [x]) == m;
    }
  }

  /** Dropping the last record of a sorted list leaves a sorted list whose records all dominate it. */
  lemma SortedInit(s: seq<Endpoint>)
    requires NonIncreasing(s) && s != []
    ensures NonIncreasing(s[..|s| - 1])
    ensures forall e :: e in s[..|s| - 1] ==> e.confidence >= s[|s| - 1].confidence
  {
    var init := s[..|s| - 1];
    forall e | e in init ensures e.confidence >= s[|s| - 1].confidence {
      var k :| 0 <= k < |init| && init[k] == e;
      assert s[k] == e;
    }
  }

  /** The level counts of a report add up to its total. */
  lemma LevelCountsAddUp(endpoints: seq<Endpoint>)
    ensures var sorted := SortByConfidence(endpoints);
      |High(sorted)| + |Medium(sorted)| + |Low(sorted)| == |endpoints|
  {
    SortByConfidenceSpec(endpoints);
    LevelsPartition(SortByConfidence(endpoints));
  }

  /** The CSS class of the HTML report, which names the same level as the text reports. */
  function ConfidenceClass(e: Endpoint): (cls: string)
    ensures cls == "high-confidence" <==> IsHigh(e)
    ensures cls == "medium-confidence" <==> IsMedium(e)
    ensures cls == "low-confidence" <==> IsLow(e)
  {
    if e.confidence >= 0.8 then "high-confidence"
    else if e.confidence >= 0.5 then "medium-confidence"
    else "low-confidence"
  }

  // ---------------------------------------------------------------------------
  // JSON report

  /** `report_data` before it is serialised. */
  datatype JsonReport = JsonReport(timestamp: string, totalEndpoints: nat, endpoints: seq<Endpoint>)

  /** `generate_json_report`: copy every record, then sort the copies. */
  method GenerateJsonReport(endpoints: seq<Endpoint>, timestamp: string) returns (report: JsonReport)
    ensures report.timestamp == timestamp && report.totalEndpoints == |endpoints|
    ensures report.endpoints == SortByConfidence(endpoints)
    ensures multiset(report.endpoints) == multiset(endpoints) && NonIncreasing(report.endpoints)
  {
    var entries: seq<Endpoint> := [];
    for i := 0 to |endpoints|
      invariant entries == endpoints[..i]
    {
      entries := entries + [endpoints[i]];
    }
    assert entries == endpoints;
    SortByConfidenceSpec(endpoints);
    report := JsonReport(timestamp, |endpoints|, SortByConfidence(entries));
  }

  // ---------------------------------------------------------------------------
  // Simple list

  function Urls(s: seq<Endpoint>): (urls: seq<string>)
    ensures |urls| == |s| && forall i :: 0 <= i < |s| ==> urls[i] == s[i].url
  {
    seq(|s|, i requires 0 <= i < |s| => s[i].url)
  }

  /** The lines of `generate_simple_list`: two comment lines, a blank line, then the URLs by descending confidence. */
  function SimpleListLines(endpoints: seq<Endpoint>, now: string): seq<string> {
    SimpleListHead(|endpoints|, now) + Urls(SortByConfidence(endpoints))
  }

  function SimpleListHead(total: nat, now: string): seq<string> {
    ["# API Endpoints discovered on " + now, "# Total endpoints: " + NatToString(total), ""]
  }

  /** `generate_simple_list`; `now` is the formatted clock reading. */
  method GenerateSimpleList(endpoints: seq<Endpoint>, now: string) returns (output: string)
    ensures endpoints == [] ==> output == NoEndpointsMessage
    ensures endpoints != [] ==> output == Join(SimpleListLines(endpoints, now), "\n")
  {
    if endpoints == [] {
      return NoEndpointsMessage;
    }
    var sorted := SortByConfidence(endpoints);
    var lines := SimpleListHead(|endpoints|, now);
    assert |sorted| == |endpoints| by { SortByConfidenceSpec(endpoints); }
    ghost var all := SimpleListLines(endpoints, now);
    for i := 0 to |sorted|
      invariant lines == all[..3 + i]
    {
      lines := lines + [sorted[i].url];
    }
    assert lines == all;
    output := Join(lines, "\n");
  }

  /**
   * Read back line by line, a simple list (whose date and URLs hold no line
   * break) is the two comment lines, a blank line, and exactly the URLs of
   * the sorted endpoints.
   */
  lemma SimpleListReadsBack(endpoints: seq<Endpoint>, now: string)
    requires '\n' !in now
    requires forall e :: e in endpoints ==> '\n' !in e.url
    ensures var lines := Split(Join(SimpleListLines(endpoints, now), "\n"), "\n");
      && |lines| == |endpoints| + 3
      && lines[0] == "# API Endpoints discovered on " + now
      && lines[1] == "# Total endpoints: " + NatToString(|endpoints|)
      && lines[2] == ""
      && lines[3..] == Urls(SortByConfidence(endpoints))
  {
    SimpleListLinesHaveNoBreak(endpoints, now);
    SortByConfidenceSpec(endpoints);
    SplitJoin(SimpleListLines(endpoints, now), '\n');
  }

  /** No line of `lines` holds a line break. */
  predicate Unbroken(lines: seq<string>) {
    forall k :: 0 <= k < |lines| ==> '\n' !in lines[k]
  }

  lemma UnbrokenAppend(a: seq<string>, b: seq<string>)
    requires Unbroken(a) && Unbroken(b)
    ensures Unbroken(a + b)
  {
    forall k | 0 <= k < |a + b| ensures '\n' !in (a + b)[k] {
      if k < |a| {
        assert (a + b)[k] == a[k];
      } else {
        assert (a + b)[k] == b[k - |a|];
      }
    }
  }

  lemma SimpleListLinesHaveNoBreak(endpoints: seq<Endpoint>, now: string)
    requires '\n' !in now
    requires forall e :: e in endpoints ==> '\n' !in e.url
    ensures Unbroken(SimpleListLines(endpoints, now))
  {
    var sorted := SortByConfidence(endpoints);
    SortByConfidenceSpec(endpoints);
    UrlsHaveNoBreak(sorted);
    SimpleListHeadUnbroken(|endpoints|, now);
    UnbrokenAppend(SimpleListHead(|endpoints|, now), Urls(sorted));
  }

  lemma SimpleListHeadUnbroken(total: nat, now: string)
    requires '\n' !in now
    ensures Unbroken(SimpleListHead(total, now))
  {
    var digits := NatToString(total);
    assert '\n' !in digits;
    assert '\n' !in "# Total endpoints: " + digits;
    assert '\n' !in "# API Endpoints discovered on " + now;
  }

  lemma UrlsHaveNoBreak(s: seq<Endpoint>)
    requires forall e :: e in multiset(s) ==> '\n' !in e.url
    ensures Unbroken(Urls(s))
  {
    forall k | 0 <= k < |s| ensures '\n' !in Urls(s)[k] {
      assert s[k] in multiset(s);
    }
  }

  // ---------------------------------------------------------------------------
  // Detailed list

  /** The entry number, right-aligned in a field of two characters. */
  function Ordinal(i: nat): string {
    PadLeft(NatToString(i), 2)
  }

  /** The lines of the `i`-th entry of a detailed section. */
  function DetailLines(i: nat, e: Endpoint, fmt: real -> string,
                       headersRepr: map<string, string> -> string): seq<string>
  {
    [Ordinal(i) + ". URL: " + e.url, "    Method: " + e.verb, "    Source: " + e.source,
     "    Confidence: " + fmt(e.confidence)]
    + (if e.parameters != [] then ["    Parameters: " + Join(e.parameters, ", ")] else [])
    + (if e.headers != map[] then ["    Headers: " + headersRepr(e.headers)] else [])
    + [""]
  }

  /** The entries of a section, numbered from 1. */
  function DetailEntries(list: seq<Endpoint>, fmt: real -> string,
                         headersRepr: map<string, string> -> string): seq<string>
    decreases |list|
  {
    if list == [] then []
    else DetailEntries(list[..|list| - 1], fmt, headersRepr) + DetailLines(|list|, list[|list| - 1], fmt, headersRepr)
  }

  lemma DetailEntriesStep(list: seq<Endpoint>, k: nat, fmt: real -> string,
                          headersRepr: map<string, string> -> string)
    requires k < |list|
    ensures DetailEntries(list[..k + 1], fmt, headersRepr) ==
      DetailEntries(list[..k], fmt, headersRepr) + DetailLines(k + 1, list[k], fmt, headersRepr)
  {
    assert list[..k + 1][..k] == list[..k];
  }

  /** What `add_endpoint_section` appends: nothing for an empty level. */
  function SectionLines(title: string, list: seq<Endpoint>, emoji: string, fmt: real -> string,
                        headersRepr: map<string, string> -> string): seq<string>
  {
    if list == [] then []
    else
      [SectionHeading(title, |list|, emoji), Repeat('-', 60)] + DetailEntries(list, fmt, headersRepr) + [""]
  }

  function SectionHeading(title: string, count: nat, emoji: string): string {
    emoji + " " + title + " (" + NatToString(count) + " endpoints)"
  }

  method AppendDetailEntries(lines: seq<string>, list: seq<Endpoint>, fmt: real -> string,
                             headersRepr: map<string, string> -> string) returns (result: seq<string>)
    ensures result == lines + DetailEntries(list, fmt, headersRepr)
  {
    result := lines;
    for k := 0 to |list|
      invariant result == lines + DetailEntries(list[..k], fmt, headersRepr)
    {
      ghost var entries := DetailEntries(list[..k], fmt, headersRepr);
      ghost var entry := DetailLines(k + 1, list[k], fmt, headersRepr);
      DetailEntriesStep(list, k, fmt, headersRepr);
      result := AppendDetail(result, k + 1, list[k], fmt, headersRepr);
      AppendAssoc(lines, entries, entry);
    }
    assert list[..|list|] == list;
  }

  /** `add_endpoint_section`, which appends to the report's `lines`. */
  method AddEndpointSection(lines: seq<string>, title: string, list: seq<Endpoint>, emoji: string,
                            fmt: real -> string, headersRepr: map<string, string> -> string)
    returns (result: seq<string>)
    ensures result == lines + SectionLines(title, list, emoji, fmt, headersRepr)
    ensures list == [] ==> result == lines
  {
    result := lines;
    if list != [] {
      result := AppendDetailEntries(result + [SectionHeading(title, |list|, emoji), Repeat('-', 60)],
                                    list, fmt, headersRepr);
      result := result + [""];
    }
  }

  /** One numbered entry of `add_endpoint_section`. */
  method AppendDetail(lines: seq<string>, i: nat, endpoint: Endpoint, fmt: real -> string,
                      headersRepr: map<string, string> -> string) returns (result: seq<string>)
    ensures result == lines + DetailLines(i, endpoint, fmt, headersRepr)
  {
    var entry := [Ordinal(i) + ". URL: " + endpoint.url, "    Method: " + endpoint.verb,
                  "    Source: " + endpoint.source, "    Confidence: " + fmt(endpoint.confidence)];
    if endpoint.parameters != [] {
      entry := entry + ["    Parameters: " + Join(endpoint.parameters, ", ")];
    }
    if endpoint.headers != map[] {
      entry := entry + ["    Headers: " + headersRepr(endpoint.headers)];
    }
    result := lines + (entry + [""]);
  }

  const Green: string := "\U{1F7E2}"
  const Yellow: string := "\U{1F7E1}"
  const Orange: string := "\U{1F7E0}"

  function DetailedHeader(endpoints: seq<Endpoint>, targetUrl: string, now: string): seq<string> {
    [Repeat('=', 80), "API ENDPOINTS DISCOVERY REPORT", Repeat('=', 80), "Target URL: " + targetUrl,
     "Scan Date: " + now, "Total Endpoints Found: " + NatToString(|endpoints|), Repeat('=', 80), ""]
  }

  function DetailedSummary(high: nat, medium: nat, low: nat, total: nat): seq<string> {
    [Repeat('=', 80), "SUMMARY", Repeat('=', 80),
     "High Confidence: " + NatToString(high) + " endpoints",
     "Medium Confidence: " + NatToString(medium) + " endpoints",
     "Low Confidence: " + NatToString(low) + " endpoints",
     "Total: " + NatToString(total) + " endpoints",
     Repeat('=', 80)]
  }

  /** The lines of `generate_detailed_list` for a non-empty input. */
  function DetailedLines(endpoints: seq<Endpoint>, targetUrl: string, now: string, fmt: real -> string,
                         headersRepr: map<string, string> -> string): seq<string>
  {
    var sorted := SortByConfidence(endpoints);
    DetailedHeader(endpoints, targetUrl, now)
    + SectionLines("HIGH CONFIDENCE ENDPOINTS", High(sorted), Green, fmt, headersRepr)
    + SectionLines("MEDIUM CONFIDENCE ENDPOINTS", Medium(sorted), Yellow, fmt, headersRepr)
    + SectionLines("LOW CONFIDENCE ENDPOINTS", Low(sorted), Orange, fmt, headersRepr)
    + DetailedSummary(|High(sorted)|, |Medium(sorted)|, |Low(sorted)|, |endpoints|)
  }

  /** `generate_detailed_list`: a fixed message for no records, else the header, the level sections and the footer, one per line. */
  method GenerateDetailedList(endpoints: seq<Endpoint>, targetUrl: string, now: string, fmt: real -> string,
                              headersRepr: map<string, string> -> string) returns (output: string)
    ensures endpoints == [] ==> output == NoEndpointsMessage
    ensures endpoints != [] ==> output == Join(DetailedLines(endpoints, targetUrl, now, fmt, headersRepr), "\n")
  {
    if endpoints == [] {
      return NoEndpointsMessage;
    }
    var sorted := SortByConfidence(endpoints);
    var lines := DetailedHeader(endpoints, targetUrl, now);
    var highConf := High(sorted);
    var mediumConf := Medium(sorted);
    var lowConf := Low(sorted);
    lines := AddEndpointSection(lines, "HIGH CONFIDENCE ENDPOINTS", highConf, Green, fmt, headersRepr);
    lines := AddEndpointSection(lines, "MEDIUM CONFIDENCE ENDPOINTS", mediumConf, Yellow, fmt, headersRepr);
    lines := AddEndpointSection(lines, "LOW CONFIDENCE ENDPOINTS", lowConf, Orange, fmt, headersRepr);
    lines := lines + DetailedSummary(|highConf|, |mediumConf|, |lowConf|, |endpoints|);
    output := Join(lines, "\n");
  }

  /** The detailed summary's three level counts add up to the total it prints, and each level has a section iff it is non-empty. */
  lemma DetailedSummaryConsistent(endpoints: seq<Endpoint>, targetUrl: string, now: string, fmt: real -> string,
                                  headersRepr: map<string, string> -> string)
    ensures var sorted := SortByConfidence(endpoints);
      && |High(sorted)| + |Medium(sorted)| + |Low(sorted)| == |endpoints|
      && (SectionLines("HIGH CONFIDENCE ENDPOINTS", High(sorted), Green, fmt, headersRepr) == [] <==> High(sorted) == [])
      && (SectionLines("MEDIUM CONFIDENCE ENDPOINTS", Medium(sorted), Yellow, fmt, headersRepr) == [] <==> Medium(sorted) == [])
      && (SectionLines("LOW CONFIDENCE ENDPOINTS", Low(sorted), Orange, fmt, headersRepr) == [] <==> Low(sorted) == [])
  {
    LevelCountsAddUp(endpoints);
  }

  // ---------------------------------------------------------------------------
  // Console report

  const Magnifier: string := "\U{1F50D}"

  /** The lines of one console entry; only the high level lists parameters. */
  function ConsoleEntry(e: Endpoint, fmt: real -> string, withParameters: bool): seq<string> {
    ["  [" + e.verb + "] " + e.url, "      Source: " + e.source + " | Confidence: " + fmt(e.confidence)]
    + (if withParameters && e.parameters != [] then ["      Parameters: " + Join(e.parameters, ", ")] else [])
  }

  function ConsoleEntries(list: seq<Endpoint>, fmt: real -> string, withParameters: bool): seq<string>
    decreases |list|
  {
    if list == [] then []
    else ConsoleEntries(list[..|list| - 1], fmt, withParameters) + ConsoleEntry(list[|list| - 1], fmt, withParameters)
  }

  /** A level's block: its heading, which starts with the literal backslash-n, then its entries. */
  function ConsoleLevel(heading: string, list: seq<Endpoint>, fmt: real -> string, withParameters: bool): seq<string> {
    if list == [] then [] else [LiteralBackslashN + heading] + ConsoleEntries(list, fmt, withParameters)
  }

  /** The pieces `generate_console_report` joins for a non-empty input. */
  function ConsoleLines(endpoints: seq<Endpoint>, fmt: real -> string): seq<string> {
    var sorted := SortByConfidence(endpoints);
    ConsoleHeader(|endpoints|)
    + ConsoleLevel(Green + " HIGH CONFIDENCE ENDPOINTS:", High(sorted), fmt, true)
    + ConsoleLevel(Yellow + " MEDIUM CONFIDENCE ENDPOINTS:", Medium(sorted), fmt, false)
    + ConsoleLevel(Orange + " LOW CONFIDENCE ENDPOINTS:", Low(sorted), fmt, false)
    + ConsoleFooter(|High(sorted)|, |Medium(sorted)|, |Low(sorted)|)
  }

  function ConsoleHeader(total: nat): seq<string> {
    [LiteralBackslashN + Magnifier + " API Hunter Results (" + NatToString(total) + " endpoints found)",
     Repeat('=', 60)]
  }

  function ConsoleFooter(high: nat, medium: nat, low: nat): seq<string> {
    [LiteralBackslashN + Repeat('=', 60),
     "Summary: " + NatToString(high) + " high, " + NatToString(medium) + " medium, "
     + NatToString(low) + " low confidence"]
  }

  method AppendConsoleEntries(output: seq<string>, list: seq<Endpoint>, fmt: real -> string, withParameters: bool)
    returns (result: seq<string>)
    ensures result == output + ConsoleEntries(list, fmt, withParameters)
  {
    result := output;
    for k := 0 to |list|
      invariant result == output + ConsoleEntries(list[..k], fmt, withParameters)
    {
      assert list[..k + 1][..k] == list[..k];
      ghost var before := result;
      var endpoint := list[k];
      result := result + ["  [" + endpoint.verb + "] " + endpoint.url];
      result := result + ["      Source: " + endpoint.source + " | Confidence: " + fmt(endpoint.confidence)];
      if withParameters && endpoint.parameters != [] {
        result := result + ["      Parameters: " + Join(endpoint.parameters, ", ")];
      }
      assert result == before + ConsoleEntry(endpoint, fmt, withParameters);
      AppendAssoc(output, ConsoleEntries(list[..k], fmt, withParameters), ConsoleEntry(endpoint, fmt, withParameters));
    }
    assert list[..|list|] == list;
  }

  /** One level of the console report: nothing when the level is empty. */
  method AppendConsoleLevel(output: seq<string>, heading: string, list: seq<Endpoint>, fmt: real -> string,
                            withParameters: bool) returns (result: seq<string>)
    ensures result == output + ConsoleLevel(heading, list, fmt, withParameters)
  {
    result := output;
    if list != [] {
      result := AppendConsoleEntries(result + [LiteralBackslashN + heading], list, fmt, withParameters);
    }
  }

  /** `generate_console_report`: the pieces are joined with the literal backslash-n, not with line breaks. */
  method GenerateConsoleReport(endpoints: seq<Endpoint>, fmt: real -> string) returns (report: string)
    ensures endpoints == [] ==> report == NoEndpointsMessage
    ensures endpoints != [] ==> report == Join(ConsoleLines(endpoints, fmt), LiteralBackslashN)
  {
    if endpoints == [] {
      return NoEndpointsMessage;
    }
    var sorted := SortByConfidence(endpoints);
    var output := ConsoleHeader(|endpoints|);
    var highConf := High(sorted);
    var mediumConf := Medium(sorted);
    var lowConf := Low(sorted);
    output := AppendConsoleLevel(output, Green + " HIGH CONFIDENCE ENDPOINTS:", highConf, fmt, true);
    output := AppendConsoleLevel(output, Yellow + " MEDIUM CONFIDENCE ENDPOINTS:", mediumConf, fmt, false);
    output := AppendConsoleLevel(output, Orange + " LOW CONFIDENCE ENDPOINTS:", lowConf, fmt, false);
    output := output + ConsoleFooter(|highConf|, |mediumConf|, |lowConf|);
    report := Join(output, LiteralBackslashN);
  }

  /** Every console entry is two lines, three for a high-confidence record with parameters. */
  lemma {:induction false} ConsoleEntriesLength(list: seq<Endpoint>, fmt: real -> string, withParameters: bool)
    ensures |ConsoleEntries(list, fmt, withParameters)| ==
      2 * |list| + (if withParameters then |Filter(list, HasParameters)| else 0)
    decreases |list|
  {
    if list != [] {
      ConsoleEntriesLength(list[..|list| - 1], fmt, withParameters);
    }
  }

  predicate HasParameters(e: Endpoint) { e.parameters != [] }
}
