/**
 * `EndpointScanner` (api_hunter/scanner.py): probing a fixed list of common
 * paths, and reading robots.txt, sitemaps and Swagger/OpenAPI documents.
 * Every request outcome comes from `fetch`, keyed by the requested URL;
 * XML and JSON decoding are the parameters `parse` and `decode`.
 */
module Scanner {
  import opened Wrappers
  import opened Text
  import opened Seqs
  import opened Endpoints
  import opened Classifier
  import opened Probes

  /** The keywords of `_looks_like_api_path`: the discovery keywords plus `webhook`. */
  const ScannerIndicators: seq<string> := PotentialIndicators + ["webhook"]

  /** `_looks_like_api_path` */
  predicate LooksLikeApiPath(path: string) {
    HasIndicator(path, ScannerIndicators)
  }

  /** `_looks_like_api_path`: the keyword search alone, with no guard in front of it. */
  method CheckApiPath(path: string) returns (apiLike: bool)
    ensures apiLike == LooksLikeApiPath(path)
  {
    apiLike := AnyIndicator(path, ScannerIndicators);
  }

  /** The scanner test is the discovery keyword test, plus `webhook`, with no prefix rejection. */
  lemma LooksLikeApiPathIff(path: string)
    ensures LooksLikeApiPath(path) <==>
      HasIndicator(path, PotentialIndicators) || Contains(Lower(path), "webhook")
  {
    if LooksLikeApiPath(path) {
      var w :| w in ScannerIndicators && Contains(Lower(path), w);
      if w != "webhook" {
        assert w in PotentialIndicators;
      }
    }
    if Contains(Lower(path), "webhook") {
      assert "webhook" in ScannerIndicators;
    }
    if HasIndicator(path, PotentialIndicators) {
      var w :| w in PotentialIndicators && Contains(Lower(path), w);
      assert w in ScannerIndicators;
    }
  }

  /** Whatever the discovery keyword test accepts, the scanner test accepts too. */
  lemma PotentialLooksLikeApiPath(url: string)
    requires IsPotentialEndpoint(url)
    ensures LooksLikeApiPath(url)
  {
    LooksLikeApiPathIff(url);
  }

  /** `base_url.rstrip('/')`, to which every scanned path is appended. */
  function ApiBase(base: string): string {
    RStripChar(base, '/')
  }

  // ---------------------------------------------------------------------------
  // Common paths

  const CommonPaths: seq<string> := [
    "/api", "/api/v1", "/api/v2", "/rest", "/graphql",
    "/endpoints", "/services", "/data", "/ajax",
    "/client/api", "/client/api/sponds", "/client/api/events",
    "/client/api/groups", "/client/api/user", "/client/api/notifications"
  ]

  /** `_test_endpoint`: a record for a response below 400, at 0.8 for an API content type, else 0.5. */
  function TestEndpoint(url: string, outcome: Fetch): (r: Option<Endpoint>)
    ensures r.Some? <==> Succeeded(outcome)
    ensures r.Some? ==> r.value.url == url && r.value.verb == "GET" && r.value.source == "path_scan"
    ensures r.Some? ==> (r.value.confidence == 0.8 <==> ApiContentType(outcome.response.contentType))
    ensures r.Some? ==> (r.value.confidence == 0.5 <==> !ApiContentType(outcome.response.contentType))
  {
    if Succeeded(outcome) then
      Some(Found(url, "path_scan", if ApiContentType(outcome.response.contentType) then 0.8 else 0.5))
    else None
  }

  /** The URL of every common path, in list order. */
  function CommonUrls(base: string): (urls: seq<string>)
    ensures |urls| == |CommonPaths|
  {
    seq(|CommonPaths|, i requires 0 <= i < |CommonPaths| => ApiBase(base) + CommonPaths[i])
  }

  /** What the future for task `k` contributes: its record, or nothing (also for an index outside the tasks). */
  function Outcome(urls: seq<string>, fetch: string -> Fetch, k: nat): seq<Endpoint> {
    if k >= |urls| then []
    else
      match TestEndpoint(urls[k], fetch(urls[k]))
      case None => []
      case Some(e) => [e]
  }

  function OutcomeOf(urls: seq<string>, fetch: string -> Fetch): nat -> seq<Endpoint> {
    (k: nat) => Outcome(urls, fetch, k)
  }

  /** The results collected when the futures complete in the order `order`. */
  function Collected(urls: seq<string>, fetch: string -> Fetch, order: seq<nat>): seq<Endpoint> {
    FlatMap(order, OutcomeOf(urls, fetch))
  }

  /**
   * `scan_common_paths`: one task per common path, collected as they
   * complete. The completion order `order` is any arrangement of the task
   * indices; the results are the same whatever it is, up to order.
   */
  method ScanCommonPaths(base: string, fetch: string -> Fetch, order: seq<nat>) returns (endpoints: seq<Endpoint>)
    requires multiset(order) == multiset(Indices(|CommonPaths|))
    ensures multiset(endpoints) == multiset(Collected(CommonUrls(base), fetch, Indices(|CommonPaths|)))
    ensures |endpoints| <= |CommonPaths|
    ensures forall e :: e in endpoints ==> CommonPathRecord(base, fetch, e)
    ensures forall k :: 0 <= k < |CommonPaths| && Succeeded(fetch(ApiBase(base) + CommonPaths[k])) ==>
      exists e :: e in endpoints && e.url == ApiBase(base) + CommonPaths[k]
  {
    var urls: seq<string> := [];
    for i := 0 to |CommonPaths|
      invariant urls == CommonUrls(base)[..i]
    {
      urls := urls + [ApiBase(base) + CommonPaths[i]];
    }
    assert urls == CommonUrls(base);
    OrderInRange(order, |urls|);
    endpoints := [];
    for j := 0 to |order|
      invariant endpoints == Collected(urls, fetch, order[..j])
    {
      assert order[..j + 1][..j] == order[..j];
      var url := urls[order[j]];
      var result := TestEndpoint(url, fetch(url));
      if result.Some? {
        endpoints := endpoints + [result.value];
      }
    }
    assert order[..|order|] == order;
    FlatMapPermutation(order, Indices(|urls|), OutcomeOf(urls, fetch));
    CommonPathRecords(base, fetch, order);
  }

  /** `e` is the record of a common path whose probe succeeded. */
  predicate CommonPathRecord(base: string, fetch: string -> Fetch, e: Endpoint) {
    exists k :: 0 <= k < |CommonPaths| && e.url == ApiBase(base) + CommonPaths[k]
      && Succeeded(fetch(e.url)) && e.source == "path_scan"
  }

  /** The records collected over a permutation of the tasks: at most one per task, one for each success. */
  lemma CommonPathRecords(base: string, fetch: string -> Fetch, order: seq<nat>)
    requires multiset(order) == multiset(Indices(|CommonPaths|))
    ensures |Collected(CommonUrls(base), fetch, order)| <= |CommonPaths|
    ensures forall e :: e in Collected(CommonUrls(base), fetch, order) ==> CommonPathRecord(base, fetch, e)
    ensures forall k :: 0 <= k < |CommonPaths| && Succeeded(fetch(ApiBase(base) + CommonPaths[k])) ==>
      exists e :: e in Collected(CommonUrls(base), fetch, order) && e.url == ApiBase(base) + CommonPaths[k]
  {
    var urls := CommonUrls(base);
    var r := Collected(urls, fetch, order);
    OrderInRange(order, |urls|);
    CollectedSound(urls, fetch, order);
    CollectedComplete(urls, fetch, order);
    forall e | e in r ensures CommonPathRecord(base, fetch, e) {
      var j :| 0 <= j < |order| && order[j] < |urls| && TestEndpoint(urls[order[j]], fetch(urls[order[j]])) == Some(e);
      assert urls[order[j]] == ApiBase(base) + CommonPaths[order[j]];
    }
    forall k | 0 <= k < |CommonPaths| && Succeeded(fetch(ApiBase(base) + CommonPaths[k]))
      ensures exists e :: e in r && e.url == ApiBase(base) + CommonPaths[k]
    {
      assert urls[k] == ApiBase(base) + CommonPaths[k];
      assert k in order;
      var j :| 0 <= j < |order| && order[j] == k;
      assert TestEndpoint(urls[order[j]], fetch(urls[order[j]])).value in r;
    }
  }

  /** A permutation of the task indices names only tasks, and each of them. */
  lemma OrderInRange(order: seq<nat>, n: nat)
    requires multiset(order) == multiset(Indices(n))
    ensures forall j :: 0 <= j < |order| ==> order[j] < n
    ensures forall k :: 0 <= k < n ==> k in order
    ensures |order| == n
  {
    forall j | 0 <= j < |order| ensures order[j] < n {
      assert order[j] in multiset(order);
      assert order[j] in Indices(n);
    }
    forall k | 0 <= k < n ensures k in order {
      assert Indices(n)[k] == k;
      assert k in multiset(Indices(n));
    }
    assert |multiset(order)| == |multiset(Indices(n))|;
  }

  /** Every collected record is the record of one of the collected tasks, and there are no more records than tasks. */
  lemma {:induction false} CollectedSound(urls: seq<string>, fetch: string -> Fetch, order: seq<nat>)
    ensures |Collected(urls, fetch, order)| <= |order|
    ensures forall e :: e in Collected(urls, fetch, order) ==>
      exists j :: 0 <= j < |order| && order[j] < |urls| && TestEndpoint(urls[order[j]], fetch(urls[order[j]])) == Some(e)
    decreases |order|
  {
    if order != [] {
      var order' := order[..|order| - 1];
      CollectedSound(urls, fetch, order');
      forall e | e in Collected(urls, fetch, order)
        ensures exists j :: 0 <= j < |order| && order[j] < |urls| && TestEndpoint(urls[order[j]], fetch(urls[order[j]])) == Some(e)
      {
        if e in Collected(urls, fetch, order') {
          var j :| 0 <= j < |order'| && order'[j] < |urls| && TestEndpoint(urls[order'[j]], fetch(urls[order'[j]])) == Some(e);
          assert order[j] == order'[j];
        } else {
          assert TestEndpoint(urls[order[|order| - 1]], fetch(urls[order[|order| - 1]])) == Some(e);
        }
      }
    }
  }

  /** Every collected task whose request succeeded contributes its record. */
  lemma {:induction false} CollectedComplete(urls: seq<string>, fetch: string -> Fetch, order: seq<nat>)
    ensures forall j :: 0 <= j < |order| && order[j] < |urls| && Succeeded(fetch(urls[order[j]])) ==>
      TestEndpoint(urls[order[j]], fetch(urls[order[j]])).value in Collected(urls, fetch, order)
    decreases |order|
  {
    if order != [] {
      var order' := order[..|order| - 1];
      CollectedComplete(urls, fetch, order');
      forall j | 0 <= j < |order| && order[j] < |urls| && Succeeded(fetch(urls[order[j]]))
        ensures TestEndpoint(urls[order[j]], fetch(urls[order[j]])).value in Collected(urls, fetch, order)
      {
        if j < |order'| {
          assert order[j] == order'[j];
        }
      }
    }
  }

  /** An unreachable host yields no path-scan records. */
  lemma {:induction false} UnreachableCommonPaths(urls: seq<string>, fetch: string -> Fetch, order: seq<nat>)
    requires forall u :: fetch(u) == TransportError
    ensures Collected(urls, fetch, order) == []
    decreases |order|
  {
    if order != [] {
      UnreachableCommonPaths(urls, fetch, order[..|order| - 1]);
    }
  }

  // ---------------------------------------------------------------------------
  // robots.txt

  /** A stripped line starting with `Disallow:` or `Allow:` (case-sensitive). */
  predicate IsDirective(line: string) {
    StartsWith(Strip(line), "Disallow:") || StartsWith(Strip(line), "Allow:")
  }

  /** `line.split(':', 1)[1].strip()` for a directive line. */
  function DirectivePath(line: string): (path: string)
    requires IsDirective(line)
    ensures |path| < |line|
  {
    assert ':' in Strip(line) by {
      if StartsWith(Strip(line), "Disallow:") {
        assert Strip(line)[8] == ':';
      } else {
        assert Strip(line)[5] == ':';
      }
    }
    Strip(AfterFirst(line, ':'))
  }

  /** The records `scan_robots_txt` appends for `lines`, one line at a time. */
  function RobotsEndpoints(base: string, lines: seq<string>): seq<Endpoint> {
    FlatMap(lines, RobotsLine(base))
  }

  function RobotsLine(base: string): string -> seq<Endpoint> {
    line => LineRecords(base, line)
  }

  /** The record one robots.txt line contributes: none, or one for an API-looking directive path. */
  function LineRecords(base: string, line: string): seq<Endpoint> {
    if IsDirective(line) && LooksLikeApiPath(DirectivePath(line))
    then [Found(ApiBase(base) + DirectivePath(line), "robots_txt", 0.6)]
    else []
  }

  /** What the robots pass finds: nothing unless robots.txt answers 200, else the records of its pieces. */
  function RobotsScanned(base: string, fetch: string -> Fetch): seq<Endpoint> {
    var response := fetch(ApiBase(base) + "/robots.txt");
    if IsOk(response) then RobotsEndpoints(base, Split(response.response.body, LiteralBackslashN)) else []
  }

  /** `scan_robots_txt`, with the source's separator: a 200 response is cut at each literal backslash-n. */
  method ScanRobotsTxt(base: string, fetch: string -> Fetch) returns (endpoints: seq<Endpoint>)
    ensures endpoints == RobotsScanned(base, fetch)
  {
    endpoints := [];
    var response := fetch(ApiBase(base) + "/robots.txt");
    if IsOk(response) {
      var lines := Split(response.response.body, LiteralBackslashN);
      for i := 0 to |lines|
        invariant endpoints == RobotsEndpoints(base, lines[..i])
      {
        RobotsStep(base, lines, i);
        ghost var before := endpoints;
        var line := lines[i];
        if IsDirective(line) {
          var path := DirectivePath(line);
          if LooksLikeApiPath(path) {
            endpoints := endpoints + [Found(ApiBase(base) + path, "robots_txt", 0.6)];
          }
        }
        assert endpoints == before + LineRecords(base, line);
      }
      assert lines[..|lines|] == lines;
    }
  }

  lemma RobotsStep(base: string, lines: seq<string>, i: nat)
    requires i < |lines|
    ensures RobotsEndpoints(base, lines[..i + 1]) == RobotsEndpoints(base, lines[..i]) + LineRecords(base, lines[i])
  {
    assert lines[..i + 1][..i] == lines[..i];
    assert RobotsLine(base)(lines[i]) == LineRecords(base, lines[i]);
  }

  /** `e` is the record of a directive line of `lines` whose path looks like an API path. */
  predicate RobotsRecordOf(base: string, lines: seq<string>, e: Endpoint) {
    exists line :: line in lines && IsDirective(line) && LooksLikeApiPath(DirectivePath(line))
      && e == Found(ApiBase(base) + DirectivePath(line), "robots_txt", 0.6)
  }

  /** Each robots record comes from a directive line in order, at 0.6, under the stripped base. */
  lemma {:induction false} RobotsEndpointsSound(base: string, lines: seq<string>)
    ensures |RobotsEndpoints(base, lines)| <= |lines|
    ensures forall e :: e in RobotsEndpoints(base, lines) ==> RobotsRecordOf(base, lines, e)
    decreases |lines|
  {
    if lines != [] {
      var init := lines[..|lines| - 1];
      RobotsEndpointsSound(base, init);
      forall e | e in RobotsEndpoints(base, lines) ensures RobotsRecordOf(base, lines, e) {
        if e in RobotsEndpoints(base, init) {
          var line :| line in init && IsDirective(line) && LooksLikeApiPath(DirectivePath(line))
            && e == Found(ApiBase(base) + DirectivePath(line), "robots_txt", 0.6);
          assert line in lines;
        } else {
          assert lines[|lines| - 1] in lines;
        }
      }
    }
  }

  /** The robots pass as evidently intended: one line per newline-separated line of the file. */
  function RobotsByLine(base: string, body: string): seq<Endpoint> {
    RobotsEndpoints(base, Split(body, "\n"))
  }

  /** Read line by line, a file made of newline-free lines contributes exactly those lines' records. */
  lemma RobotsByLineReadsEachLine(base: string, lines: seq<string>)
    requires |lines| >= 1
    requires forall k :: 0 <= k < |lines| ==> '\n' !in lines[k]
    ensures RobotsByLine(base, Join(lines, "\n")) == RobotsEndpoints(base, lines)
  {
    SplitJoin(lines, '\n');
  }

  /** A text without a backslash is one single "line" for the source's separator. */
  lemma NoBackslashIsOneLine(body: string)
    requires '\\' !in body
    ensures Split(body, LiteralBackslashN) == [body]
    decreases |body|
  {
    if |body| >= 2 {
      assert body[0] != '\\';
      NoBackslashIsOneLine(body[1..]);
      assert [body[0]] + body[1..] == body;
    }
  }

  /**
   * A two-line robots.txt whose second line disallows `/api/`: the source's
   * separator sees one line starting with `User-agent`, so nothing is found.
   */
  lemma RobotsLiteralSeparatorMissesLines(base: string, body: string)
    requires body == "User-agent: *\nDisallow: /api/"
    ensures RobotsEndpoints(base, Split(body, LiteralBackslashN)) == []
  {
    assert '\\' !in body;
    assert StartsWith(body, "User-agent: *");
    VisibleAsciiNotSpace(body[|body| - 1]);
    UnsplitUserAgentText(base, body);
  }

  /** A backslash-free text starting with a `User-agent` line is one piece that yields nothing. */
  lemma UnsplitUserAgentText(base: string, body: string)
    requires '\\' !in body && StartsWith(body, "User-agent: *") && !IsSpace(body[|body| - 1])
    ensures RobotsEndpoints(base, Split(body, LiteralBackslashN)) == []
  {
    NoBackslashIsOneLine(body);
    UserAgentLineHasNoRecord(base, body);
    OneLineRecords(base, body);
  }

  /** A line starting with `User-agent` contributes nothing, whatever follows. */
  lemma UserAgentLineHasNoRecord(base: string, line: string)
    requires StartsWith(line, "User-agent: *") && !IsSpace(line[|line| - 1])
    ensures LineRecords(base, line) == []
  {
    UserAgentLineIsNotDirective(line);
  }

  lemma UserAgentLineIsNotDirective(line: string)
    requires StartsWith(line, "User-agent: *") && !IsSpace(line[|line| - 1])
    ensures !IsDirective(line)
  {
    assert line[0] == 'U';
    VisibleAsciiNotSpace(line[0]);
    StripUnchanged(line);
    assert line[0] != "Disallow:"[0] && line[0] != "Allow:"[0];
  }

  /** The same file read line by line yields the `/api/` endpoint. */
  lemma RobotsByLineFindsDirective(base: string, body: string)
    requires body == "User-agent: *\nDisallow: /api/"
    ensures RobotsByLine(base, body) == [Found(ApiBase(base) + "/api/", "robots_txt", 0.6)]
  {
    var first := "User-agent: *";
    var second := "Disallow: /api/";
    TwoRobotsLines(body);
    VisibleAsciiNotSpace(first[|first| - 1]);
    UserAgentLineHasNoRecord(base, first);
    DisallowApiRecord(base);
    TwoLineRecords(base, first, second);
  }

  lemma DisallowApiRecord(base: string)
    ensures LineRecords(base, "Disallow: /api/") == [Found(ApiBase(base) + "/api/", "robots_txt", 0.6)]
  {
    DisallowApiLine();
  }

  /** A file of two lines, the first contributing nothing. */
  lemma TwoLineRecords(base: string, first: string, second: string)
    requires LineRecords(base, first) == []
    ensures RobotsEndpoints(base, [first, second]) == LineRecords(base, second)
  {
    OneLineRecords(base, first);
    OneLineRecords(base, second);
    FlatMapAppend([first], [second], RobotsLine(base));
    assert [first] + [second] == [first, second];
  }

  lemma TwoRobotsLines(body: string)
    requires body == "User-agent: *\nDisallow: /api/"
    ensures Split(body, "\n") == ["User-agent: *", "Disallow: /api/"]
  {
    var first := "User-agent: *";
    var second := "Disallow: /api/";
    assert body == first + ['\n'] + second;
    NoLineBreak(first);
    NoLineBreak(second);
    TwoLinesSplit(first, second);
  }

  lemma NoLineBreak(line: string)
    requires forall k :: 0 <= k < |line| ==> ' ' <= line[k] <= '~'
    ensures '\n' !in line
  {
  }

  lemma TwoLinesSplit(first: string, second: string)
    requires '\n' !in first && '\n' !in second
    ensures Split(first + ['\n'] + second, "\n") == [first, second]
  {
    SplitAfterLine(first, second, '\n');
    SplitNoSeparator(second, '\n');
  }

  lemma OneLineRecords(base: string, line: string)
    ensures RobotsEndpoints(base, [line]) == LineRecords(base, line)
  {
    var none: seq<string> := [];
    var f := RobotsLine(base);
    assert [line][..0] == none;
    assert FlatMap(none, f) == [];
    assert FlatMap([line], f) == FlatMap(none, f) + f(line);
    assert f(line) == LineRecords(base, line);
  }

  /** `Disallow: /api/` is a directive for the API-looking path `/api/`. */
  lemma DisallowApiLine()
    ensures IsDirective("Disallow: /api/")
    ensures DirectivePath("Disallow: /api/") == "/api/"
    ensures LooksLikeApiPath("/api/")
  {
    DisallowApiPath();
    ApiPathLooksLikeApi();
  }

  lemma DisallowIsDirective()
    ensures IsDirective("Disallow: /api/")
  {
    var line := "Disallow: /api/";
    VisibleAsciiNotSpace(line[0]);
    VisibleAsciiNotSpace(line[|line| - 1]);
    StripUnchanged(line);
    assert line[..9] == "Disallow:";
  }

  lemma DisallowApiPath()
    ensures IsDirective("Disallow: /api/") && DirectivePath("Disallow: /api/") == "/api/"
  {
    DisallowIsDirective();
    AfterDisallowColon();
    var after := " /api/";
    VisibleAsciiNotSpace(after[1]);
    VisibleAsciiNotSpace(after[|after| - 1]);
    StripAfterSpace(after);
    assert after[1..] == "/api/";
  }

  lemma AfterDisallowColon()
    ensures AfterFirst("Disallow: /api/", ':') == " /api/"
  {
    var line := "Disallow: /api/";
    assert line[..8] == "Disallow";
    AfterFirstAt(line, ':', 8);
  }

  lemma ApiPathLooksLikeApi()
    ensures LooksLikeApiPath("/api/")
  {
    assert Lower("/api/") == "/api/";
    assert "/api/"[1..][..3] == "api";
    ContainsAt("/api/", "api", 1);
    assert "api" in ScannerIndicators;
  }

  /** A host that does not answer robots.txt with a 200 (unreachable, or any other status) yields no robots records. */
  lemma UnreachableRobots(base: string, fetch: string -> Fetch)
    requires !IsOk(fetch(ApiBase(base) + "/robots.txt"))
    ensures RobotsScanned(base, fetch) == []
  {
  }

  /** Every record the robots pass finds is a `robots_txt` record at 0.6 under the stripped base. */
  lemma RobotsScannedSound(base: string, fetch: string -> Fetch)
    ensures forall e :: e in RobotsScanned(base, fetch) ==>
      e.source == "robots_txt" && e.confidence == 0.6 && StartsWith(e.url, ApiBase(base))
  {
    var response := fetch(ApiBase(base) + "/robots.txt");
    if IsOk(response) {
      var lines := Split(response.response.body, LiteralBackslashN);
      RobotsEndpointsSound(base, lines);
      forall e | e in RobotsScanned(base, fetch)
        ensures e.source == "robots_txt" && e.confidence == 0.6 && StartsWith(e.url, ApiBase(base))
      {
        var line :| line in lines && IsDirective(line) && LooksLikeApiPath(DirectivePath(line))
          && e == Found(ApiBase(base) + DirectivePath(line), "robots_txt", 0.6);
        StartsWithAppend(ApiBase(base), DirectivePath(line));
      }
    }
  }

  // ---------------------------------------------------------------------------
  // Sitemaps

  const SitemapPaths: seq<string> := ["/sitemap.xml", "/sitemap_index.xml", "/sitemaps/sitemap.xml"]

  /** The records of one sitemap's `<loc>` texts ("" for a `<url>` without one): the API-looking ones, unchanged, at 0.7. */
  function SitemapEndpoints(locs: seq<string>): seq<Endpoint>
    decreases |locs|
  {
    if locs == [] then []
    else
      var init := SitemapEndpoints(locs[..|locs| - 1]);
      var loc := locs[|locs| - 1];
      if loc != "" && LooksLikeApiPath(loc) then init + [Found(loc, "sitemap", 0.7)] else init
  }

  /**
   * The records of the sitemap paths `paths`: a 200 response is parsed
   * (`None` for an XML parse error) and its `<loc>` texts filtered.
   */
  function SitemapScanned(base: string, fetch: string -> Fetch, parse: string -> Option<seq<string>>,
                          paths: seq<string>): seq<Endpoint>
    decreases |paths|
  {
    if paths == [] then []
    else
      var init := SitemapScanned(base, fetch, parse, paths[..|paths| - 1]);
      var response := fetch(ApiBase(base) + paths[|paths| - 1]);
      if IsOk(response) then
        match parse(response.response.body)
        case None => init
        case Some(locs) => init + SitemapEndpoints(locs)
      else init
  }

  /** `scan_sitemap`: the API-looking `<loc>` texts of each sitemap location that answers 200 and parses, in order. */
  method ScanSitemap(base: string, fetch: string -> Fetch, parse: string -> Option<seq<string>>)
    returns (endpoints: seq<Endpoint>)
    ensures endpoints == SitemapScanned(base, fetch, parse, SitemapPaths)
  {
    endpoints := [];
    for i := 0 to |SitemapPaths|
      invariant endpoints == SitemapScanned(base, fetch, parse, SitemapPaths[..i])
    {
      assert SitemapPaths[..i + 1][..i] == SitemapPaths[..i];
      var response := fetch(ApiBase(base) + SitemapPaths[i]);
      if IsOk(response) {
        var parsed := parse(response.response.body);
        if parsed.Some? {
          var locs := parsed.value;
          var found: seq<Endpoint> := [];
          for j := 0 to |locs|
            invariant found == SitemapEndpoints(locs[..j])
          {
            assert locs[..j + 1][..j] == locs[..j];
            if locs[j] != "" && LooksLikeApiPath(locs[j]) {
              found := found + [Found(locs[j], "sitemap", 0.7)];
            }
          }
          assert locs[..|locs|] == locs;
          endpoints := endpoints + found;
        }
      }
    }
    assert SitemapPaths[..|SitemapPaths|] == SitemapPaths;
  }

  /** Each sitemap record is an API-looking `<loc>` text used unchanged as the URL, at 0.7. */
  lemma {:induction false} SitemapEndpointsSound(locs: seq<string>)
    ensures |SitemapEndpoints(locs)| <= |locs|
    ensures forall e :: e in SitemapEndpoints(locs) ==>
      e.url in locs && e.url != "" && LooksLikeApiPath(e.url) && e == Found(e.url, "sitemap", 0.7)
    decreases |locs|
  {
    if locs != [] {
      SitemapEndpointsSound(locs[..|locs| - 1]);
      assert locs == locs[..|locs| - 1] + [locs[|locs| - 1]];
    }
  }

  /** Every record of the sitemap pass has the sitemap shape, whichever document it came from. */
  lemma {:induction false} SitemapScannedSound(base: string, fetch: string -> Fetch,
                                               parse: string -> Option<seq<string>>, paths: seq<string>)
    ensures forall e :: e in SitemapScanned(base, fetch, parse, paths) ==>
      e.url != "" && LooksLikeApiPath(e.url) && e == Found(e.url, "sitemap", 0.7)
    decreases |paths|
  {
    if paths != [] {
      SitemapScannedSound(base, fetch, parse, paths[..|paths| - 1]);
      var response := fetch(ApiBase(base) + paths[|paths| - 1]);
      if IsOk(response) && parse(response.response.body).Some? {
        SitemapEndpointsSound(parse(response.response.body).value);
      }
    }
  }

  /** An unreachable host yields no sitemap records. */
  lemma {:induction false} UnreachableSitemaps(base: string, fetch: string -> Fetch,
                                               parse: string -> Option<seq<string>>, paths: seq<string>)
    requires forall u :: fetch(u) == TransportError
    ensures SitemapScanned(base, fetch, parse, paths) == []
    decreases |paths|
  {
    if paths != [] {
      UnreachableSitemaps(base, fetch, parse, paths[..|paths| - 1]);
    }
  }

  // ---------------------------------------------------------------------------
  // Swagger / OpenAPI documents

  const SwaggerPaths: seq<string> := [
    "/swagger.json", "/swagger.yaml", "/api-docs", "/api-docs.json", "/openapi.json",
    "/openapi.yaml", "/v1/api-docs", "/v2/api-docs", "/swagger/v1/swagger.json",
    "/swagger-ui.html", "/docs"
  ]

  /** One entry of the document's `paths` object: the path key and its method keys, in document order. */
  datatype PathItem = PathItem(key: string, methods: seq<string>)

  /** A decoded document: its `paths` (None when absent) and its `basePath` ("" when absent). */
  datatype SwaggerDoc = Undecodable | Decoded(paths: Option<seq<PathItem>>, basePath: string)

  /** Spec expansion is attempted for a probed path containing `json` served as `application/json...`. */
  predicate ExpandsSpec(path: string, response: Response) {
    Contains(path, "json") && StartsWith(response.contentType, "application/json")
  }

  /** One `swagger_spec` record per method key of one path key. */
  function MethodEndpoints(url: string, methods: seq<string>): seq<Endpoint>
    decreases |methods|
  {
    if methods == [] then []
    else
      MethodEndpoints(url, methods[..|methods| - 1])
      + [Found(url, "swagger_spec", 1.0).(verb := Upper(methods[|methods| - 1]))]
  }

  /** The records of the path items, under `prefix` (the stripped base followed by `basePath`). */
  function Expanded(prefix: string, items: seq<PathItem>): seq<Endpoint>
    decreases |items|
  {
    if items == [] then []
    else
      var item := items[|items| - 1];
      Expanded(prefix, items[..|items| - 1]) + MethodEndpoints(prefix + item.key, item.methods)
  }

  function SpecEndpoints(base: string, doc: SwaggerDoc): seq<Endpoint> {
    match doc
    case Undecodable => []
    case Decoded(paths, basePath) =>
      match paths
      case None => []
      case Some(items) => Expanded(ApiBase(base) + basePath, items)
  }

  /** What one probed swagger path contributes: a `swagger_docs` record on a 200, then the spec's records. */
  function SwaggerProbe(base: string, fetch: string -> Fetch, decode: string -> SwaggerDoc, path: string): seq<Endpoint> {
    var url := ApiBase(base) + path;
    var response := fetch(url);
    if IsOk(response) then
      [Found(url, "swagger_docs", 0.9)]
      + (if ExpandsSpec(path, response.response) then SpecEndpoints(base, decode(response.response.body)) else [])
    else []
  }

  /** The records of the swagger paths `paths`, probed in order. */
  function SwaggerScanned(base: string, fetch: string -> Fetch, decode: string -> SwaggerDoc,
                          paths: seq<string>): seq<Endpoint>
    decreases |paths|
  {
    if paths == [] then []
    else SwaggerScanned(base, fetch, decode, paths[..|paths| - 1]) + SwaggerProbe(base, fetch, decode, paths[|paths| - 1])
  }

  lemma SwaggerStep(base: string, fetch: string -> Fetch, decode: string -> SwaggerDoc, paths: seq<string>, i: nat)
    requires i < |paths|
    ensures SwaggerScanned(base, fetch, decode, paths[..i + 1]) ==
      SwaggerScanned(base, fetch, decode, paths[..i]) + SwaggerProbe(base, fetch, decode, paths[i])
  {
    assert paths[..i + 1][..i] == paths[..i];
  }

  /** `discover_swagger_docs`: for each document path that answers 200, a 0.9 record for the document and its expanded `paths`. */
  method DiscoverSwaggerDocs(base: string, fetch: string -> Fetch, decode: string -> SwaggerDoc)
    returns (endpoints: seq<Endpoint>)
    ensures endpoints == SwaggerScanned(base, fetch, decode, SwaggerPaths)
  {
    endpoints := [];
    for i := 0 to |SwaggerPaths|
      invariant endpoints == SwaggerScanned(base, fetch, decode, SwaggerPaths[..i])
    {
      SwaggerStep(base, fetch, decode, SwaggerPaths, i);
      ghost var before := endpoints;
      var path := SwaggerPaths[i];
      var url := ApiBase(base) + path;
      var response := fetch(url);
      if IsOk(response) {
        endpoints := endpoints + [Found(url, "swagger_docs", 0.9)];
        var spec: seq<Endpoint> := [];
        if ExpandsSpec(path, response.response) {
          var doc := decode(response.response.body);
          if doc.Decoded? && doc.paths.Some? {
            spec := ExpandPaths(ApiBase(base) + doc.basePath, doc.paths.value);
            endpoints := endpoints + spec;
          }
        }
        AppendAssoc(before, [Found(url, "swagger_docs", 0.9)], spec);
      }
      assert endpoints == before + SwaggerProbe(base, fetch, decode, path);
    }
    assert SwaggerPaths[..|SwaggerPaths|] == SwaggerPaths;
  }

  /** The two inner loops of the spec expansion. */
  method ExpandPaths(prefix: string, items: seq<PathItem>) returns (endpoints: seq<Endpoint>)
    ensures endpoints == Expanded(prefix, items)
  {
    endpoints := [];
    for i := 0 to |items|
      invariant endpoints == Expanded(prefix, items[..i])
    {
      assert items[..i + 1][..i] == items[..i];
      var apiUrl := prefix + items[i].key;
      var methods := items[i].methods;
      var forPath: seq<Endpoint> := [];
      for j := 0 to |methods|
        invariant forPath == MethodEndpoints(apiUrl, methods[..j])
      {
        assert methods[..j + 1][..j] == methods[..j];
        forPath := forPath + [Found(apiUrl, "swagger_spec", 1.0).(verb := Upper(methods[j]))];
      }
      assert methods[..|methods|] == methods;
      endpoints := endpoints + forPath;
    }
    assert items[..|items|] == items;
  }

  /** The number of (path key, method key) pairs. */
  function PairCount(items: seq<PathItem>): nat
    decreases |items|
  {
    if items == [] then 0 else PairCount(items[..|items| - 1]) + |items[|items| - 1].methods|
  }

  /** Each method key of a path yields one record for that path's URL, its method upper-cased, at 1.0. */
  lemma {:induction false} MethodEndpointsShape(url: string, methods: seq<string>)
    ensures |MethodEndpoints(url, methods)| == |methods|
    ensures forall k :: 0 <= k < |methods| ==>
      MethodEndpoints(url, methods)[k] == Endpoint(url, Upper(methods[k]), [], map[], "swagger_spec", 1.0)
    decreases |methods|
  {
    if methods != [] {
      MethodEndpointsShape(url, methods[..|methods| - 1]);
    }
  }

  /** Exactly one record per (path key, method key) pair, each a `swagger_spec` record at confidence 1.0. */
  lemma {:induction false} ExpandedShape(prefix: string, items: seq<PathItem>)
    ensures |Expanded(prefix, items)| == PairCount(items)
    ensures forall e :: e in Expanded(prefix, items) ==>
      e.source == "swagger_spec" && e.confidence == 1.0 && HasNoLowerCase(e.verb)
      && exists item :: item in items && e.url == prefix + item.key
    decreases |items|
  {
    if items != [] {
      var init := items[..|items| - 1];
      var item := items[|items| - 1];
      ExpandedShape(prefix, init);
      MethodEndpointsShape(prefix + item.key, item.methods);
      forall e | e in Expanded(prefix, items)
        ensures e.source == "swagger_spec" && e.confidence == 1.0 && HasNoLowerCase(e.verb)
          && exists it :: it in items && e.url == prefix + it.key
      {
        if e in Expanded(prefix, init) {
          var it :| it in init && e.url == prefix + it.key;
          assert it in items;
        } else {
          var k :| 0 <= k < |item.methods| && MethodEndpoints(prefix + item.key, item.methods)[k] == e;
          UpperHasNoLowerCase(item.methods[k]);
          assert item in items;
        }
      }
    }
  }

  /** A path and its `get` and `post` operations. */
  lemma SwaggerExpansionExample(prefix: string)
    ensures Expanded(prefix, [PathItem("/users", ["get", "post"])]) == [
      Endpoint(prefix + "/users", "GET", [], map[], "swagger_spec", 1.0),
      Endpoint(prefix + "/users", "POST", [], map[], "swagger_spec", 1.0)]
  {
    MethodEndpointsShape(prefix + "/users", ["get", "post"]);
    assert Upper("get") == "GET" && Upper("post") == "POST";
    assert [PathItem("/users", ["get", "post"])][..0] == [];
  }

  /** A 200 response always contributes its `swagger_docs` record first; with no expansion, only that. */
  lemma SwaggerHitFirst(base: string, fetch: string -> Fetch, decode: string -> SwaggerDoc, paths: seq<string>)
    requires paths != [] && IsOk(fetch(ApiBase(base) + paths[|paths| - 1]))
    ensures var before := SwaggerScanned(base, fetch, decode, paths[..|paths| - 1]);
      var path := paths[|paths| - 1];
      var after := SwaggerScanned(base, fetch, decode, paths);
      && |after| > |before| && after[..|before|] == before
      && after[|before|] == Found(ApiBase(base) + path, "swagger_docs", 0.9)
      && (!Contains(path, "json") ==> |after| == |before| + 1)
  {
  }

  /** An unreachable host yields no swagger records. */
  lemma {:induction false} UnreachableSwagger(base: string, fetch: string -> Fetch,
                                              decode: string -> SwaggerDoc, paths: seq<string>)
    requires forall u :: fetch(u) == TransportError
    ensures SwaggerScanned(base, fetch, decode, paths) == []
    decreases |paths|
  {
    if paths != [] {
      UnreachableSwagger(base, fetch, decode, paths[..|paths| - 1]);
    }
  }
}
