# API Hunter, modelled in Dafny

API Hunter finds the HTTP API endpoints of a web site. It fetches the target
page and runs a fixed list of discovery strategies over it: links, inline
scripts, forms, AJAX-call patterns, meta tags and data attributes, comments,
and, in an authenticated session, authenticated-only content. It
de-duplicates the records on their `(url, method)` key and re-scores each one
with a HEAD request. The command line can add scanner passes: common API
paths, Swagger/OpenAPI documents, robots.txt and sitemaps. It then
de-duplicates again, drops records under a confidence threshold, picks a
report file name, and renders a JSON, plain-list, detailed or console report.

This project models that pipeline. Every network response, every parser
result and every regular-expression match list is an input, so each pass is
a deterministic function or method of its inputs.

| file | module | models |
|---|---|---|
| `endpoint.dfy` | `Endpoints` | the `APIEndpoint` record and `_deduplicate_endpoints` |
| `classifier.dfy` | `Classifier` | `_is_potential_endpoint` and `_is_api_endpoint` |
| `patterns.dfy` | `ApiPatterns` | the regular expressions of `api_patterns`, matched as written |
| `probes.dfy` | `Probes` | HTTP responses and transport failures |
| `validator.dfy` | `Validator` | the re-scoring loop of `_validate_endpoints` |
| `extractors.dfy` | `Extractors` | the discovery strategies, over their match lists |
| `discovery.dfy` | `Discovery` | `discover_endpoints` |
| `scanner.dfy` | `Scanner` | `EndpointScanner` |
| `reporter.dfy` | `Reporter` | the report generators |
| `cli.dfy` | `Cli` | `main` after argument parsing |
| `text.dfy`, `seqs.dfy`, `wrappers.dfy` | `Text`, `Seqs`, `Wrappers` | Python string and list operations, `Option` |

Where the description of the tool and its code disagree, the model follows
the code:

- De-duplication keeps the first record of a key. It never takes the highest
  confidence.
- A HEAD answer with status 400 or above leaves the confidence unchanged. It
  is not lowered. So a record of confidence 0.0 stays at 0.0 after
  validation (`Validator.ErrorStatusKeepsZero`). Only a transport failure
  lowers a score, and then the floor is 0.1.
- The first API-shape pattern needs `/api/`, with a trailing slash. A URL
  ending in `/api` is not API-shaped (`ApiPatterns.BareApiPathIsNotApiShaped`).
- Form actions are not screened for `javascript:` schemes.
- Links are screened only by the API-shape test (api_hunter/core.py:106-108).
  `urljoin` leaves `javascript:fetch('/api/x')` as it is, and it contains
  `/api/`, so it becomes a record (`Extractors.LinksKeepJavascriptHref`).
- `data-api-url` values are not screened at all (api_hunter/core.py:233-242).
  A value of `javascript:void(0)` becomes a record
  (`Extractors.DataAttributeKeepsJavascriptUrl`).
- The `javascript:`/`mailto:` test of `_is_potential_endpoint` is
  case-sensitive (`Classifier.RejectionIsCaseSensitive`).
- robots.txt is split on a backslash followed by `n`, not on line breaks (see
  Findings). The console report joins its lines with the same two-character
  separator, and it is modelled as written.

## Model

| member | source | states |
|---|---|---|
| Endpoints.Default | api_hunter/core.py:13-27 | a record built from a URL alone has method GET, no parameters, no headers, source `unknown` and confidence 0.0 |
| Endpoints.Deduplicate | api_hunter/core.py:303-314 | the loop returns the first-occurrence list; its keys are pairwise distinct, it has exactly the input's keys, and it is a subsequence of the input |
| Endpoints.DedupDistinctKeys | api_hunter/core.py:308-312 | no two output records share a `(url, method)` key |
| Endpoints.DedupKeys | api_hunter/core.py:308-312 | every key of the input appears in the output, and no other key does |
| Endpoints.DedupIsSubsequence | api_hunter/core.py:308-312 | the output keeps input records unchanged, in input order, and is no longer than the input |
| Endpoints.DedupKeepsFirst | api_hunter/core.py:308-312 | the first record of every key survives |
| Endpoints.DedupOnlyFirst | api_hunter/core.py:308-312 | every surviving record is the first record of its key |
| Endpoints.DedupRepresentative | api_hunter/core.py:308-312 | the first record of a key is the only survivor with that key |
| Endpoints.LaterDuplicateDropped | api_hunter/core.py:308-312 | a later record with an already-seen key is dropped unless it equals the first one |
| Endpoints.DuplicateKeepsFirstConfidence | api_hunter/core.py:308-312 | of two records with one key, the first survives whatever the confidences, so no maximum is taken |
| Endpoints.DedupOfDistinct | api_hunter/core.py:303-314 | a list whose keys are already distinct is returned unchanged |
| Endpoints.DedupIdempotent | api_hunter/core.py:303-314 | de-duplicating twice is de-duplicating once |
| Endpoints.DedupPrefix | main.py:234-263 | de-duplicating a list yields a prefix of de-duplicating that list with more records appended |
| Classifier.PotentialRejects | api_hunter/core.py:290-292 | the empty URL and URLs starting with `javascript:` or `mailto:` are never potential endpoints |
| Classifier.AnyIndicator | api_hunter/core.py:300-301 | the keyword loop, which stops at the first keyword found, answers true exactly when some keyword occurs in the lower-cased text |
| Classifier.CheckPotentialEndpoint | api_hunter/core.py:288-301 | the guard and then the keyword loop answer exactly the potential-endpoint predicate: not empty, no `javascript:` or `mailto:` prefix, and some keyword present |
| Classifier.RejectionIsCaseSensitive | api_hunter/core.py:291 | `JAVASCRIPT:api()` passes the guard and is a potential endpoint |
| Classifier.ApiEndpointIsPotential | api_hunter/core.py:281-301 | every API-shaped URL that passes the guard is also a potential endpoint |
| ApiPatterns.PatternMeaning | api_hunter/core.py:43-53 | each of the nine case-insensitive regular expressions matches somewhere iff its substring or suffix test holds |
| ApiPatterns.ApiEndpointMatchesPatterns | api_hunter/core.py:281-286 | `_is_api_endpoint` holds iff some pattern of the bank matches the URL |
| ApiPatterns.BareApiPathIsNotApiShaped | api_hunter/core.py:44 | `/api` with no trailing slash matches no pattern |
| Validator.Rescore | api_hunter/core.py:320-339 | a transport failure gives max(c − 0.3, 0.1); status ≥ 400 keeps c; success gives min(c + 0.2, 1.0), plus 0.1 more (still capped) for a json/xml/api content type |
| Validator.RescoreStaysInUnitInterval | api_hunter/core.py:320-339 | a score in [0, 1] stays in [0, 1]; success never lowers it; failure never raises it above max(c, 0.1) |
| Validator.ErrorStatusKeepsZero | api_hunter/core.py:326-334 | a 404 answer leaves confidence 0.0 at 0.0 |
| Validator.RescoreExamples | api_hunter/core.py:320-339 | 0.6 becomes 0.9 on a 200 JSON answer, stays 0.6 on a 500, and becomes 0.3 on a transport failure |
| Validator.ValidateEndpoints | api_hunter/core.py:316-344 | every record is kept, in order, with only its confidence replaced by the re-score of its own probe |
| Validator.ValidatedKeepsKeys | api_hunter/core.py:316-344 | validation keeps each record's key, the key set, and key distinctness |
| Validator.ValidatedInUnitInterval | api_hunter/core.py:316-344 | validation keeps every confidence within [0, 1] |
| Extractors.Harvest | api_hunter/core.py:104-116 | the collection loop returns one record per admitted match, in match order |
| Extractors.HarvestedSound | api_hunter/core.py:104-116 | every record comes from an admitted match, resolved, with the strategy's source and confidence |
| Extractors.HarvestedComplete | api_hunter/core.py:104-116 | every admitted match yields its record |
| Extractors.HarvestedAppend | api_hunter/core.py:203-213 | the matches of consecutive patterns contribute consecutive records |
| Extractors.DiscoverFromLinks | api_hunter/core.py:100-116 | link records are API-shaped, from `html_link`, at confidence 0.7 |
| Extractors.DiscoverFromAjaxCalls | api_hunter/core.py:182-215 | AJAX records are potential endpoints after resolution, from `ajax_call`, at 0.9 |
| Extractors.DiscoverFromMetaTags | api_hunter/core.py:217-244 | meta-tag records then data-attribute records, with at least one record per `data-api-url` value |
| Extractors.LinksKeepJavascriptHref | api_hunter/core.py:106-108 | an `href` of `javascript:fetch('/api/x')` that `urljoin` leaves unchanged becomes a 0.7 `html_link` record, though the potential-endpoint test rejects it |
| Extractors.DataAttributeKeepsJavascriptUrl | api_hunter/core.py:233-242 | a `data-api-url` of `javascript:void(0)` that `urljoin` leaves unchanged becomes a 0.8 `data_attribute` record, though the potential-endpoint test rejects it |
| Extractors.UncheckedKeepsAll | api_hunter/core.py:233-242 | data-attribute values are taken without a test, one record each |
| Extractors.DiscoverFromComments | api_hunter/core.py:246-279 | comment records are potential endpoints after resolution, from `comment`, at 0.4 |
| Extractors.PotentialGateRejects | api_hunter/core.py:269-277 | no record of a screened strategy has an empty, `javascript:` or `mailto:` URL |
| Extractors.ScriptVerb | api_hunter/core.py:136-145 | the method is the upper-cased captured verb when one is captured, else GET, and never holds a lower-case letter |
| Extractors.DiscoverFromScripts | api_hunter/core.py:118-151 | the script loop returns the records of the admitted matches, in order |
| Extractors.ScriptedSound | api_hunter/core.py:133-149 | script records are potential endpoints from `javascript` at 0.8, with an upper-case method, at most one per match |
| Extractors.FetchCallExample | api_hunter/core.py:126 | a `fetch('/api/v2/users')` capture yields one GET record for the resolved URL |
| Extractors.FormVerb | api_hunter/core.py:159 | a form's method is upper-cased and defaults to GET |
| Extractors.DiscoverFromForms | api_hunter/core.py:153-180 | the nested form and control loops return the records of the forms with an action |
| Extractors.FormParametersIff | api_hunter/core.py:165-169 | a name is a parameter iff an input, select or textarea control carries it |
| Extractors.FormedSound | api_hunter/core.py:157-178 | one record per form with a non-empty action, from `html_form` at 0.6 with an upper-case method |
| Extractors.FormExample | api_hunter/core.py:153-180 | a POST form with an input `q` and a button `go` yields one POST record with parameters `["q"]` |
| Extractors.DiscoverAuthenticatedContent | api_hunter/core.py:346-406 | nothing without authentication; otherwise at least one record per pattern match |
| Discovery.DiscoverEndpoints | api_hunter/core.py:55-98 | a failed page fetch gives []; otherwise the validated, de-duplicated candidates in strategy order, with distinct keys |
| Discovery.DiscoveredRecords | api_hunter/core.py:88-94 | the result has distinct keys, exactly the candidates' keys, is no longer than the candidates, and each record is a candidate with a new confidence |
| Discovery.UnauthenticatedCandidates | api_hunter/core.py:67-86 | without authentication, neither the authenticated content nor the authenticated probes contribute |
| Scanner.CheckApiPath | api_hunter/scanner.py:177-185 | the scanner's keyword loop answers true exactly when some of its eleven keywords occurs in the lower-cased path |
| Scanner.LooksLikeApiPathIff | api_hunter/scanner.py:177-185 | a path looks like an API path iff its lower-cased form contains one of the eleven keywords |
| Scanner.PotentialLooksLikeApiPath | api_hunter/scanner.py:177-185 | every potential endpoint also looks like an API path |
| Scanner.TestEndpoint | api_hunter/scanner.py:157-175 | a record iff the probe succeeded below 400; confidence 0.8 iff the content type names json, xml or api, else 0.5 |
| Scanner.ScanCommonPaths | api_hunter/scanner.py:26-43 | in any completion order, the same records as probing the fifteen paths in order: at most fifteen, each a path-scan record, every successful path present |
| Scanner.CommonPathRecords | api_hunter/scanner.py:18-43 | every collected record belongs to one of the fifteen paths and succeeded, and every successful path is collected |
| Scanner.CollectedSound | api_hunter/scanner.py:38-41 | only successful probes are collected, at most one per probe |
| Scanner.CollectedComplete | api_hunter/scanner.py:38-41 | every successful probe is collected |
| Scanner.UnreachableCommonPaths | api_hunter/scanner.py:38-41 | a host that answers no probe yields no common-path record |
| Scanner.DirectivePath | api_hunter/scanner.py:56 | the path of a directive is the stripped text after its first colon, shorter than the line |
| Scanner.ScanRobotsTxt | api_hunter/scanner.py:45-68 | the loop returns `RobotsScanned`: nothing unless robots.txt answers 200, otherwise the records of the pieces split on the literal backslash-n |
| Scanner.RobotsEndpointsSound | api_hunter/scanner.py:54-64 | each record comes from an Allow/Disallow line whose path looks like an API path, at 0.6 from `robots_txt` |
| Scanner.RobotsLiteralSeparatorMissesLines | api_hunter/scanner.py:53 | a two-line robots.txt with `Disallow: /api/` on its second line yields no record |
| Scanner.UserAgentLineHasNoRecord | api_hunter/scanner.py:55 | a `User-agent` line is not a directive and yields nothing |
| Scanner.RobotsByLine | api_hunter/scanner.py:53 | robots.txt read line by line, the corrected split |
| Scanner.RobotsByLineReadsEachLine | api_hunter/scanner.py:53-64 | joining lines with line breaks and reading them back gives each line's records, in order |
| Scanner.RobotsByLineFindsDirective | api_hunter/scanner.py:53-64 | read line by line, the same two-line robots.txt yields the `/api/` record |
| Scanner.UnreachableRobots | api_hunter/scanner.py:50-66 | when robots.txt does not answer 200 (a transport failure or any other status), the robots pass finds nothing |
| Scanner.RobotsScannedSound | api_hunter/scanner.py:57-64 | every robots record comes from `robots_txt` at 0.6 and its URL starts with the stripped base |
| Scanner.ScanSitemap | api_hunter/scanner.py:70-103 | the nested loops return the API-like `<loc>` records of the three sitemaps that answered 200 and parsed |
| Scanner.SitemapEndpointsSound | api_hunter/scanner.py:88-97 | each sitemap record is an API-looking `<loc>` text, from `sitemap` at 0.7, at most one per `<loc>` |
| Scanner.SitemapScannedSound | api_hunter/scanner.py:79-101 | every sitemap record comes from a sitemap that answered 200 and parsed |
| Scanner.UnreachableSitemaps | api_hunter/scanner.py:79-101 | a host that answers nothing yields no sitemap record |
| Scanner.DiscoverSwaggerDocs | api_hunter/scanner.py:105-155 | the loops return, for each document path that answered 200, its 0.9 record followed by its expanded `paths` |
| Scanner.ExpandPaths | api_hunter/scanner.py:140-149 | the nested loops emit one record per (path, method) pair, in document order |
| Scanner.MethodEndpointsShape | api_hunter/scanner.py:142-149 | one record per method, upper-cased, with the path's URL, from `swagger_spec` at 1.0 |
| Scanner.ExpandedShape | api_hunter/scanner.py:138-149 | the expansion has one record per (path, method) pair, each at 1.0 with an upper-case method and a URL of base, basePath and path key |
| Scanner.SwaggerExpansionExample | api_hunter/scanner.py:138-149 | a `/users` item with `get` and `post` yields GET then POST records for the same URL |
| Scanner.SwaggerHitFirst | api_hunter/scanner.py:126-132 | a document path that answers 200 appends its own 0.9 `swagger_docs` record first, and only that record when the path does not name json |
| Scanner.UnreachableSwagger | api_hunter/scanner.py:122-153 | a host that answers nothing yields no Swagger record |
| Reporter.SortByConfidenceSpec | api_hunter/reporter.py:239-240 | the sorted list is a permutation of the input in non-increasing confidence |
| Reporter.SortByConfidenceStable | api_hunter/reporter.py:239-240 | records of equal confidence keep their input order |
| Reporter.LevelsPartition | api_hunter/reporter.py:277-279 | the high, medium and low lists together hold every record exactly as often as the input; the console report builds the same lists at api_hunter/reporter.py:337-339 |
| Reporter.LevelMembership | api_hunter/reporter.py:277-279 | a record is in the level its confidence names, and in exactly one level |
| Reporter.SortedLevelsAreBlocks | api_hunter/reporter.py:277-279 | over a sorted list, high, medium and low concatenated give back the list |
| Reporter.LevelCountsAddUp | api_hunter/reporter.py:309-316 | the three level counts add up to the number of records |
| Reporter.ConfidenceClass | api_hunter/reporter.py:193-198 | the class is `high-confidence` iff confidence ≥ 0.8, `medium-confidence` iff in [0.5, 0.8), `low-confidence` iff < 0.5 |
| Reporter.GenerateJsonReport | api_hunter/reporter.py:15-43 | the total is the input length and the records are a permutation of the input in non-increasing confidence |
| Reporter.GenerateSimpleList | api_hunter/reporter.py:234-256 | the no-endpoints message for no records; otherwise the list's lines joined by line breaks |
| Reporter.SimpleListReadsBack | api_hunter/reporter.py:242-250 | read back line by line, the simple list is two comment lines, a blank line, then exactly the sorted URLs |
| Reporter.AddEndpointSection | api_hunter/reporter.py:281-299 | a section appends nothing for an empty level, otherwise its heading, rule, numbered entries and a blank line |
| Reporter.GenerateDetailedList | api_hunter/reporter.py:258-322 | the no-endpoints message for no records; otherwise header, three level sections and summary, joined by line breaks |
| Reporter.DetailedSummaryConsistent | api_hunter/reporter.py:309-316 | the summary's level counts add up to its total, and a level has a section iff it is non-empty |
| Reporter.GenerateConsoleReport | api_hunter/reporter.py:324-364 | the no-endpoints message for no records; otherwise the console pieces joined by the literal backslash-n |
| Reporter.ConsoleEntriesLength | api_hunter/reporter.py:341-357 | every console entry takes two lines, plus one for a high-confidence record with parameters |
| Cli.ArgumentError | main.py:128-134 | the run goes on iff the URL starts with `http://` or `https://` and the threshold is within [0, 1]; the URL check comes first |
| Cli.ArgumentExitCode | main.py:128-134 | the exit status is 1 exactly when an argument check fails |
| Cli.ArgumentExamples | main.py:128-134 | an `ftp://` URL and a threshold of 1.5 are refused; an `https://` URL with a threshold in [0, 1] is accepted |
| Cli.CombinePasses | main.py:234-267 | the passes are appended in order, de-duplicated and cut at the threshold; keys are distinct and every record meets the threshold |
| Cli.CombinedMembership | main.py:262-267 | a record is in the result iff it survives de-duplication and meets the threshold |
| Cli.DiscoveryWins | main.py:234-263 | the page's own de-duplicated records at or above the threshold open the result, so on a key collision the discovery record wins |
| Cli.ScannerSilent | main.py:236-263 | when every scanner pass is empty, the result is the discovery pass alone, cut at the threshold |
| Cli.ZeroThresholdKeepsAll | main.py:264-267 | a threshold of 0.0 keeps every de-duplicated record of non-negative confidence |
| Cli.SanitizeDomain | main.py:279 | the domain has the length of the host, no `:` or `.`, and only those characters replaced, by `_` |
| Cli.PathName | main.py:292-293 | a path's name holds no `/` |
| Cli.StemThenSuffix | main.py:293-294 | a name is its stem followed by its suffix |
| Cli.Suffix | main.py:294 | a suffix is empty, or a dot and at least one non-dot character ending a longer name |
| Cli.AutoSaveName | main.py:300-313 | detailed reports are `api_detailed_{domain}_{timestamp}.txt`; others are `api_endpoints_{domain}_{timestamp}` with `.json`, `.csv`, `.html` or `.txt` |
| Cli.ChooseOutputFile | main.py:288-313 | a given name that holds the domain is kept, one that does not is rewritten under `extracts/`; with no name, auto-save picks one only when enabled |
| Cli.OutputFileNamesDomain | main.py:288-313 | every rewritten or auto-saved file name contains the domain |
| Cli.RenamedOutputShape | main.py:289-297 | a rewritten name lies directly in `extracts/`, drops the user's directory, and ends with `_{domain}` and the suffix |

## Left out

- api_hunter/auth.py is not part of this model. Its login flows are network exchanges. Its only effect on discovery is the `authenticated` flag, which is an input.
- The network is not modelled: `requests` sessions, `raise_for_status`, timeouts and the 0.1 s sleep between validation requests. Every response is an input: a `Fetch` per URL, or `probe(i)` for the i-th validation request.
- URL resolution is an opaque input `resolve`. That covers `urljoin` and the reference resolution of section 5.2 of RFC 3986. The scanner's plain string concatenation is modelled.
- BeautifulSoup traversal and the regular-expression banks of the extractors are not modelled. Each strategy takes the list of strings (or script matches, or forms) they produce. The nine `api_patterns` expressions are modelled in full.
- The two-group `.(get|post|...)` pattern at api_hunter/core.py:195 is not modelled. With two groups, `findall` yields (verb, url) tuples. The `urljoin` call at api_hunter/core.py:206 raises `TypeError` on a tuple. `discover_endpoints` catches only `requests.RequestException` (api_hunter/core.py:96), so the error escapes it. The command line then prints "Error during scan" and returns 1 with no report (main.py:373-378). So on any page text holding a `.get('…')`- or `.post('…')`-style call, the program yields nothing, while `Discovery.DiscoverEndpoints` returns the records of the other matches.
- Discovery.DiscoverEndpoints: does not model the escaping `TypeError` of the line above. Where the program ends with an error, the model still returns the records of the other strategies.
- Extractors.DiscoverFromScripts: a two-group match is taken as its (method, url) pair. The corner case of a tuple of length one is not modelled.
- Discovery.DiscoverEndpoints: `_test_authenticated_endpoints` (api_hunter/core.py:408-476) probes well-known paths over the network. Its hits are an input list, `authProbeHits`, included only in an authenticated session.
- Validator.ValidateEndpoints: the source writes confidence into the shared record objects. The model returns re-scored copies, so aliasing between the input and output lists is not captured.
- Scanner.ScanCommonPaths: the thread pool's completion order is nondeterministic. The contract fixes the records as a multiset, and `order` names one possible completion order.
- Scanner.ScanSitemap and Scanner.DiscoverSwaggerDocs: XML parsing and JSON decoding are inputs (`parse`, `decode`). A decoded document whose `paths` is not a mapping, or whose items are not lists, is not modelled.
- Confidence is an exact rational. IEEE-754 rounding is not modelled, so sums such as 0.6 + 0.2 + 0.1 are exact here.
- Text formatting is not modelled: `:.2f`, the `repr` of a headers dictionary, `json.dumps`, the CSV writer and the HTML template. `fmt` and `headersRepr` are parameters, and the HTML report is modelled only through its confidence class.
- Clock readings are parameters (`now`, `timestamp`), and `urlparse(...).netloc` is an input.
- File writes, `print`, `tempfile`, `os.makedirs` and `argparse` are not modelled.
- Python's case mapping and `str.isspace` beyond what is used are not modelled. Case mapping is ASCII-only, while the whitespace set is Python's full one.
- Cli.PathName follows POSIX path rules. Windows drive and separator handling is not modelled.

## Findings

| source | as written | input that shows it | evidently intended | confidence | as-written member | corrected member |
|---|---|---|---|---|---|---|
| api_hunter/scanner.py:53 | the robots.txt body is split on the two characters backslash and `n`, which a robots.txt file does not contain, so the whole file is one line | `User-agent: *` newline `Disallow: /api/`: one stripped line starting with `User-agent`, so no record | split on line breaks, so each `Allow:`/`Disallow:` line is read | not executed | Scanner.RobotsLiteralSeparatorMissesLines | Scanner.RobotsByLineFindsDirective |
