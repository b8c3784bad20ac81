/**
 * `Cli` (main.py): what the command line does after argument parsing, once
 * every pass has produced its records — argument checks, the combination of
 * the passes, the confidence threshold, and the choice of the report file
 * name. The passes' results, the parsed host (`netloc`) and the clock
 * reading are inputs.
 */
module Cli {
  import opened Wrappers
  import opened Text
  import opened Seqs
  import opened Endpoints

  // ---------------------------------------------------------------------------
  // Argument checks

  const UrlSchemeError: string := "Error: URL must start with http:// or https://"
  const ThresholdError: string := "Error: Confidence threshold must be between 0.0 and 1.0"

  /** The first argument check that fails, as its message on standard error; `None` when the run goes on. */
  function ArgumentError(url: string, threshold: real): (error: Option<string>)
    ensures error == None <==>
      (StartsWith(url, "http://") || StartsWith(url, "https://")) && 0.0 <= threshold <= 1.0
    ensures !(StartsWith(url, "http://") || StartsWith(url, "https://")) ==> error == Some(UrlSchemeError)
    ensures error == Some(ThresholdError) ==> threshold < 0.0 || threshold > 1.0
  {
    if !(StartsWith(url, "http://") || StartsWith(url, "https://")) then Some(UrlSchemeError)
    else if threshold < 0.0 || threshold > 1.0 then Some(ThresholdError)
    else None
  }

  /** The exit status of the argument checks: 1 on a failed check, otherwise the run continues. */
  function ArgumentExitCode(url: string, threshold: real): (code: Option<int>)
    ensures code == None || code == Some(1)
    ensures code == None <==> ArgumentError(url, threshold) == None
  {
    if ArgumentError(url, threshold).Some? then Some(1) else None
  }

  /** A URL of another scheme is refused however good the threshold, and a well-formed call is accepted. */
  lemma ArgumentExamples(threshold: real)
    requires 0.0 <= threshold <= 1.0
    ensures ArgumentExitCode("ftp://example.com", threshold) == Some(1)
    ensures ArgumentExitCode("https://example.com", threshold) == None
    ensures ArgumentExitCode("https://example.com", 1.5) == Some(1)
  {
    assert !StartsWith("ftp://example.com", "http://") by { assert "ftp://example.com"[0] != 'h'; }
    assert !StartsWith("ftp://example.com", "https://") by { assert "ftp://example.com"[0] != 'h'; }
    assert "https://example.com"[..8] == "https://";
  }

  // ---------------------------------------------------------------------------
  // Combining the passes

  /** The records of every pass that ran, in the order the command line extends its list. */
  function Passes(discovered: seq<Endpoint>, scanCommonPaths: bool, common: seq<Endpoint>,
                  includeSwagger: bool, swagger: seq<Endpoint>, robots: seq<Endpoint>,
                  sitemap: seq<Endpoint>): seq<Endpoint>
  {
    discovered + (if scanCommonPaths then common else []) + (if includeSwagger then swagger else [])
    + robots + sitemap
  }

  function MeetsThreshold(threshold: real): Endpoint -> bool {
    (e: Endpoint) => e.confidence >= threshold
  }

  /** The filtered records: de-duplicated over all passes, then those at or above the threshold, in order. */
  function Combined(discovered: seq<Endpoint>, scanCommonPaths: bool, common: seq<Endpoint>,
                    includeSwagger: bool, swagger: seq<Endpoint>, robots: seq<Endpoint>,
                    sitemap: seq<Endpoint>, threshold: real): seq<Endpoint>
  {
    Filter(Dedup(Passes(discovered, scanCommonPaths, common, includeSwagger, swagger, robots, sitemap)),
           MeetsThreshold(threshold))
  }

  /** The list grows pass by pass, then is de-duplicated and cut at the threshold. */
  method CombinePasses(discovered: seq<Endpoint>, scanCommonPaths: bool, common: seq<Endpoint>,
                       includeSwagger: bool, swagger: seq<Endpoint>, robots: seq<Endpoint>,
                       sitemap: seq<Endpoint>, threshold: real) returns (filtered: seq<Endpoint>)
    ensures filtered == Combined(discovered, scanCommonPaths, common, includeSwagger, swagger, robots, sitemap, threshold)
    ensures DistinctKeys(filtered)
    ensures forall e :: e in filtered ==> e.confidence >= threshold
  {
    var endpoints := discovered;
    if scanCommonPaths {
      endpoints := endpoints + common;
    }
    if includeSwagger {
      endpoints := endpoints + swagger;
    }
    endpoints := endpoints + robots;
    endpoints := endpoints + sitemap;
    assert endpoints == Passes(discovered, scanCommonPaths, common, includeSwagger, swagger, robots, sitemap);
    var unique := Deduplicate(endpoints);
    filtered := Filter(unique, MeetsThreshold(threshold));
    FilterKeepsDistinctKeys(unique, MeetsThreshold(threshold));
  }

  lemma {:induction false} FilterKeepsDistinctKeys(s: seq<Endpoint>, p: Endpoint -> bool)
    requires DistinctKeys(s)
    ensures DistinctKeys(Filter(s, p))
    decreases |s|
  {
    if s != [] {
      var init := s[..|s| - 1];
      var last := s[|s| - 1];
      assert DistinctKeys(init);
      FilterKeepsDistinctKeys(init, p);
      if p(last) {
        var r := Filter(s, p);
        var fi := Filter(init, p);
        assert r == fi + [last];
        forall i, j | 0 <= i < j < |r| ensures KeyOf(r[i]) != KeyOf(r[j]) {
          if j == |r| - 1 {
            assert r[i] == fi[i] && fi[i] in fi && fi[i] in init;
            var k :| 0 <= k < |init| && init[k] == r[i];
            assert s[k] == r[i] && s[|s| - 1] == last;
          } else {
            assert r[i] == fi[i] && r[j] == fi[j];
          }
        }
      }
    }
  }

  /** A record survives exactly when it is the kept record of its key and it meets the threshold. */
  lemma CombinedMembership(discovered: seq<Endpoint>, scanCommonPaths: bool, common: seq<Endpoint>,
                           includeSwagger: bool, swagger: seq<Endpoint>, robots: seq<Endpoint>,
                           sitemap: seq<Endpoint>, threshold: real, e: Endpoint)
    ensures var unique := Dedup(Passes(discovered, scanCommonPaths, common, includeSwagger, swagger, robots, sitemap));
      e in Combined(discovered, scanCommonPaths, common, includeSwagger, swagger, robots, sitemap, threshold)
      <==> e in unique && e.confidence >= threshold
  {
    var unique := Dedup(Passes(discovered, scanCommonPaths, common, includeSwagger, swagger, robots, sitemap));
    if e in unique && e.confidence >= threshold {
      FilterKeeps(unique, MeetsThreshold(threshold), e);
    }
  }

  /**
   * The discovery pass comes first, so on a key collision its record wins: the
   * page's own de-duplicated records above the threshold open the result, in
   * their order, whatever the scanner passes found.
   */
  lemma DiscoveryWins(discovered: seq<Endpoint>, scanCommonPaths: bool, common: seq<Endpoint>,
                      includeSwagger: bool, swagger: seq<Endpoint>, robots: seq<Endpoint>,
                      sitemap: seq<Endpoint>, threshold: real)
    ensures Filter(Dedup(discovered), MeetsThreshold(threshold))
      <= Combined(discovered, scanCommonPaths, common, includeSwagger, swagger, robots, sitemap, threshold)
  {
    var c: seq<Endpoint> := if scanCommonPaths then common else [];
    var s: seq<Endpoint> := if includeSwagger then swagger else [];
    AppendAssoc(discovered, c, s);
    AppendAssoc(discovered, c + s, robots);
    AppendAssoc(discovered, c + s + robots, sitemap);
    FirstPassLeads(discovered, c + s + robots + sitemap, threshold);
  }

  /** The kept records of a first pass open the kept records of that pass followed by others. */
  lemma FirstPassLeads(first: seq<Endpoint>, later: seq<Endpoint>, threshold: real)
    ensures Filter(Dedup(first), MeetsThreshold(threshold)) <= Filter(Dedup(first + later), MeetsThreshold(threshold))
  {
    DedupPrefix(first, later);
    var all := Dedup(first + later);
    var rest := all[|Dedup(first)|..];
    assert all == Dedup(first) + rest;
    FilterAppend(Dedup(first), rest, MeetsThreshold(threshold));
  }

  /** When the host answers none of the scanner's probes, the result is the discovery pass alone, cut at the threshold. */
  lemma ScannerSilent(discovered: seq<Endpoint>, scanCommonPaths: bool, includeSwagger: bool, threshold: real)
    ensures Combined(discovered, scanCommonPaths, [], includeSwagger, [], [], [], threshold)
      == Filter(Dedup(discovered), MeetsThreshold(threshold))
  {
    assert Passes(discovered, scanCommonPaths, [], includeSwagger, [], [], []) == discovered;
  }

  /** The threshold 0.0 keeps every de-duplicated record of non-negative confidence. */
  lemma ZeroThresholdKeepsAll(all: seq<Endpoint>)
    requires forall e :: e in all ==> e.confidence >= 0.0
    ensures Filter(Dedup(all), MeetsThreshold(0.0)) == Dedup(all)
  {
    DedupIsSubsequence(all);
    SubsequenceMembers(Dedup(all), all);
    FilterAll(Dedup(all), MeetsThreshold(0.0));
  }

  // ---------------------------------------------------------------------------
  // Report file name

  /** The host part made safe for a file name: every colon and every dot becomes an underscore, and nothing else changes. */
  function SanitizeDomain(netloc: string): (domain: string)
    ensures |domain| == |netloc| && ':' !in domain && '.' !in domain
    ensures forall i :: 0 <= i < |netloc| && netloc[i] != ':' && netloc[i] != '.' ==> domain[i] == netloc[i]
    ensures forall i :: 0 <= i < |netloc| && (netloc[i] == ':' || netloc[i] == '.') ==> domain[i] == '_'
  {
    ReplaceChar(ReplaceChar(netloc, ':', '_'), '.', '_')
  }

  /** A path component `pathlib` keeps: not empty and not `.`. */
  predicate IsPathPart(part: string) {
    part != "" && part != "."
  }

  /** `PurePosixPath(path).name`: the last component kept, or the empty string. */
  function PathName(path: string): (name: string)
    ensures '/' !in name
  {
    var parts := Filter(Split(path, "/"), IsPathPart);
    if parts == [] then "" else
      var last := parts[|parts| - 1];
      assert last in Split(path, "/");
      SplitPartsHaveNoSeparator(path, '/');
      last
  }

  lemma {:induction false} SplitPartsHaveNoSeparator(s: string, c: char)
    ensures forall part :: part in Split(s, [c]) ==> c !in part
    decreases |s|
  {
    if |s| >= 1 {
      SplitPartsHaveNoSeparator(s[1..], c);
      if !StartsWith(s, [c]) {
        var rest := Split(s[1..], [c]);
        assert s[0] != c by { assert s[..1] != [c]; }
        assert rest[0] in rest;
        forall part | part in Split(s, [c]) ensures c !in part {
          if part != [s[0]] + rest[0] {
            assert part in rest[1..];
          }
        }
      }
    }
  }

  /** `s.rfind(c)`: the last position of `c`, or -1. */
  function RFind(s: string, c: char): (i: int)
    ensures -1 <= i < |s|
    ensures i >= 0 ==> s[i] == c && c !in s[i + 1..]
    ensures i == -1 ==> c !in s
    decreases |s|
  {
    if s == [] then -1
    else if s[|s| - 1] == c then |s| - 1
    else
      var i := RFind(s[..|s| - 1], c);
      assert s == s[..|s| - 1] + [s[|s| - 1]];
      i
  }

  /** `PurePath.suffix` of a name: from its last dot, when that dot is neither first nor last. */
  function Suffix(name: string): (suffix: string)
    ensures suffix == "" || (|suffix| >= 2 && suffix[0] == '.' && '.' !in suffix[1..] && EndsWith(name, suffix)
                             && |suffix| < |name|)
  {
    var i := RFind(name, '.');
    if 0 < i < |name| - 1 then name[i..] else ""
  }

  /** `PurePath.stem` of a name: what precedes its suffix. */
  function Stem(name: string): (stem: string)
    ensures name != "" ==> stem != ""
  {
    var i := RFind(name, '.');
    if 0 < i < |name| - 1 then name[..i] else name
  }

  /** A name is its stem followed by its suffix. */
  lemma StemThenSuffix(name: string)
    ensures Stem(name) + Suffix(name) == name
  {
    var i := RFind(name, '.');
    if 0 < i < |name| - 1 {
      assert name[..i] + name[i..] == name;
    }
  }

  /** `os.path.join("extracts", f"{stem}_{domain}{suffix}")` for a user-supplied file name. */
  function RenamedOutput(output: string, domain: string): string {
    var name := PathName(output);
    "extracts/" + Stem(name) + "_" + domain + Suffix(name)
  }

  /** The report formats of `--format`. */
  datatype Format = Console | Json | Csv | Html | List | Detailed

  /** The auto-save file name under `extracts/` for a format. */
  function AutoSaveName(format: Format, domain: string, timestamp: string): (name: string)
    ensures format == Detailed ==> name == "api_detailed_" + domain + "_" + timestamp + ".txt"
    ensures format != Detailed ==> StartsWith(name, "api_endpoints_" + domain + "_" + timestamp)
    ensures format == Json ==> EndsWith(name, ".json")
    ensures format == Csv ==> EndsWith(name, ".csv")
    ensures format == Html ==> EndsWith(name, ".html")
    ensures format in {List, Console} ==> EndsWith(name, ".txt")
  {
    var stem := "api_endpoints_" + domain + "_" + timestamp;
    match format
    case Json => stem + ".json"
    case Csv => stem + ".csv"
    case Html => stem + ".html"
    case List => stem + ".txt"
    case Detailed => "api_detailed_" + domain + "_" + timestamp + ".txt"
    case Console => stem + ".txt"
  }

  /**
   * The report file: the user's name when it already names the domain, else
   * that name moved to `extracts/` with the domain added; with no name, the
   * auto-save name when `--auto-save` is set, else none (the report goes to
   * the console). `output == ""` stands for an absent `--output`.
   */
  method ChooseOutputFile(output: string, autoSave: bool, format: Format, domain: string, timestamp: string)
    returns (outputFile: string)
    ensures output != "" && Contains(output, domain) ==> outputFile == output
    ensures output != "" && !Contains(output, domain) ==> outputFile == RenamedOutput(output, domain)
    ensures output == "" && autoSave ==> outputFile == "extracts/" + AutoSaveName(format, domain, timestamp)
    ensures output == "" && !autoSave ==> outputFile == ""
  {
    outputFile := output;
    if output != "" && !Contains(output, domain) {
      var name := PathName(output);
      outputFile := "extracts/" + Stem(name) + "_" + domain + Suffix(name);
    }
    if autoSave && output == "" {
      outputFile := "extracts/" + AutoSaveName(format, domain, timestamp);
    }
  }

  /** Whenever a report file is chosen, its name carries the domain. */
  lemma OutputFileNamesDomain(output: string, autoSave: bool, format: Format, domain: string, timestamp: string)
    ensures output != "" && !Contains(output, domain) ==> Contains(RenamedOutput(output, domain), domain)
    ensures output == "" && autoSave ==> Contains("extracts/" + AutoSaveName(format, domain, timestamp), domain)
  {
    RenamedNamesDomain(output, domain);
    AutoSaveNamesDomain(format, domain, timestamp);
  }

  lemma RenamedNamesDomain(output: string, domain: string)
    ensures Contains(RenamedOutput(output, domain), domain)
  {
    var name := PathName(output);
    ContainsMiddle("extracts/" + Stem(name) + "_", domain, Suffix(name));
  }

  lemma AutoSaveNamesDomain(format: Format, domain: string, timestamp: string)
    ensures Contains("extracts/" + AutoSaveName(format, domain, timestamp), domain)
  {
    match format
    case Json => NamedBetween("extracts/", "api_endpoints_", domain, timestamp, ".json");
    case Csv => NamedBetween("extracts/", "api_endpoints_", domain, timestamp, ".csv");
    case Html => NamedBetween("extracts/", "api_endpoints_", domain, timestamp, ".html");
    case List => NamedBetween("extracts/", "api_endpoints_", domain, timestamp, ".txt");
    case Detailed => NamedBetween("extracts/", "api_detailed_", domain, timestamp, ".txt");
    case Console => NamedBetween("extracts/", "api_endpoints_", domain, timestamp, ".txt");
  }

  lemma NamedBetween(dir: string, kind: string, domain: string, timestamp: string, extension: string)
    ensures Contains(dir + (kind + domain + "_" + timestamp + extension), domain)
  {
    var rest := "_" + timestamp + extension;
    ContainsMiddle(dir + kind, domain, rest);
    assert dir + (kind + domain + "_" + timestamp + extension) == dir + kind + domain + rest;
  }

  /**
   * A renamed file sits directly in `extracts/`, keeps the user's stem and
   * suffix, and drops whatever directory the user named.
   */
  lemma RenamedOutputShape(output: string, domain: string)
    requires '/' !in domain
    ensures var r := RenamedOutput(output, domain);
      && StartsWith(r, "extracts/") && '/' !in r[9..]
      && EndsWith(r, "_" + domain + Suffix(PathName(output)))
  {
    var name := PathName(output);
    NameHalvesHaveNoSlash(name);
    FileInDirectory("extracts/", Stem(name), domain, Suffix(name));
  }

  /** `dir` followed by a file name made of slash-free pieces. */
  lemma FileInDirectory(dir: string, stem: string, domain: string, suffix: string)
    requires '/' !in stem && '/' !in domain && '/' !in suffix
    ensures var path := dir + stem + "_" + domain + suffix;
      && StartsWith(path, dir) && '/' !in path[|dir|..] && EndsWith(path, "_" + domain + suffix)
  {
    var ending := "_" + domain + suffix;
    var file := stem + ending;
    assert '/' !in file;
    assert dir + stem + "_" + domain + suffix == dir + file;
    StartsWithAppend(dir, file);
    assert (dir + file)[|dir|..] == file;
    assert dir + file == (dir + stem) + ending;
    EndsWithAppend(dir + stem, ending);
  }

  lemma NameHalvesHaveNoSlash(name: string)
    requires '/' !in name
    ensures '/' !in Stem(name) && '/' !in Suffix(name)
  {
    StemThenSuffix(name);
    assert forall c :: c in Stem(name) ==> c in name;
    assert forall k :: 0 <= k < |Suffix(name)| ==> Suffix(name)[k] == name[|Stem(name)| + k];
  }
}
