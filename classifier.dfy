/**
 * The two URL classifiers of `APIDiscovery` (api_hunter/core.py): the permissive
 * keyword test `_is_potential_endpoint` and the stricter path-shape test
 * `_is_api_endpoint`, whose regular expressions are each a case-insensitive
 * substring or suffix test (module ApiPatterns proves that).
 */
module Classifier {
  import opened Text

  /** The keywords of `_is_potential_endpoint`, in the source's order. */
  const PotentialIndicators: seq<string> :=
    ["api", "rest", "graphql", "endpoint", "service", "json", "xml", "data", "ajax", "fetch"]

  /** Some keyword of `indicators` occurs in the lower-cased `s` (the `any(...)` over the list). */
  predicate HasIndicator(s: string, indicators: seq<string>) {
    exists w :: w in indicators && Contains(Lower(s), w)
  }

  /** The guard of `_is_potential_endpoint`: empty, or an exact-case `javascript:` / `mailto:` prefix. */
  predicate IsRejected(url: string) {
    url == "" || StartsWith(url, "javascript:") || StartsWith(url, "mailto:")
  }

  /** `_is_potential_endpoint` */
  predicate IsPotentialEndpoint(url: string) {
    !IsRejected(url) && HasIndicator(url, PotentialIndicators)
  }

  /**
   * `_is_api_endpoint`: one clause per regular expression of `api_patterns`,
   * over the lower-cased URL. A `$` anchor also matches before one final
   * newline, hence the second form of each suffix.
   */
  predicate IsApiEndpoint(url: string) {
    var u := Lower(url);
    || Contains(u, "/api/")
    || Contains(u, "/rest/")
    || Contains(u, "/graphql")
    || Contains(u, "/endpoint/") || Contains(u, "/endpoints/")
    || Contains(u, "/service/") || Contains(u, "/services/")
    || EndsWith(u, ".json") || EndsWith(u, ".json\n")
    || EndsWith(u, ".xml") || EndsWith(u, ".xml\n")
    || Contains(u, "/json/")
    || Contains(u, "/xml/")
  }

  /** The rejected forms never pass, whatever keywords they carry. */
  lemma PotentialRejects(url: string)
    requires url == "" || StartsWith(url, "javascript:") || StartsWith(url, "mailto:")
    ensures !IsPotentialEndpoint(url)
  {
  }

  /**
   * The `any(indicator in text for indicator in indicators)` of the source:
   * the keywords are tried in order and the search stops at the first one found.
   */
  method AnyIndicator(text: string, indicators: seq<string>) returns (found: bool)
    ensures found == HasIndicator(text, indicators)
  {
    var lower := Lower(text);
    found := false;
    var i := 0;
    while i < |indicators| && !found
      invariant 0 <= i <= |indicators|
      invariant found <==> exists k :: 0 <= k < i && Contains(lower, indicators[k])
    {
      found := Contains(lower, indicators[i]);
      i := i + 1;
    }
    if found {
      var k :| 0 <= k < i && Contains(lower, indicators[k]);
      assert indicators[k] in indicators;
    } else {
      forall w | w in indicators ensures !Contains(lower, w) {
        var k :| 0 <= k < |indicators| && indicators[k] == w;
      }
    }
  }

  /** `_is_potential_endpoint`: the guard first, then the keyword search. */
  method CheckPotentialEndpoint(url: string) returns (potential: bool)
    ensures potential == IsPotentialEndpoint(url)
  {
    if url == "" || StartsWith(url, "javascript:") || StartsWith(url, "mailto:") {
      return false;
    }
    potential := AnyIndicator(url, PotentialIndicators);
  }

  /** The prefix test is case-sensitive: an upper-case scheme gets through. */
  lemma RejectionIsCaseSensitive()
    ensures IsPotentialEndpoint("JAVASCRIPT:api()")
  {
    var url := "JAVASCRIPT:api()";
    assert Lower(url)[11..14] == "api";
    ContainsAt(Lower(url), "api", 11);
    assert "api" in PotentialIndicators;
    assert !StartsWith(url, "javascript:") by { assert url[0] != 'j'; }
    assert !StartsWith(url, "mailto:") by { assert url[0] != 'm'; }
  }

  /** `w` occurs in `s` whenever a text containing `w` does. */
  lemma ContainsTransitive(s: string, t: string, w: string)
    requires Contains(s, t) && Contains(t, w)
    ensures Contains(s, w)
  {
    var i := ContainsWitness(s, t);
    var j := ContainsWitness(t, w);
    assert s[i + j..][..|w|] == t[j..][..|w|];
    ContainsAt(s, w, i + j);
  }

  lemma ContainsKeyword(s: string, t: string, k: nat, w: string)
    requires k + |w| <= |t| && t[k..k + |w|] == w && Contains(s, t)
    ensures Contains(s, w)
  {
    assert t[k..][..|w|] == w;
    ContainsAt(t, w, k);
    ContainsTransitive(s, t, w);
  }

  lemma EndsWithContains(s: string, w: string)
    requires EndsWith(s, w)
    ensures Contains(s, w)
  {
    assert s[|s| - |w|..][..|w|] == w;
    ContainsAt(s, w, |s| - |w|);
  }

  /**
   * The stricter shape test implies the keyword test: every shape carries one
   * of the keywords, so an accepted URL that is not rejected by the guard is
   * also a potential endpoint.
   */
  lemma ApiEndpointIsPotential(url: string)
    requires IsApiEndpoint(url) && !IsRejected(url)
    ensures IsPotentialEndpoint(url)
  {
    var u := Lower(url);
    assert Contains(u, "api") || Contains(u, "rest") || Contains(u, "graphql") || Contains(u, "endpoint")
      || Contains(u, "service") || Contains(u, "json") || Contains(u, "xml") by {
      ShapeKeywords(u);
    }
  }

  /** Each shape of `IsApiEndpoint` contains the keyword it is named after. */
  lemma ShapeKeywords(u: string)
    requires
      || Contains(u, "/api/") || Contains(u, "/rest/") || Contains(u, "/graphql")
      || Contains(u, "/endpoint/") || Contains(u, "/endpoints/")
      || Contains(u, "/service/") || Contains(u, "/services/")
      || EndsWith(u, ".json") || EndsWith(u, ".json\n") || EndsWith(u, ".xml") || EndsWith(u, ".xml\n")
      || Contains(u, "/json/") || Contains(u, "/xml/")
    ensures Contains(u, "api") || Contains(u, "rest") || Contains(u, "graphql") || Contains(u, "endpoint")
      || Contains(u, "service") || Contains(u, "json") || Contains(u, "xml")
  {
    if || Contains(u, "/api/") || Contains(u, "/rest/") || Contains(u, "/graphql")
       || Contains(u, "/endpoint/") || Contains(u, "/endpoints/")
       || Contains(u, "/service/") || Contains(u, "/services/")
    {
      PathShapeKeywords(u);
    } else {
      DataShapeKeywords(u);
    }
  }

  /** The path shapes of `IsApiEndpoint` contain `api`, `rest`, `graphql`, `endpoint` or `service`. */
  lemma PathShapeKeywords(u: string)
    requires
      || Contains(u, "/api/") || Contains(u, "/rest/") || Contains(u, "/graphql")
      || Contains(u, "/endpoint/") || Contains(u, "/endpoints/")
      || Contains(u, "/service/") || Contains(u, "/services/")
    ensures Contains(u, "api") || Contains(u, "rest") || Contains(u, "graphql") || Contains(u, "endpoint")
      || Contains(u, "service")
  {
    KeywordOfShape(u, "/api/", 1, "api");
    KeywordOfShape(u, "/rest/", 1, "rest");
    KeywordOfShape(u, "/graphql", 1, "graphql");
    KeywordOfShape(u, "/endpoint/", 1, "endpoint");
    KeywordOfShape(u, "/endpoints/", 1, "endpoint");
    KeywordOfShape(u, "/service/", 1, "service");
    KeywordOfShape(u, "/services/", 1, "service");
  }

  /** The data-format shapes of `IsApiEndpoint` contain `json` or `xml`. */
  lemma DataShapeKeywords(u: string)
    requires
      || EndsWith(u, ".json") || EndsWith(u, ".json\n") || EndsWith(u, ".xml") || EndsWith(u, ".xml\n")
      || Contains(u, "/json/") || Contains(u, "/xml/")
    ensures Contains(u, "json") || Contains(u, "xml")
  {
    KeywordOfSuffix(u, ".json", "json");
    KeywordOfSuffix(u, ".json\n", "json");
    KeywordOfSuffix(u, ".xml", "xml");
    KeywordOfSuffix(u, ".xml\n", "xml");
    KeywordOfShape(u, "/json/", 1, "json");
    KeywordOfShape(u, "/xml/", 1, "xml");
  }

  lemma KeywordOfShape(u: string, t: string, k: nat, w: string)
    requires k + |w| <= |t| && t[k..k + |w|] == w
    ensures Contains(u, t) ==> Contains(u, w)
  {
    if Contains(u, t) {
      ContainsKeyword(u, t, k, w);
    }
  }

  lemma KeywordOfSuffix(u: string, t: string, w: string)
    requires 1 + |w| <= |t| && t[1..1 + |w|] == w
    ensures EndsWith(u, t) ==> Contains(u, w)
  {
    if EndsWith(u, t) {
      EndsWithContains(u, t);
      ContainsKeyword(u, t, 1, w);
    }
  }
}
