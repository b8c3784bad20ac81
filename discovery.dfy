/**
 * `APIDiscovery.discover_endpoints` (api_hunter/core.py): fetch the page, run
 * every strategy over it in a fixed order, de-duplicate, then validate.
 */
module Discovery {
  import opened Seqs
  import opened Probes
  import opened Endpoints
  import opened Extractors
  import opened Validator

  /** What the HTML parser and the regular-expression banks extract from one page. */
  datatype PageMatches = PageMatches(
    authPatternMatches: seq<string>,  // the authenticated-content pattern bank
    authDataAttrValues: seq<string>,  // `data-*url*=` attribute values
    hrefs: seq<string>,               // `<a href>` values
    scripts: seq<ScriptMatch>,        // the script pattern bank over inline scripts
    forms: seq<Form>,
    ajaxCaptures: seq<string>,        // the advanced pattern bank over the page text
    metaContents: seq<string>,        // `<meta content>` values, "" when absent
    dataApiUrls: seq<string>,         // `data-api-url` values
    commentUrls: seq<string>)         // URLs inside HTML and JavaScript comments

  /** The page request raised: a transport failure, or `raise_for_status` on a 4xx or 5xx status. */
  predicate PageFailed(page: Fetch) {
    page.TransportError? || 400 <= page.response.status < 600
  }

  /**
   * The list `discover_endpoints` builds before de-duplication, in the order
   * of the source's `extend` calls; `authProbeHits` is what the probing of
   * well-known authenticated paths returned.
   */
  function Candidates(authenticated: bool, m: PageMatches, resolve: string -> string,
                      authProbeHits: seq<Endpoint>): seq<Endpoint>
  {
    AuthenticatedContent(authenticated, m.authPatternMatches, m.authDataAttrValues, resolve)
    + Harvested(m.hrefs, resolve, ApiShaped, "html_link", 0.7)
    + Scripted(m.scripts, resolve)
    + Formed(m.forms, resolve)
    + Harvested(m.ajaxCaptures, resolve, PotentialAfterResolve, "ajax_call", 0.9)
    + MetaTagged(m.metaContents, m.dataApiUrls, resolve)
    + Harvested(m.commentUrls, resolve, PotentialAfterResolve, "comment", 0.4)
    + (if authenticated then authProbeHits else [])
  }

  /**
   * `discover_endpoints`: `page` is the outcome of fetching the target and
   * `probe(i)` the outcome of the i-th validation request.
   */
  method DiscoverEndpoints(page: Fetch, authenticated: bool, m: PageMatches, resolve: string -> string,
                           authProbeHits: seq<Endpoint>, probe: nat -> Fetch) returns (validated: seq<Endpoint>)
    ensures PageFailed(page) ==> validated == []
    ensures !PageFailed(page) ==>
      validated == Validated(Dedup(Candidates(authenticated, m, resolve, authProbeHits)), probe)
    ensures DistinctKeys(validated)
  {
    if PageFailed(page) {
      return [];
    }
    var fromAuth := DiscoverAuthenticatedContent(authenticated, m.authPatternMatches, m.authDataAttrValues, resolve);
    var fromLinks := DiscoverFromLinks(m.hrefs, resolve);
    var fromScripts := DiscoverFromScripts(m.scripts, resolve);
    var fromForms := DiscoverFromForms(m.forms, resolve);
    var fromAjax := DiscoverFromAjaxCalls(m.ajaxCaptures, resolve);
    var fromMeta := DiscoverFromMetaTags(m.metaContents, m.dataApiUrls, resolve);
    var fromComments := DiscoverFromComments(m.commentUrls, resolve);
    var fromProbes := if authenticated then authProbeHits else [];
    var endpoints := fromAuth + fromLinks + fromScripts + fromForms + fromAjax + fromMeta + fromComments + fromProbes;
    var unique := Deduplicate(endpoints);
    validated := ValidateEndpoints(unique, probe);
    ValidatedKeepsKeys(unique, probe);
  }

  /**
   * A successful discovery returns each (url, method) key of the candidates
   * exactly once, no more records than candidates, and each record is the
   * first candidate with its key, with only the confidence rescored.
   */
  lemma DiscoveredRecords(cands: seq<Endpoint>, probe: nat -> Fetch)
    ensures var r := Validated(Dedup(cands), probe);
      && DistinctKeys(r) && KeysOf(r) == KeysOf(cands) && |r| <= |cands|
      && forall e :: e in r ==> exists d :: d in cands && e == d.(confidence := e.confidence)
  {
    var d := Dedup(cands);
    var r := Validated(d, probe);
    DedupDistinctKeys(cands);
    DedupKeys(cands);
    DedupIsSubsequence(cands);
    SubsequenceMembers(d, cands);
    ValidatedKeepsKeys(d, probe);
    forall e | e in r ensures exists x :: x in cands && e == x.(confidence := e.confidence) {
      var i :| 0 <= i < |r| && r[i] == e;
      assert d[i] in d;
    }
  }

  /** Without a session the authenticated strategies and the authenticated path probes contribute nothing. */
  lemma UnauthenticatedCandidates(m: PageMatches, resolve: string -> string, authProbeHits: seq<Endpoint>)
    ensures Candidates(false, m, resolve, authProbeHits) == Candidates(false, m, resolve, [])
    ensures Candidates(false, m, resolve, authProbeHits) ==
      Harvested(m.hrefs, resolve, ApiShaped, "html_link", 0.7)
      + Scripted(m.scripts, resolve)
      + Formed(m.forms, resolve)
      + Harvested(m.ajaxCaptures, resolve, PotentialAfterResolve, "ajax_call", 0.9)
      + MetaTagged(m.metaContents, m.dataApiUrls, resolve)
      + Harvested(m.commentUrls, resolve, PotentialAfterResolve, "comment", 0.4)
  {
    var links := Harvested(m.hrefs, resolve, ApiShaped, "html_link", 0.7);
    assert AuthenticatedContent(false, m.authPatternMatches, m.authDataAttrValues, resolve) == [];
    assert [] + links == links;
  }
}
