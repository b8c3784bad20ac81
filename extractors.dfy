/**
 * The discovery strategies of `APIDiscovery` (api_hunter/core.py) after the
 * HTML parser and the regular-expression banks have done their work. Each
 * strategy receives its raw matches, in the order the source visits them,
 * and `resolve` stands for `urljoin(self.base_url, ·)`.
 */
module Extractors {
  import opened Wrappers
  import opened Text
  import opened Endpoints
  import opened Classifier

  /** The test a strategy applies to a raw match before it keeps it. */
  datatype Gate =
    | Unchecked               // every match is kept
    | ApiShaped               // `_is_api_endpoint` on the resolved URL
    | PotentialAfterResolve   // `_is_potential_endpoint` on the resolved URL
    | PotentialBeforeResolve  // `_is_potential_endpoint` on the raw match

  predicate Admits(g: Gate, raw: string, resolved: string) {
    match g
    case Unchecked => true
    case ApiShaped => IsApiEndpoint(resolved)
    case PotentialAfterResolve => IsPotentialEndpoint(resolved)
    case PotentialBeforeResolve => IsPotentialEndpoint(raw)
  }

  /** The records a one-URL strategy appends for its matches, defined one match at a time. */
  function Harvested(raws: seq<string>, resolve: string -> string, g: Gate, src: string, c: real): seq<Endpoint>
    decreases |raws|
  {
    if raws == [] then []
    else
      var init := Harvested(raws[..|raws| - 1], resolve, g, src, c);
      var raw := raws[|raws| - 1];
      if Admits(g, raw, resolve(raw)) then init + [Found(resolve(raw), src, c)] else init
  }

  /** The loop the one-URL strategies share: resolve, test, append. */
  method Harvest(raws: seq<string>, resolve: string -> string, g: Gate, src: string, c: real)
    returns (endpoints: seq<Endpoint>)
    ensures endpoints == Harvested(raws, resolve, g, src, c)
  {
    endpoints := [];
    for i := 0 to |raws|
      invariant endpoints == Harvested(raws[..i], resolve, g, src, c)
    {
      var fullUrl := resolve(raws[i]);
      assert raws[..i + 1][..i] == raws[..i];
      if Admits(g, raws[i], fullUrl) {
        endpoints := endpoints + [Found(fullUrl, src, c)];
      }
    }
    assert raws[..|raws|] == raws;
  }

  /** Every kept record is the resolved form of an admitted match, with the strategy's source and confidence. */
  lemma {:induction false} HarvestedSound(raws: seq<string>, resolve: string -> string, g: Gate, src: string, c: real)
    ensures |Harvested(raws, resolve, g, src, c)| <= |raws|
    ensures forall e :: e in Harvested(raws, resolve, g, src, c) ==>
      exists raw :: raw in raws && Admits(g, raw, resolve(raw)) && e == Found(resolve(raw), src, c)
    decreases |raws|
  {
    if raws != [] {
      var init := raws[..|raws| - 1];
      HarvestedSound(init, resolve, g, src, c);
      forall e | e in Harvested(raws, resolve, g, src, c)
        ensures exists raw :: raw in raws && Admits(g, raw, resolve(raw)) && e == Found(resolve(raw), src, c)
      {
        if e in Harvested(init, resolve, g, src, c) {
          var raw :| raw in init && Admits(g, raw, resolve(raw)) && e == Found(resolve(raw), src, c);
          assert raw in raws;
        } else {
          assert raws[|raws| - 1] in raws;
        }
      }
    }
  }

  /** Every admitted match yields its record. */
  lemma {:induction false} HarvestedComplete(raws: seq<string>, resolve: string -> string, g: Gate, src: string, c: real)
    ensures forall raw :: raw in raws && Admits(g, raw, resolve(raw)) ==>
      Found(resolve(raw), src, c) in Harvested(raws, resolve, g, src, c)
    decreases |raws|
  {
    if raws != [] {
      var init := raws[..|raws| - 1];
      HarvestedComplete(init, resolve, g, src, c);
      forall raw | raw in raws && Admits(g, raw, resolve(raw))
        ensures Found(resolve(raw), src, c) in Harvested(raws, resolve, g, src, c)
      {
        if raw != raws[|raws| - 1] {
          assert raws == init + [raws[|raws| - 1]];
          assert raw in init;
        }
      }
    }
  }

  /** Matches are handled in order: the records of a longer match list extend those of its prefix. */
  lemma {:induction false} HarvestedAppend(a: seq<string>, b: seq<string>, resolve: string -> string, g: Gate, src: string, c: real)
    ensures Harvested(a + b, resolve, g, src, c) == Harvested(a, resolve, g, src, c) + Harvested(b, resolve, g, src, c)
    decreases |b|
  {
    if b == [] {
      assert a + b == a;
    } else {
      var b' := b[..|b| - 1];
      HarvestedAppend(a, b', resolve, g, src, c);
      assert (a + b)[..|a + b| - 1] == a + b';
    }
  }

  /** `_discover_from_links`: anchors whose resolved `href` is API-shaped, at 0.7. */
  method DiscoverFromLinks(hrefs: seq<string>, resolve: string -> string) returns (endpoints: seq<Endpoint>)
    ensures endpoints == Harvested(hrefs, resolve, ApiShaped, "html_link", 0.7)
    ensures forall e :: e in endpoints ==> IsApiEndpoint(e.url) && e.source == "html_link" && e.confidence == 0.7
  {
    endpoints := Harvest(hrefs, resolve, ApiShaped, "html_link", 0.7);
    HarvestedSound(hrefs, resolve, ApiShaped, "html_link", 0.7);
  }

  /**
   * Links are screened by the API-shape test alone: an `href` of
   * `javascript:fetch('/api/x')`, which `urljoin` leaves as it is, is kept
   * at 0.7, although `_is_potential_endpoint` would reject it.
   */
  lemma LinksKeepJavascriptHref(resolve: string -> string)
    requires resolve(JavascriptFetch) == JavascriptFetch
    ensures Harvested([JavascriptFetch], resolve, ApiShaped, "html_link", 0.7) == [Found(JavascriptFetch, "html_link", 0.7)]
    ensures !IsPotentialEndpoint(JavascriptFetch)
  {
    var u := Lower(JavascriptFetch);
    assert u[18..][..5] == "/api/";
    ContainsAt(u, "/api/", 18);
    assert [JavascriptFetch][..0] == [];
    assert JavascriptFetch[..11] == "javascript:";
  }

  const JavascriptFetch := "javascript:fetch('/api/x')"

  /** `_discover_from_ajax_calls`: the regex captures whose resolved URL passes the keyword test, at 0.9. */
  method DiscoverFromAjaxCalls(captures: seq<string>, resolve: string -> string) returns (endpoints: seq<Endpoint>)
    ensures endpoints == Harvested(captures, resolve, PotentialAfterResolve, "ajax_call", 0.9)
    ensures forall e :: e in endpoints ==> IsPotentialEndpoint(e.url) && e.source == "ajax_call" && e.confidence == 0.9
  {
    endpoints := Harvest(captures, resolve, PotentialAfterResolve, "ajax_call", 0.9);
    HarvestedSound(captures, resolve, PotentialAfterResolve, "ajax_call", 0.9);
  }

  /**
   * `_discover_from_meta_tags`: each meta `content` ("" when absent) is tested
   * before it is resolved (0.5); every `data-api-url` is kept unchecked (0.8).
   */
  function MetaTagged(contents: seq<string>, dataApiUrls: seq<string>, resolve: string -> string): seq<Endpoint> {
    Harvested(contents, resolve, PotentialBeforeResolve, "meta_tag", 0.5)
    + Harvested(dataApiUrls, resolve, Unchecked, "data_attribute", 0.8)
  }

  method DiscoverFromMetaTags(contents: seq<string>, dataApiUrls: seq<string>, resolve: string -> string)
    returns (endpoints: seq<Endpoint>)
    ensures endpoints == MetaTagged(contents, dataApiUrls, resolve)
    ensures |endpoints| >= |dataApiUrls|
  {
    var fromMeta := Harvest(contents, resolve, PotentialBeforeResolve, "meta_tag", 0.5);
    var fromData := Harvest(dataApiUrls, resolve, Unchecked, "data_attribute", 0.8);
    endpoints := fromMeta + fromData;
    UncheckedKeepsAll(dataApiUrls, resolve, "data_attribute", 0.8);
  }

  /** An unchecked strategy keeps one record per match. */
  lemma {:induction false} UncheckedKeepsAll(raws: seq<string>, resolve: string -> string, src: string, c: real)
    ensures |Harvested(raws, resolve, Unchecked, src, c)| == |raws|
    decreases |raws|
  {
    if raws != [] {
      UncheckedKeepsAll(raws[..|raws| - 1], resolve, src, c);
    }
  }

  /**
   * `data-api-url` values are kept without any test: a `javascript:void(0)`
   * value that `urljoin` leaves as it is becomes a 0.8 record, although
   * `_is_potential_endpoint` would reject it.
   */
  lemma DataAttributeKeepsJavascriptUrl(resolve: string -> string)
    requires resolve(JavascriptVoid) == JavascriptVoid
    ensures Harvested([JavascriptVoid], resolve, Unchecked, "data_attribute", 0.8) == [Found(JavascriptVoid, "data_attribute", 0.8)]
    ensures !IsPotentialEndpoint(JavascriptVoid)
  {
    assert [JavascriptVoid][..0] == [];
    assert JavascriptVoid[..11] == "javascript:";
  }

  const JavascriptVoid := "javascript:void(0)"

  /** `_discover_from_comments`: URLs found in comments whose resolved form passes the keyword test, at 0.4. */
  method DiscoverFromComments(commentUrls: seq<string>, resolve: string -> string) returns (endpoints: seq<Endpoint>)
    ensures endpoints == Harvested(commentUrls, resolve, PotentialAfterResolve, "comment", 0.4)
    ensures forall e :: e in endpoints ==> IsPotentialEndpoint(e.url) && e.source == "comment" && e.confidence == 0.4
  {
    endpoints := Harvest(commentUrls, resolve, PotentialAfterResolve, "comment", 0.4);
    HarvestedSound(commentUrls, resolve, PotentialAfterResolve, "comment", 0.4);
  }

  /** A keyword-gated strategy never keeps an empty, `javascript:` or `mailto:` URL. */
  lemma PotentialGateRejects(raws: seq<string>, resolve: string -> string, src: string, c: real)
    ensures forall e :: e in Harvested(raws, resolve, PotentialAfterResolve, src, c) ==>
      e.url != "" && !StartsWith(e.url, "javascript:") && !StartsWith(e.url, "mailto:")
  {
    HarvestedSound(raws, resolve, PotentialAfterResolve, src, c);
  }

  // ---------------------------------------------------------------------------
  // Scripts

  /**
   * One `re.findall` result of the script patterns: a bare URL, or the
   * (method, url) pair of the two-group `XMLHttpRequest ... open(...)` pattern.
   */
  datatype ScriptMatch = Single(url: string) | Pair(verb: string, url: string)

  /** `method.upper() if method else 'GET'`, where a bare match has method `GET`. */
  function ScriptVerb(m: ScriptMatch): (v: string)
    ensures v != "" && HasNoLowerCase(v)
    ensures m.Pair? && m.verb != "" ==> v == Upper(m.verb)
    ensures m.Single? || m.verb == "" ==> v == "GET"
  {
    match m
    case Single(_) => "GET"
    case Pair(verb, _) =>
      UpperHasNoLowerCase(verb);
      if verb == "" then "GET" else Upper(verb)
  }

  /** The record one script match contributes, if its resolved URL passes the keyword test. */
  function ScriptEndpoint(m: ScriptMatch, resolve: string -> string): Option<Endpoint> {
    var fullUrl := resolve(m.url);
    if IsPotentialEndpoint(fullUrl) then Some(Found(fullUrl, "javascript", 0.8).(verb := ScriptVerb(m)))
    else None
  }

  function Scripted(matches: seq<ScriptMatch>, resolve: string -> string): seq<Endpoint>
    decreases |matches|
  {
    if matches == [] then []
    else
      var init := Scripted(matches[..|matches| - 1], resolve);
      match ScriptEndpoint(matches[|matches| - 1], resolve)
      case None => init
      case Some(e) => init + [e]
  }

  /** `_discover_from_scripts` over the matches of every inline script, pattern by pattern. */
  method DiscoverFromScripts(matches: seq<ScriptMatch>, resolve: string -> string) returns (endpoints: seq<Endpoint>)
    ensures endpoints == Scripted(matches, resolve)
  {
    endpoints := [];
    for i := 0 to |matches|
      invariant endpoints == Scripted(matches[..i], resolve)
    {
      assert matches[..i + 1][..i] == matches[..i];
      var m := matches[i];
      var fullUrl := resolve(m.url);
      if IsPotentialEndpoint(fullUrl) {
        var verb := if m.Pair? && m.verb != "" then Upper(m.verb) else "GET";
        endpoints := endpoints + [Found(fullUrl, "javascript", 0.8).(verb := verb)];
      }
    }
    assert matches[..|matches|] == matches;
  }

  /** Every script record passed the keyword test and carries an upper-case method. */
  lemma {:induction false} ScriptedSound(matches: seq<ScriptMatch>, resolve: string -> string)
    ensures |Scripted(matches, resolve)| <= |matches|
    ensures forall e :: e in Scripted(matches, resolve) ==>
      && IsPotentialEndpoint(e.url) && e.source == "javascript" && e.confidence == 0.8
      && e.verb != "" && HasNoLowerCase(e.verb) && e.parameters == []
    decreases |matches|
  {
    if matches != [] {
      ScriptedSound(matches[..|matches| - 1], resolve);
    }
  }

  /** `fetch('/api/v2/users')` on a page that resolves it to an absolute URL. */
  lemma FetchCallExample(resolve: string -> string)
    requires resolve("/api/v2/users") == "https://x.test/api/v2/users"
    ensures Scripted([Single("/api/v2/users")], resolve)
      == [Endpoint("https://x.test/api/v2/users", "GET", [], map[], "javascript", 0.8)]
  {
    var u := "https://x.test/api/v2/users";
    assert Lower(u)[15..][..3] == "api";
    ContainsAt(Lower(u), "api", 15);
    assert "api" in PotentialIndicators;
    assert !StartsWith(u, "javascript:") by { assert u[0] != "javascript:"[0]; }
    assert !StartsWith(u, "mailto:") by { assert u[0] != "mailto:"[0]; }
    assert IsPotentialEndpoint(u);
    assert [Single("/api/v2/users")][..0] == [];
  }

  // ---------------------------------------------------------------------------
  // Forms

  /** A descendant element of a form: its tag name and its `name` attribute ("" when absent). */
  datatype Control = Control(tag: string, name: string)

  /** A `<form>`: its `action` ("" when absent), its `method` attribute, and its descendants in document order. */
  datatype Form = Form(action: string, verb: Option<string>, controls: seq<Control>)

  predicate IsField(c: Control) {
    c.tag == "input" || c.tag == "select" || c.tag == "textarea"
  }

  /** The names of the named `input`/`select`/`textarea` descendants, in document order. */
  function FormParameters(controls: seq<Control>): seq<string>
    decreases |controls|
  {
    if controls == [] then []
    else
      var init := FormParameters(controls[..|controls| - 1]);
      var c := controls[|controls| - 1];
      if IsField(c) && c.name != "" then init + [c.name] else init
  }

  /** The form's HTTP verb: its `method` attribute upper-cased, or `GET` when the attribute is absent. */
  function FormVerb(f: Form): (v: string)
    ensures HasNoLowerCase(v)
    ensures f.verb == None ==> v == "GET"
  {
    match f.verb
    case None => "GET"
    case Some(m) => UpperHasNoLowerCase(m); Upper(m)
  }

  /** The record of one form, unless its action is empty. */
  function FormEndpoint(f: Form, resolve: string -> string): Option<Endpoint> {
    if f.action == "" then None
    else Some(Endpoint(resolve(f.action), FormVerb(f), FormParameters(f.controls), map[], "html_form", 0.6))
  }

  function Formed(forms: seq<Form>, resolve: string -> string): seq<Endpoint>
    decreases |forms|
  {
    if forms == [] then []
    else
      var init := Formed(forms[..|forms| - 1], resolve);
      match FormEndpoint(forms[|forms| - 1], resolve)
      case None => init
      case Some(e) => init + [e]
  }

  /** `_discover_from_forms`: one record per form with an action, its fields collected in an inner loop. */
  method DiscoverFromForms(forms: seq<Form>, resolve: string -> string) returns (endpoints: seq<Endpoint>)
    ensures endpoints == Formed(forms, resolve)
  {
    endpoints := [];
    for i := 0 to |forms|
      invariant endpoints == Formed(forms[..i], resolve)
    {
      assert forms[..i + 1][..i] == forms[..i];
      var form := forms[i];
      var verb := match form.verb case None => "GET" case Some(m) => Upper(m);
      if form.action != "" {
        var fullUrl := resolve(form.action);
        var parameters := [];
        for j := 0 to |form.controls|
          invariant parameters == FormParameters(form.controls[..j])
        {
          assert form.controls[..j + 1][..j] == form.controls[..j];
          var control := form.controls[j];
          if IsField(control) && control.name != "" {
            parameters := parameters + [control.name];
          }
        }
        assert form.controls[..|form.controls|] == form.controls;
        endpoints := endpoints + [Endpoint(fullUrl, verb, parameters, map[], "html_form", 0.6)];
      }
    }
    assert forms[..|forms|] == forms;
  }

  /** The parameters are exactly the non-empty names of field controls, none lost and none invented. */
  lemma {:induction false} FormParametersIff(controls: seq<Control>)
    ensures |FormParameters(controls)| <= |controls|
    ensures forall p :: p in FormParameters(controls) <==>
      exists c :: c in controls && IsField(c) && c.name != "" && c.name == p
    decreases |controls|
  {
    if controls != [] {
      var init := controls[..|controls| - 1];
      var last := controls[|controls| - 1];
      FormParametersIff(init);
      assert controls == init + [last];
      forall p ensures p in FormParameters(controls) <==>
        exists c :: c in controls && IsField(c) && c.name != "" && c.name == p
      {
        if p in FormParameters(controls) && p in FormParameters(init) {
          var c :| c in init && IsField(c) && c.name != "" && c.name == p;
          assert c in controls;
        }
        if exists c :: c in controls && IsField(c) && c.name != "" && c.name == p {
          var c :| c in controls && IsField(c) && c.name != "" && c.name == p;
          if c != last {
            assert c in init;
          }
        }
      }
    }
  }

  /** One record per form with a non-empty action, each a `html_form` record at 0.6 with an upper-case method. */
  lemma {:induction false} FormedSound(forms: seq<Form>, resolve: string -> string)
    ensures |Formed(forms, resolve)| == |set i | 0 <= i < |forms| && forms[i].action != ""|
    ensures forall e :: e in Formed(forms, resolve) ==>
      e.source == "html_form" && e.confidence == 0.6 && HasNoLowerCase(e.verb) && e.headers == map[]
    decreases |forms|
  {
    FormedShape(forms, resolve);
    if forms != [] {
      var n := |forms| - 1;
      FormedSound(forms[..n], resolve);
      ActionCountStep(forms);
    }
  }

  /** The forms with an action, counted with the last form set apart. */
  lemma ActionCountStep(forms: seq<Form>)
    requires forms != []
    ensures var n := |forms| - 1;
      |set i | 0 <= i < |forms| && forms[i].action != ""|
      == |set i | 0 <= i < n && forms[..n][i].action != ""| + (if forms[n].action != "" then 1 else 0)
  {
    var n := |forms| - 1;
    var before := set i | 0 <= i < n && forms[..n][i].action != "";
    var after := set i | 0 <= i < |forms| && forms[i].action != "";
    assert n !in before;
    if forms[n].action != "" {
      assert after == before + {n};
    } else {
      assert after == before;
    }
  }

  lemma {:induction false} FormedShape(forms: seq<Form>, resolve: string -> string)
    ensures forall e :: e in Formed(forms, resolve) ==>
      e.source == "html_form" && e.confidence == 0.6 && HasNoLowerCase(e.verb) && e.headers == map[]
    decreases |forms|
  {
    if forms != [] {
      FormedShape(forms[..|forms| - 1], resolve);
    }
  }

  /** A POST form with one named input. */
  lemma FormExample(resolve: string -> string)
    requires resolve("/submit") == "https://x.test/submit"
    ensures Formed([Form("/submit", Some("post"), [Control("input", "q"), Control("button", "go")])], resolve)
      == [Endpoint("https://x.test/submit", "POST", ["q"], map[], "html_form", 0.6)]
  {
    var controls := [Control("input", "q"), Control("button", "go")];
    assert controls[..1] == [Control("input", "q")];
    assert controls[..1][..0] == [];
    assert FormParameters(controls) == ["q"];
    assert Upper("post") == "POST";
    assert [Form("/submit", Some("post"), controls)][..0] == [];
  }

  // ---------------------------------------------------------------------------
  // Authenticated content

  /**
   * What `_discover_authenticated_content` returns: nothing without a session;
   * otherwise every authenticated-pattern match (0.8) then the `data-*url*`
   * attribute values that pass the keyword test before resolution (0.7).
   */
  function AuthenticatedContent(authenticated: bool, patternMatches: seq<string>, dataAttrValues: seq<string>,
                                resolve: string -> string): seq<Endpoint>
  {
    if !authenticated then []
    else
      Harvested(patternMatches, resolve, Unchecked, "authenticated_content", 0.8)
      + Harvested(dataAttrValues, resolve, PotentialBeforeResolve, "authenticated_data_attr", 0.7)
  }

  method DiscoverAuthenticatedContent(authenticated: bool, patternMatches: seq<string>, dataAttrValues: seq<string>,
                                      resolve: string -> string) returns (endpoints: seq<Endpoint>)
    ensures !authenticated ==> endpoints == []
    ensures authenticated ==> |endpoints| >= |patternMatches|
    ensures endpoints == AuthenticatedContent(authenticated, patternMatches, dataAttrValues, resolve)
  {
    if !authenticated {
      return [];
    }
    var fromPatterns := Harvest(patternMatches, resolve, Unchecked, "authenticated_content", 0.8);
    var fromData := Harvest(dataAttrValues, resolve, PotentialBeforeResolve, "authenticated_data_attr", 0.7);
    endpoints := fromPatterns + fromData;
    UncheckedKeepsAll(patternMatches, resolve, "authenticated_content", 0.8);
  }
}
