/**
 * A reference reading of the nine `api_patterns` regular expressions of
 * api_hunter/core.py, searched case-insensitively as `re.search(..., re.IGNORECASE)`
 * does, and the proof that they accept exactly what `Classifier.IsApiEndpoint`
 * accepts.
 */
module ApiPatterns {
  import opened Text
  import Classifier

  /** The regular-expression pieces the nine patterns are made of. */
  datatype Atom =
    | Char(c: char)       // one character, compared case-insensitively
    | Optional(c: char)   // `c?`
    | Digits              // a run of decimal digits, possibly empty
    | AnyRun              // a run of characters other than a newline, possibly empty
    | End                 // `$`: the end of the text, or just before one final newline

  type Pattern = seq<Atom>

  /** `p` matches some prefix of `s` (backtracking over every choice). */
  predicate MatchHere(p: Pattern, s: string)
    decreases |s|, |p|
  {
    if p == [] then true
    else match p[0]
      case Char(c) => |s| > 0 && LowerChar(s[0]) == c && MatchHere(p[1..], s[1..])
      case Optional(c) =>
        MatchHere(p[1..], s) || (|s| > 0 && LowerChar(s[0]) == c && MatchHere(p[1..], s[1..]))
      case Digits => MatchHere(p[1..], s) || (|s| > 0 && '0' <= s[0] <= '9' && MatchHere(p, s[1..]))
      case AnyRun => MatchHere(p[1..], s) || (|s| > 0 && s[0] != '\n' && MatchHere(p, s[1..]))
      case End => (s == [] || s == "\n") && MatchHere(p[1..], s)
  }

  /** `re.search(p, s)` succeeds: `p` matches at some position of `s`. */
  predicate Search(p: Pattern, s: string)
    decreases |s|
  {
    MatchHere(p, s) || (|s| > 0 && Search(p, s[1..]))
  }

  function Lits(w: string): (p: Pattern)
    ensures |p| == |w| && forall k :: 0 <= k < |w| ==> p[k] == Char(w[k])
  {
    seq(|w|, k requires 0 <= k < |w| => Char(w[k]))
  }

  /** The nine entries of `api_patterns`, in order. */
  const ApiPatternBank: seq<Pattern> := [
    Lits("/api/") + [Optional('v'), Digits, Optional('/'), AnyRun],
    Lits("/rest/") + [AnyRun],
    Lits("/graphql") + [Optional('/'), AnyRun],
    Lits("/endpoint") + [Optional('s'), Char('/'), AnyRun],
    Lits("/service") + [Optional('s'), Char('/'), AnyRun],
    Lits(".json") + [End],
    Lits(".xml") + [End],
    Lits("/json/") + [AnyRun],
    Lits("/xml/") + [AnyRun]
  ]

  /** `_is_api_endpoint`, read as the loop over the pattern bank. */
  predicate MatchesSomePattern(url: string) {
    exists k :: 0 <= k < |ApiPatternBank| && Search(ApiPatternBank[k], url)
  }

  // ---- matching a literal prefix -------------------------------------------

  lemma LowerSuffix(s: string, i: nat)
    requires i <= |s|
    ensures Lower(s)[i..] == Lower(s[i..])
  {
  }

  lemma {:induction false} MatchLits(w: string, t: Pattern, s: string)
    ensures MatchHere(Lits(w) + t, s) <==> StartsWith(Lower(s), w) && MatchHere(t, s[|w|..])
    decreases |w|
  {
    if w == [] {
      assert Lits(w) + t == t;
    } else {
      var p := Lits(w) + t;
      assert p[0] == Char(w[0]);
      assert p[1..] == Lits(w[1..]) + t;
      if |s| > 0 {
        MatchLits(w[1..], t, s[1..]);
        if |w| <= |s| {
          assert s[1..][|w| - 1..] == s[|w|..];
          assert Lower(s)[..|w|] == [LowerChar(s[0])] + Lower(s[1..])[..|w| - 1];
          assert w == [w[0]] + w[1..];
        }
      }
    }
  }

  /** A pattern made only of optional pieces matches the empty prefix of anything. */
  predicate Nullable(p: Pattern) {
    forall k :: 0 <= k < |p| ==> p[k].Optional? || p[k].Digits? || p[k].AnyRun?
  }

  lemma {:induction false} NullableMatches(p: Pattern, s: string)
    requires Nullable(p)
    ensures MatchHere(p, s)
    decreases |p|
  {
    if p != [] {
      NullableMatches(p[1..], s);
    }
  }

  // ---- from matching at a position to searching ----------------------------

  lemma {:induction false} SearchAt(p: Pattern, s: string, i: nat)
    requires i <= |s| && MatchHere(p, s[i..])
    ensures Search(p, s)
    decreases i
  {
    if i > 0 {
      assert s[1..][i - 1..] == s[i..];
      SearchAt(p, s[1..], i - 1);
    }
  }

  lemma {:induction false} SearchWitness(p: Pattern, s: string) returns (i: nat)
    requires Search(p, s)
    ensures i <= |s| && MatchHere(p, s[i..])
    decreases |s|
  {
    if MatchHere(p, s) {
      i := 0;
    } else {
      var j := SearchWitness(p, s[1..]);
      assert s[1..][j..] == s[j + 1..];
      i := j + 1;
    }
  }

  /** A literal followed by optional pieces is found exactly where the literal occurs. */
  lemma SearchLiteral(w: string, t: Pattern, s: string)
    requires Nullable(t)
    ensures Search(Lits(w) + t, s) <==> Contains(Lower(s), w)
  {
    if Search(Lits(w) + t, s) {
      var i := SearchWitness(Lits(w) + t, s);
      MatchLits(w, t, s[i..]);
      LowerSuffix(s, i);
      ContainsAt(Lower(s), w, i);
    }
    if Contains(Lower(s), w) {
      var i := ContainsWitness(Lower(s), w);
      LowerSuffix(s, i);
      NullableMatches(t, s[i..][|w|..]);
      MatchLits(w, t, s[i..]);
      SearchAt(Lits(w) + t, s, i);
    }
  }

  /** An optional character splits a pattern into the two literals it can stand for. */
  lemma OptionalChoice(w: string, c: char, t: Pattern, s: string)
    ensures MatchHere(Lits(w) + [Optional(c)] + t, s) <==>
      MatchHere(Lits(w) + t, s) || MatchHere(Lits(w + [c]) + t, s)
  {
    var q := [Optional(c)] + t;
    assert Lits(w) + [Optional(c)] + t == Lits(w) + q;
    MatchLits(w, q, s);
    MatchLits(w, t, s);
    assert Lits(w + [c]) + t == Lits(w) + ([Char(c)] + t);
    MatchLits(w, [Char(c)] + t, s);
    assert q[1..] == t;
    assert ([Char(c)] + t)[1..] == t;
  }

  lemma SearchOptional(w: string, c: char, t: Pattern, s: string)
    ensures Search(Lits(w) + [Optional(c)] + t, s) <==>
      Search(Lits(w) + t, s) || Search(Lits(w + [c]) + t, s)
  {
    var p := Lits(w) + [Optional(c)] + t;
    if Search(p, s) {
      var i := SearchWitness(p, s);
      OptionalChoice(w, c, t, s[i..]);
      if MatchHere(Lits(w) + t, s[i..]) {
        SearchAt(Lits(w) + t, s, i);
      } else {
        SearchAt(Lits(w + [c]) + t, s, i);
      }
    }
    if Search(Lits(w) + t, s) {
      var i := SearchWitness(Lits(w) + t, s);
      OptionalChoice(w, c, t, s[i..]);
      SearchAt(p, s, i);
    }
    if Search(Lits(w + [c]) + t, s) {
      var i := SearchWitness(Lits(w + [c]) + t, s);
      OptionalChoice(w, c, t, s[i..]);
      SearchAt(p, s, i);
    }
  }

  /** A literal followed by `$` is found exactly when the text ends with it, or with it and a newline. */
  lemma SearchAnchored(w: string, s: string)
    ensures Search(Lits(w) + [End], s) <==> EndsWith(Lower(s), w) || EndsWith(Lower(s), w + "\n")
  {
    if Search(Lits(w) + [End], s) {
      AnchoredFound(w, s);
    }
    if EndsWith(Lower(s), w) {
      AnchoredAtEnd(w, s);
    } else if EndsWith(Lower(s), w + "\n") {
      AnchoredBeforeNewline(w, s);
    }
  }

  lemma AnchoredFound(w: string, s: string)
    requires Search(Lits(w) + [End], s)
    ensures EndsWith(Lower(s), w) || EndsWith(Lower(s), w + "\n")
  {
    var i := SearchWitness(Lits(w) + [End], s);
    MatchLits(w, [End], s[i..]);
    var rest := s[i..][|w|..];
    assert rest == [] || rest == "\n";
    LowerTail(s, i, w);
    if rest == [] {
      assert w + Lower(rest) == w;
    } else {
      assert Lower(rest) == "\n";
    }
  }

  /** A match of `w` at position `i` leaves the lower-cased text ending in `w` and the lower-cased rest. */
  lemma LowerTail(s: string, i: nat, w: string)
    requires i <= |s| && StartsWith(Lower(s[i..]), w)
    ensures EndsWith(Lower(s), w + Lower(s[i..][|w|..]))
  {
    var t := s[i..];
    LowerSuffix(s, i);
    LowerSuffix(t, |w|);
    assert Lower(t) == Lower(t)[..|w|] + Lower(t)[|w|..];
  }

  lemma AnchoredAtEnd(w: string, s: string)
    requires EndsWith(Lower(s), w)
    ensures Search(Lits(w) + [End], s)
  {
    var i := |s| - |w|;
    LowerSuffix(s, i);
    assert s[i..][|w|..] == [];
    assert MatchHere([End], []);
    MatchLits(w, [End], s[i..]);
    SearchAt(Lits(w) + [End], s, i);
  }

  lemma AnchoredBeforeNewline(w: string, s: string)
    requires EndsWith(Lower(s), w + "\n")
    ensures Search(Lits(w) + [End], s)
  {
    var i := |s| - |w| - 1;
    LowerSuffix(s, i);
    var r := s[i..];
    assert Lower(r) == w + "\n";
    assert Lower(r)[|w|] == '\n';
    assert r[|w|] == '\n';
    assert r[|w|..] == [r[|w|]];
    assert MatchHere([End], "\n");
    MatchLits(w, [End], r);
    SearchAt(Lits(w) + [End], s, i);
  }

  // ---- the nine patterns ----------------------------------------------------

  /** What finding pattern `k` of the bank means, over the lower-cased text `u`. */
  predicate Clause(k: nat, u: string)
    requires k < 9
  {
    match k
    case 0 => Contains(u, "/api/")
    case 1 => Contains(u, "/rest/")
    case 2 => Contains(u, "/graphql")
    case 3 => Contains(u, "/endpoint/") || Contains(u, "/endpoints/")
    case 4 => Contains(u, "/service/") || Contains(u, "/services/")
    case 5 => EndsWith(u, ".json") || EndsWith(u, ".json\n")
    case 6 => EndsWith(u, ".xml") || EndsWith(u, ".xml\n")
    case 7 => Contains(u, "/json/")
    case 8 => Contains(u, "/xml/")
  }

  /** Each regular expression of the bank is a plain substring or suffix test. */
  lemma PatternMeaning(k: nat, url: string)
    requires k < 9
    ensures |ApiPatternBank| == 9
    ensures Search(ApiPatternBank[k], url) <==> Clause(k, Lower(url))
  {
    if k in {3, 4} {
      OptionalSPatternMeaning(k, url);
    } else if k in {5, 6} {
      AnchoredPatternMeaning(k, url);
    } else {
      SubstringPatternMeaning(k, url);
    }
  }

  /** The patterns that are a literal followed by anything. */
  lemma SubstringPatternMeaning(k: nat, url: string)
    requires k in {0, 1, 2, 7, 8}
    ensures Search(ApiPatternBank[k], url) <==> Clause(k, Lower(url))
  {
    var p := ApiPatternBank[k];
    if k == 0 {
      assert p == Lits("/api/") + [Optional('v'), Digits, Optional('/'), AnyRun];
      SearchLiteral("/api/", [Optional('v'), Digits, Optional('/'), AnyRun], url);
    } else if k == 1 {
      assert p == Lits("/rest/") + [AnyRun];
      SearchLiteral("/rest/", [AnyRun], url);
    } else if k == 2 {
      assert p == Lits("/graphql") + [Optional('/'), AnyRun];
      SearchLiteral("/graphql", [Optional('/'), AnyRun], url);
    } else if k == 7 {
      assert p == Lits("/json/") + [AnyRun];
      SearchLiteral("/json/", [AnyRun], url);
    } else {
      assert p == Lits("/xml/") + [AnyRun];
      SearchLiteral("/xml/", [AnyRun], url);
    }
  }

  /** The `endpoints?/` and `services?/` patterns. */
  lemma OptionalSPatternMeaning(k: nat, url: string)
    requires k in {3, 4}
    ensures Search(ApiPatternBank[k], url) <==> Clause(k, Lower(url))
  {
    var p := ApiPatternBank[k];
    if k == 3 {
      assert p == Lits("/endpoint") + [Optional('s'), Char('/'), AnyRun];
      ShapeWithOptionalS("/endpoint", url);
      assert "/endpoint" + "/" == "/endpoint/" && "/endpoint" + "s/" == "/endpoints/";
    } else {
      assert p == Lits("/service") + [Optional('s'), Char('/'), AnyRun];
      ShapeWithOptionalS("/service", url);
      assert "/service" + "/" == "/service/" && "/service" + "s/" == "/services/";
    }
  }

  /** The patterns anchored at the end of the text. */
  lemma AnchoredPatternMeaning(k: nat, url: string)
    requires k in {5, 6}
    ensures Search(ApiPatternBank[k], url) <==> Clause(k, Lower(url))
  {
    if k == 5 {
      SuffixPatternMeaning(5, ".json", url);
    } else {
      SuffixPatternMeaning(6, ".xml", url);
    }
  }

  lemma SuffixPatternMeaning(k: nat, w: string, url: string)
    requires k < 9 && ApiPatternBank[k] == Lits(w) + [End]
    requires Clause(k, Lower(url)) <==> EndsWith(Lower(url), w) || EndsWith(Lower(url), w + "\n")
    ensures Search(ApiPatternBank[k], url) <==> Clause(k, Lower(url))
  {
    SearchAnchored(w, url);
  }

  /** The shape of the `endpoints?` and `services?` patterns. */
  lemma ShapeWithOptionalS(w: string, url: string)
    ensures Search(Lits(w) + [Optional('s'), Char('/'), AnyRun], url) <==>
      Contains(Lower(url), w + "/") || Contains(Lower(url), w + "s/")
  {
    assert Lits(w) + [Optional('s'), Char('/'), AnyRun] == Lits(w) + [Optional('s')] + [Char('/'), AnyRun];
    SearchOptional(w, 's', [Char('/'), AnyRun], url);
    assert Lits(w) + [Char('/'), AnyRun] == Lits(w + "/") + [AnyRun];
    assert Lits(w + ['s']) + [Char('/'), AnyRun] == Lits(w + "s/") + [AnyRun];
    SearchLiteral(w + "/", [AnyRun], url);
    SearchLiteral(w + "s/", [AnyRun], url);
  }

  /**
   * The explicit string tests of `Classifier.IsApiEndpoint` accept exactly the
   * URLs that some pattern of `api_patterns` is found in.
   */
  lemma ApiEndpointMatchesPatterns(url: string)
    ensures Classifier.IsApiEndpoint(url) <==> MatchesSomePattern(url)
  {
    var u := Lower(url);
    assert Classifier.IsApiEndpoint(url) <==> exists k :: 0 <= k < 9 && Clause(k, u) by {
      if Classifier.IsApiEndpoint(url) {
        if Contains(u, "/api/") { assert Clause(0, u); }
        else if Contains(u, "/rest/") { assert Clause(1, u); }
        else if Contains(u, "/graphql") { assert Clause(2, u); }
        else if Contains(u, "/endpoint/") || Contains(u, "/endpoints/") { assert Clause(3, u); }
        else if Contains(u, "/service/") || Contains(u, "/services/") { assert Clause(4, u); }
        else if EndsWith(u, ".json") || EndsWith(u, ".json\n") { assert Clause(5, u); }
        else if EndsWith(u, ".xml") || EndsWith(u, ".xml\n") { assert Clause(6, u); }
        else if Contains(u, "/json/") { assert Clause(7, u); }
        else { assert Clause(8, u); }
      }
    }
    forall k | 0 <= k < 9 ensures Search(ApiPatternBank[k], url) <==> Clause(k, u) {
      PatternMeaning(k, url);
    }
    PatternMeaning(0, url);
  }

  /** The first pattern needs a slash after `api`: a URL ending in `/api` is not API-shaped. */
  lemma BareApiPathIsNotApiShaped()
    ensures !Classifier.IsApiEndpoint("/api")
  {
    var u := Lower("/api");
    assert u == "/api";
    LongerNotContained(u, "/api/");
    LongerNotContained(u, "/rest/");
    LongerNotContained(u, "/graphql");
    LongerNotContained(u, "/endpoint/");
    LongerNotContained(u, "/endpoints/");
    LongerNotContained(u, "/service/");
    LongerNotContained(u, "/services/");
    LongerNotContained(u, "/json/");
    LongerNotContained(u, "/xml/");
  }

  lemma LongerNotContained(s: string, w: string)
    requires |w| > |s|
    ensures !Contains(s, w)
  {
    if Contains(s, w) {
      ContainsLength(s, w);
    }
  }
}
