/**
 * The endpoint record of api_hunter/core.py and the de-duplication pass that
 * keeps, for every (url, method) key, the first record seen.
 */
module Endpoints {
  import opened Seqs

  /**
   * `APIEndpoint`: confidence is an exact rational here, where the source
   * uses a binary floating-point number.
   */
  datatype Endpoint = Endpoint(
    url: string,
    verb: string,    // the `method` field; `method` is a Dafny keyword
    parameters: seq<string>,
    headers: map<string, string>,
    source: string,
    confidence: real)

  /** `APIEndpoint(url=u)`: every other field takes its declared default. */
  function Default(u: string): (e: Endpoint)
    ensures e.url == u && e.verb == "GET" && e.parameters == [] && e.headers == map[]
    ensures e.source == "unknown" && e.confidence == 0.0
  {
    Endpoint(u, "GET", [], map[], "unknown", 0.0)
  }

  /** `APIEndpoint(url=u, source=src, confidence=c)`, the shape every strategy creates. */
  function Found(u: string, src: string, c: real): Endpoint {
    Default(u).(source := src, confidence := c)
  }

  type Key = (string, string)

  /** The de-duplication key `(endpoint.url, endpoint.method)`. */
  function KeyOf(e: Endpoint): Key {
    (e.url, e.verb)
  }

  function KeysOf(s: seq<Endpoint>): set<Key> {
    set e | e in s :: KeyOf(e)
  }

  predicate DistinctKeys(s: seq<Endpoint>) {
    forall i, j :: 0 <= i < j < |s| ==> KeyOf(s[i]) != KeyOf(s[j])
  }

  /** No earlier record of `s` has the key of `s[i]`. */
  predicate IsFirstOccurrence(s: seq<Endpoint>, i: int)
    requires 0 <= i < |s|
  {
    forall j :: 0 <= j < i ==> KeyOf(s[j]) != KeyOf(s[i])
  }

  /** What `_deduplicate_endpoints` returns, defined one input record at a time. */
  function Dedup(s: seq<Endpoint>): seq<Endpoint>
    decreases |s|
  {
    if s == [] then []
    else
      var init := s[..|s| - 1];
      if KeyOf(s[|s| - 1]) in KeysOf(init) then Dedup(init) else Dedup(init) + [s[|s| - 1]]
  }

  lemma KeysOfSnoc(s: seq<Endpoint>, e: Endpoint)
    ensures KeysOf(s + [e]) == KeysOf(s) + {KeyOf(e)}
  {
    assert forall x :: x in s + [e] <==> x in s || x == e;
  }

  /**
   * `_deduplicate_endpoints`: a `seen` set of keys and an output list, grown
   * in one pass over the input.
   */
  method Deduplicate(endpoints: seq<Endpoint>) returns (unique: seq<Endpoint>)
    ensures unique == Dedup(endpoints)
    ensures DistinctKeys(unique) && KeysOf(unique) == KeysOf(endpoints)
    ensures IsSubsequence(unique, endpoints)
  {
    var seen: set<Key> := {};
    unique := [];
    for i := 0 to |endpoints|
      invariant seen == KeysOf(endpoints[..i])
      invariant unique == Dedup(endpoints[..i])
    {
      var key := KeyOf(endpoints[i]);
      assert endpoints[..i + 1] == endpoints[..i] + [endpoints[i]];
      KeysOfSnoc(endpoints[..i], endpoints[i]);
      if key !in seen {
        seen := seen + {key};
        unique := unique + [endpoints[i]];
      }
    }
    assert endpoints[..|endpoints|] == endpoints;
    DedupDistinctKeys(endpoints);
    DedupKeys(endpoints);
    DedupIsSubsequence(endpoints);
  }

  /** The output keys are pairwise distinct. */
  lemma {:induction false} DedupDistinctKeys(s: seq<Endpoint>)
    ensures DistinctKeys(Dedup(s))
    decreases |s|
  {
    if s != [] {
      var init := s[..|s| - 1];
      DedupDistinctKeys(init);
      DedupKeys(init);
    }
  }

  /** Every key of the input is present in the output, and no other. */
  lemma {:induction false} DedupKeys(s: seq<Endpoint>)
    ensures KeysOf(Dedup(s)) == KeysOf(s)
    decreases |s|
  {
    if s != [] {
      var init := s[..|s| - 1];
      DedupKeys(init);
      assert s == init + [s[|s| - 1]];
      KeysOfSnoc(init, s[|s| - 1]);
      KeysOfSnoc(Dedup(init), s[|s| - 1]);
    }
  }

  /** The output keeps the input's order and is no longer than it. */
  lemma {:induction false} DedupIsSubsequence(s: seq<Endpoint>)
    ensures IsSubsequence(Dedup(s), s) && |Dedup(s)| <= |s|
    decreases |s|
  {
    if s != [] {
      var init := s[..|s| - 1];
      var d := Dedup(init);
      DedupIsSubsequence(init);
      if KeyOf(s[|s| - 1]) !in KeysOf(init) {
        assert (d + [s[|s| - 1]])[..|d|] == d;
      } else if d != [] {
        assert IsSubsequence(d, init);
      }
      SubsequenceLength(Dedup(s), s);
    }
  }

  /** Dropping the last record changes no earlier record's first-occurrence status. */
  lemma FirstOccurrenceInPrefix(s: seq<Endpoint>, i: int)
    requires 0 <= i < |s| - 1
    ensures IsFirstOccurrence(s, i) <==> IsFirstOccurrence(s[..|s| - 1], i)
  {
  }

  /** The last record is a first occurrence exactly when its key is new. */
  lemma LastIsFirstOccurrence(s: seq<Endpoint>)
    requires |s| > 0
    ensures IsFirstOccurrence(s, |s| - 1) <==> KeyOf(s[|s| - 1]) !in KeysOf(s[..|s| - 1])
  {
    var init := s[..|s| - 1];
    if KeyOf(s[|s| - 1]) in KeysOf(init) {
      var e :| e in init && KeyOf(e) == KeyOf(s[|s| - 1]);
      var j :| 0 <= j < |init| && init[j] == e;
      assert KeyOf(s[j]) == KeyOf(s[|s| - 1]);
    } else {
      forall j | 0 <= j < |s| - 1 ensures KeyOf(s[j]) != KeyOf(s[|s| - 1]) {
        assert s[j] in init;
      }
    }
  }

  /** Every first occurrence of a key is in the output. */
  lemma {:induction false} DedupKeepsFirst(s: seq<Endpoint>)
    ensures forall i :: 0 <= i < |s| && IsFirstOccurrence(s, i) ==> s[i] in Dedup(s)
    decreases |s|
  {
    if s != [] {
      var n := |s| - 1;
      var init := s[..n];
      DedupKeepsFirst(init);
      LastIsFirstOccurrence(s);
      forall i | 0 <= i < |s| && IsFirstOccurrence(s, i) ensures s[i] in Dedup(s) {
        if i < n {
          FirstOccurrenceInPrefix(s, i);
          assert init[i] == s[i];
        }
      }
    }
  }

  /** Everything in the output is the first occurrence of its key. */
  lemma {:induction false} DedupOnlyFirst(s: seq<Endpoint>)
    ensures forall e :: e in Dedup(s) ==> exists i :: 0 <= i < |s| && IsFirstOccurrence(s, i) && s[i] == e
    decreases |s|
  {
    if s != [] {
      var n := |s| - 1;
      var init := s[..n];
      DedupOnlyFirst(init);
      LastIsFirstOccurrence(s);
      forall e | e in Dedup(s)
        ensures exists i :: 0 <= i < |s| && IsFirstOccurrence(s, i) && s[i] == e
      {
        if e in Dedup(init) {
          var i :| 0 <= i < n && IsFirstOccurrence(init, i) && init[i] == e;
          FirstOccurrenceInPrefix(s, i);
          assert IsFirstOccurrence(s, i) && s[i] == e;
        } else {
          assert IsFirstOccurrence(s, n) && s[n] == e;
        }
      }
    }
  }

  /** The only output record with the key of a first occurrence is that record. */
  lemma DedupRepresentative(s: seq<Endpoint>, i: int)
    requires 0 <= i < |s| && IsFirstOccurrence(s, i)
    ensures s[i] in Dedup(s)
    ensures forall e :: e in Dedup(s) && KeyOf(e) == KeyOf(s[i]) ==> e == s[i]
  {
    DedupKeepsFirst(s);
    DedupOnlyFirst(s);
    forall e | e in Dedup(s) && KeyOf(e) == KeyOf(s[i]) ensures e == s[i] {
      var k :| 0 <= k < |s| && IsFirstOccurrence(s, k) && s[k] == e;
      FirstOccurrenceUnique(s, i, k);
    }
  }

  /** Two first occurrences with the same key are the same position. */
  lemma FirstOccurrenceUnique(s: seq<Endpoint>, i: int, j: int)
    requires 0 <= i < |s| && 0 <= j < |s|
    requires IsFirstOccurrence(s, i) && IsFirstOccurrence(s, j)
    requires KeyOf(s[i]) == KeyOf(s[j])
    ensures i == j
  {
  }

  /**
   * A later record whose key was already seen is dropped whatever its
   * confidence: no maximum is taken over the duplicates.
   */
  lemma LaterDuplicateDropped(s: seq<Endpoint>, i: int, j: int)
    requires 0 <= i < j < |s|
    requires IsFirstOccurrence(s, i) && KeyOf(s[j]) == KeyOf(s[i])
    requires s[j] != s[i]
    ensures s[j] !in Dedup(s)
  {
    DedupRepresentative(s, i);
  }

  /** Two records with one key and different confidences: the first survives alone. */
  lemma DuplicateKeepsFirstConfidence(a: Endpoint, b: Endpoint)
    requires KeyOf(a) == KeyOf(b)
    ensures Dedup([a, b]) == [a]
  {
    assert [a, b][..1] == [a];
    assert [a][..0] == [];
    assert KeysOf([]) == {};
    assert Dedup([a]) == [a];
    assert a in [a];
  }

  /** A list whose keys are already distinct is left as it is. */
  lemma {:induction false} DedupOfDistinct(s: seq<Endpoint>)
    requires DistinctKeys(s)
    ensures Dedup(s) == s
    decreases |s|
  {
    if s != [] {
      var init := s[..|s| - 1];
      DedupOfDistinct(init);
      LastIsFirstOccurrence(s);
      assert s == init + [s[|s| - 1]];
    }
  }

  /** De-duplicating twice is de-duplicating once. */
  lemma DedupIdempotent(s: seq<Endpoint>)
    ensures Dedup(Dedup(s)) == Dedup(s)
  {
    DedupDistinctKeys(s);
    DedupOfDistinct(Dedup(s));
  }

  /**
   * De-duplicating a concatenation starts with the de-duplicated first part:
   * on a key collision a record of `a` wins over every record of `b`.
   */
  lemma {:induction false} DedupPrefix(a: seq<Endpoint>, b: seq<Endpoint>)
    ensures Dedup(a) <= Dedup(a + b)
    decreases |b|
  {
    if b == [] {
      assert a + b == a;
    } else {
      var b' := b[..|b| - 1];
      DedupPrefix(a, b');
      assert (a + b)[..|a + b| - 1] == a + b';
    }
  }
}
