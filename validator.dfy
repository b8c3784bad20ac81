/**
 * The validation pass of `APIDiscovery` (`_validate_endpoints` in
 * api_hunter/core.py): every endpoint is probed once, in order, and its
 * confidence is adjusted from the outcome; nothing is dropped.
 */
module Validator {
  import opened Text
  import opened Probes
  import opened Endpoints

  function Min(a: real, b: real): real { if a <= b then a else b }
  function Max(a: real, b: real): real { if a >= b then a else b }

  /** The confidence after one probe. */
  function Rescore(c: real, outcome: Fetch): (r: real)
    ensures outcome.TransportError? ==> r >= 0.1 && (c >= 0.4 ==> r == c - 0.3) && (c <= 0.4 ==> r == 0.1)
    ensures outcome.Received? && outcome.response.status >= 400 ==> r == c
    ensures Succeeded(outcome) ==> r <= 1.0
    ensures Succeeded(outcome) ==>
      r == Min(c + 0.2 + (if ApiContentType(outcome.response.contentType) then 0.1 else 0.0), 1.0)
  {
    match outcome
    case TransportError => Max(c - 0.3, 0.1)
    case Received(resp) =>
      if resp.status < 400 then
        var raised := Min(c + 0.2, 1.0);
        if ApiContentType(resp.contentType) then Min(raised + 0.1, 1.0) else raised
      else c
  }

  /** A confidence inside [0, 1] stays inside [0, 1], and a transport failure leaves at least 0.1. */
  lemma RescoreStaysInUnitInterval(c: real, outcome: Fetch)
    requires 0.0 <= c <= 1.0
    ensures 0.0 <= Rescore(c, outcome) <= 1.0
    ensures Succeeded(outcome) ==> Rescore(c, outcome) >= c
    ensures outcome.TransportError? ==> 0.1 <= Rescore(c, outcome) <= Max(c, 0.1)
  {
  }

  /**
   * An error status does not demote: a zero confidence stays zero, so the
   * result is not always at least 0.1.
   */
  lemma ErrorStatusKeepsZero(body: string)
    ensures Rescore(0.0, Received(Response(404, "", body))) == 0.0
  {
  }

  /** A base confidence of 0.6 against a JSON success, an error status, and a failure. */
  lemma RescoreExamples(body: string)
    ensures Rescore(0.6, Received(Response(200, "application/json", body))) == 0.9
    ensures Rescore(0.6, Received(Response(500, "text/html", body))) == 0.6
    ensures Rescore(0.6, TransportError) == 0.3
  {
    assert Contains(Lower("application/json"), "json") by {
      assert Lower("application/json")[12..][..4] == "json";
      ContainsAt(Lower("application/json"), "json", 12);
    }
  }

  /** The list `_validate_endpoints` returns: each record with its rescored confidence. */
  function Validated(endpoints: seq<Endpoint>, probe: nat -> Fetch): (r: seq<Endpoint>)
    ensures |r| == |endpoints|
  {
    seq(|endpoints|, i requires 0 <= i < |endpoints| =>
      endpoints[i].(confidence := Rescore(endpoints[i].confidence, probe(i))))
  }

  /**
   * `_validate_endpoints`: the `i`-th HEAD request has outcome `probe(i)`.
   * Every endpoint comes back, in order, with only its confidence changed.
   */
  method ValidateEndpoints(endpoints: seq<Endpoint>, probe: nat -> Fetch) returns (validated: seq<Endpoint>)
    ensures |validated| == |endpoints|
    ensures forall i :: 0 <= i < |endpoints| ==>
      validated[i] == endpoints[i].(confidence := Rescore(endpoints[i].confidence, probe(i)))
    ensures validated == Validated(endpoints, probe)
  {
    validated := [];
    for i := 0 to |endpoints|
      invariant |validated| == i
      invariant forall k :: 0 <= k < i ==>
        validated[k] == endpoints[k].(confidence := Rescore(endpoints[k].confidence, probe(k)))
    {
      var endpoint := endpoints[i];
      endpoint := endpoint.(confidence := Rescore(endpoint.confidence, probe(i)));
      validated := validated + [endpoint];
    }
  }

  /** Validation keeps every key and its position, so distinct keys stay distinct. */
  lemma ValidatedKeepsKeys(endpoints: seq<Endpoint>, probe: nat -> Fetch)
    ensures forall i :: 0 <= i < |endpoints| ==> KeyOf(Validated(endpoints, probe)[i]) == KeyOf(endpoints[i])
    ensures KeysOf(Validated(endpoints, probe)) == KeysOf(endpoints)
    ensures DistinctKeys(endpoints) ==> DistinctKeys(Validated(endpoints, probe))
  {
    var v := Validated(endpoints, probe);
    forall k | k in KeysOf(v) ensures k in KeysOf(endpoints) {
      var e :| e in v && KeyOf(e) == k;
      var i :| 0 <= i < |v| && v[i] == e;
      assert endpoints[i] in endpoints;
    }
    forall k | k in KeysOf(endpoints) ensures k in KeysOf(v) {
      var e :| e in endpoints && KeyOf(e) == k;
      var i :| 0 <= i < |endpoints| && endpoints[i] == e;
      assert v[i] in v;
    }
  }

  /** Every validated confidence inside [0, 1] stays inside [0, 1]. */
  lemma ValidatedInUnitInterval(endpoints: seq<Endpoint>, probe: nat -> Fetch)
    requires forall e :: e in endpoints ==> 0.0 <= e.confidence <= 1.0
    ensures forall e :: e in Validated(endpoints, probe) ==> 0.0 <= e.confidence <= 1.0
  {
    var v := Validated(endpoints, probe);
    forall e | e in v ensures 0.0 <= e.confidence <= 1.0 {
      var i :| 0 <= i < |v| && v[i] == e;
      assert endpoints[i] in endpoints;
      RescoreStaysInUnitInterval(endpoints[i].confidence, probe(i));
    }
  }
}
