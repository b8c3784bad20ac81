/**
 * What the network hands back to the tool. Requests are not modelled; their
 * outcomes are inputs: either a response, or a transport failure
 * (`requests.RequestException`: connection error, timeout, ...).
 */
module Probes {
  import opened Text

  /** A response: status code, the `content-type` header ("" when absent), and the body text. */
  datatype Response = Response(status: int, contentType: string, body: string)

  datatype Fetch = Received(response: Response) | TransportError

  /** The content-type test shared by the validator and the path scanner. */
  predicate ApiContentType(contentType: string) {
    var ct := Lower(contentType);
    Contains(ct, "json") || Contains(ct, "xml") || Contains(ct, "api")
  }

  /** A response with status below 400. */
  predicate Succeeded(f: Fetch) {
    f.Received? && f.response.status < 400
  }

  /** A response with status exactly 200, the test of the well-known-document probes. */
  predicate IsOk(f: Fetch) {
    f.Received? && f.response.status == 200
  }
}
