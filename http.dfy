/**
 * The HTTP world the client talks to, as an oracle: `http.NewRequest` either
 * builds a request or rejects the method and URL, and `http.DefaultClient.Do`
 * turns a request into a response or a transport error. The network records
 * every request it is given, so that which requests were made, and how many,
 * can be stated.
 */
module Http {
  import opened Wrappers

  /** An outgoing request: method (verb), URL, body and the `Authorization` header value. */
  datatype Request = Request(verb: string, url: string, body: string, authorization: string)

  /**
   * A response: the numeric status, the status line (`resp.Status`), the body
   * (or the error reading it failed with) and the first `Link` header value
   * ("" when absent).
   */
  datatype Response = Response(statusCode: int, status: string, body: Result<string, string>, link: string)

  /** Go's `http.StatusOK`. */
  const StatusOK: int := 200

  class Network {
    /** The error `http.NewRequest` reports for a method and URL, if it rejects them. */
    const requestError: (string, string) -> Option<string>
    /** What the server (or the transport) answers to a request. */
    const transport: Request -> Result<Response, string>
    /** Every request handed to `Do`, oldest first. */
    var sent: seq<Request>

    constructor (requestError: (string, string) -> Option<string>, transport: Request -> Result<Response, string>)
      ensures this.requestError == requestError && this.transport == transport
      ensures sent == []
    {
      this.requestError := requestError;
      this.transport := transport;
      sent := [];
    }

    /** `http.DefaultClient.Do(req)`: one request on the wire, answered by the oracle. */
    method Do(req: Request) returns (resp: Result<Response, string>)
      modifies this
      ensures sent == old(sent) + [req]
      ensures resp == transport(req)
    {
      sent := sent + [req];
      resp := transport(req);
    }
  }
}
