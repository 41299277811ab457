/** The HTTP client the core is handed (Guzzle in the source), reduced to
    what the core relies on: it is a shared object, it is asked to GET a
    URL with an options array, and it yields a response or throws. What the
    network answers is not the client's to decide, so it is an input of
    each call; the client keeps a log of the requests it was asked to send. */
module Transport {
  import opened Values

  /** A response: its status code and its body, where None is a body whose
      contents cannot be read. */
  datatype Response = Response(status: int, body: Option<string>)

  /** What the network does with one request: answer it, or make the
      client throw. */
  datatype Reply = Received(response: Response) | Raised

  /** One call of the client's `get`. */
  datatype Request = Request(url: string, options: Options)

  class Client {
    /** The base URI the client was created with. */
    const baseUri: string
    /** Every request sent through this client, oldest first. */
    var sent: seq<Request>

    constructor (baseUri: string)
      ensures this.baseUri == baseUri && sent == []
    {
      this.baseUri := baseUri;
      sent := [];
    }

    /** Sends GET `url` with `options`; `reply` is what the network does. */
    method Get(url: string, options: Options, reply: Reply) returns (r: Reply)
      modifies this`sent
      ensures sent == old(sent) + [Request(url, options)]
      ensures r == reply
    {
      sent := sent + [Request(url, options)];
      r := reply;
    }
  }
}
