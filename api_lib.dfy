/** The base class of every resource library (AbstractAPILib): it holds a
    shared HTTP client, an endpoint and an options array, merges per-request
    options over its own, remembers the last response, and accepts only
    status 200. */
module ApiLib {
  import opened Values
  import opened Transport

  /** The five resource libraries; they differ only in name. */
  datatype ResourceKind = Org | Profile | Schema | Search | Layouts

  /** The options a request is sent with: the instance options, overridden
      key by key by `extra` when it is given (PHP array_merge on string
      keys, so a nested `query` of `extra` replaces the instance's whole). */
  function MergeOptions(base: Options, extra: Option<Options>): (r: Options)
    ensures extra.None? ==> r == base
    ensures extra.Some? ==> r.Keys == base.Keys + extra.value.Keys
    ensures extra.Some? ==> forall k :: k in extra.value ==> r[k] == extra.value[k]
    ensures forall k :: k in base && (extra.None? || k !in extra.value) ==> r[k] == base[k]
  {
    match extra
    case None => base
    case Some(e) => base + e
  }

  /** A library built from an options array keeps exactly that array. */
  lemma ConstructedOptions(given: Options)
    ensures MergeOptions(map[], Some(given)) == given
  {
  }

  /** What makeRawRequest makes of a response: the response itself when the
      status is 200, FALSE (None) for every other status. */
  function Classify(response: Response): (raw: Option<Response>)
    ensures raw.Some? <==> response.status == 200
    ensures raw.Some? ==> raw.value == response
  {
    if response.status == 200 then Some(response) else None
  }

  /** What makeRequest makes of makeRawRequest's result: an error for FALSE,
      an error when the body cannot be read, and otherwise the decoded body.
      `decode` stands for json_decode, which does not throw. */
  function Decoded<J>(raw: Option<Response>, decode: string -> J): (r: Result<J>)
    ensures raw.None? <==> r == Err(InvalidResponse)
    ensures raw.Some? && raw.value.body.None? <==> r == Err(NoBody)
    ensures r.Ok? <==> raw.Some? && raw.value.body.Some?
    ensures r.Ok? ==> r.value == decode(raw.value.body.value)
  {
    match raw
    case None => Err(InvalidResponse)
    case Some(response) =>
      match response.body
      case None => Err(NoBody)
      case Some(contents) => Ok(decode(contents))
  }

  /** makeRequest fails exactly when the status is not 200 or the body
      cannot be read; otherwise it yields the decoded body. */
  lemma RequestOutcome<J>(response: Response, decode: string -> J)
    ensures Decoded(Classify(response), decode).Err? <==> response.status != 200 || response.body.None?
    ensures response.status != 200 ==> Decoded(Classify(response), decode) == Err(InvalidResponse)
    ensures response.status == 200 && response.body.Some? ==>
              Decoded(Classify(response), decode) == Ok(decode(response.body.value))
  {
  }

  class Lib {
    const kind: ResourceKind
    var client: Client
    var endpoint: string
    var options: Options
    var lastResponse: Option<Response>

    /** Builds a library around `client`; given options are merged over the
        empty defaults, and NULL leaves them empty. */
    constructor (kind: ResourceKind, client: Client, options: Option<Options>)
      ensures this.kind == kind && this.client == client
      ensures endpoint == DefaultEndpoint && lastResponse == None
      ensures this.options == MergeOptions(map[], options)
      ensures options.Some? ==> this.options == options.value
      ensures options.None? ==> this.options == map[]
    {
      this.kind := kind;
      this.client := client;
      endpoint := DefaultEndpoint;
      lastResponse := None;
      this.options := map[];
      new;
      if options.Some? {
        var opts := GetOptions();
        opts := MergeOptions(opts, options);
        SetOptions(opts);
        ConstructedOptions(options.value);
      }
    }

    method SetClient(client: Client)
      modifies this`client
      ensures GetClient() == client
    {
      this.client := client;
    }

    function GetClient(): Client
      reads this
    {
      client
    }

    method SetEndpoint(endpoint: string)
      modifies this`endpoint
      ensures GetEndpoint() == endpoint
    {
      this.endpoint := endpoint;
    }

    function GetEndpoint(): string
      reads this
    {
      endpoint
    }

    method SetOptions(options: Options)
      modifies this`options
      ensures GetOptions() == options
    {
      this.options := options;
    }

    function GetOptions(): Options
      reads this
    {
      options
    }

    function GetLastResponse(): Option<Response>
      reads this
    {
      lastResponse
    }

    /** Sends GET `url` with the instance options overridden by
        `extraOptions`. `params` is accepted and ignored, as in the source.
        A throwing client propagates and leaves lastResponse alone; any
        response is recorded, and is returned only when its status is 200
        (None stands for FALSE). The instance options never change. */
    method MakeRawRequest(url: string, params: Options, extraOptions: Option<Options>, reply: Reply)
      returns (r: Result<Option<Response>>)
      modifies this`lastResponse, client`sent
      ensures client.sent == old(client.sent) + [Request(url, MergeOptions(options, extraOptions))]
      ensures reply.Raised? ==> r == Err(TransportRaised) && GetLastResponse() == old(GetLastResponse())
      ensures reply.Received? ==> GetLastResponse() == Some(reply.response) && r == Ok(Classify(reply.response))
    {
      var opts := GetOptions();
      opts := MergeOptions(opts, extraOptions);
      var got := client.Get(url, opts, reply);
      if got.Raised? {
        return Err(TransportRaised);
      }
      lastResponse := Some(got.response);
      r := Ok(Classify(got.response));
    }

    /** makeRawRequest followed by reading and decoding the body. */
    method MakeRequest<J>(url: string, params: Options, extraOptions: Option<Options>, reply: Reply,
                          decode: string -> J)
      returns (r: Result<J>)
      modifies this`lastResponse, client`sent
      ensures client.sent == old(client.sent) + [Request(url, MergeOptions(options, extraOptions))]
      ensures reply.Raised? ==> r == Err(TransportRaised) && GetLastResponse() == old(GetLastResponse())
      ensures reply.Received? ==> GetLastResponse() == Some(reply.response)
      ensures reply.Received? ==> r == Decoded(Classify(reply.response), decode)
    {
      var raw := MakeRawRequest(url, params, extraOptions, reply);
      if raw.Err? {
        return Err(raw.error);
      }
      r := Decoded(raw.value, decode);
    }
  }
}
