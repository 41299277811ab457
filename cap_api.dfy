/** The CAPAPI facade: configuration (endpoint, token, options) and a
    memoised HTTP client, with api($name) building a resource library.
    Its client setter is typed, so a client is always present once built. */
module CapApi {
  import opened Values
  import opened Transport
  import opened ApiLib
  import opened FacadeLogic

  class Facade {
    var httpClient: Client?
    var httpEndpoint: string
    var httpAuthToken: Option<string>
    var httpOptions: Option<Options>

    /** The typed constructor and setter never store a NULL client. */
    ghost predicate Valid()
      reads this
    {
      httpClient != null
    }

    /** Takes the client and the token of an authenticated auth client
        (its getAuthApiToken()); options start as NULL. */
    constructor (client: Client, authApiToken: Option<string>)
      ensures httpClient == client && httpAuthToken == authApiToken
      ensures GetEndpoint() == DefaultEndpoint && httpOptions == None
      ensures Valid()
    {
      httpEndpoint := DefaultEndpoint;
      httpOptions := None;
      new;
      SetHttpClient(client);
      SetApiToken(authApiToken);
    }

    function GetEndpoint(): string
      reads this
    {
      httpEndpoint
    }

    method SetEndpoint(end: string)
      modifies this`httpEndpoint
      ensures GetEndpoint() == end
    {
      httpEndpoint := end;
    }

    /** Returns the stored client; only when there is none, creates one for
        the current endpoint and keeps it. */
    method GetHttpClient() returns (c: Client)
      modifies this`httpClient
      ensures httpClient == c && Valid()
      ensures old(httpClient) != null ==> c == old(httpClient)
      ensures old(httpClient) == null ==> fresh(c) && c.baseUri == httpEndpoint && c.sent == []
    {
      if httpClient != null {
        return httpClient;
      }
      c := new Client(GetEndpoint());
      SetHttpClient(c);
    }

    method SetHttpClient(client: Client)
      modifies this`httpClient
      ensures httpClient == client
      ensures Valid()
    {
      httpClient := client;
    }

    method SetApiToken(token: Option<string>)
      modifies this`httpAuthToken
      ensures httpAuthToken == token
    {
      httpAuthToken := token;
    }

    /** NULL for an unset or empty token, the token otherwise. */
    function GetApiToken(): (r: Option<string>)
      reads this
      ensures r.None? <==> httpAuthToken == None || httpAuthToken == Some("")
      ensures r.Some? ==> r == httpAuthToken
    {
      ApiToken(httpAuthToken)
    }

    function GetHttpOptions(): Option<Options>
      reads this
    {
      httpOptions
    }

    method SetHttpOptions(opts: Options)
      modifies this`httpOptions
      ensures GetHttpOptions() == Some(opts)
    {
      httpOptions := Some(opts);
    }

    /** Sets `query.ps`; getLimit then returns `n` and nothing else that
        getLimit or getPage could read back changes except `ps`. */
    method SetLimit(n: Value)
      modifies this`httpOptions
      ensures httpOptions == Some(WriteQuery(old(httpOptions), "ps", n))
      ensures GetLimit() == n
      ensures forall q :: q != "ps" ==> ReadQuery(httpOptions, q) == ReadQuery(old(httpOptions), q)
    {
      var httpOpts := GetHttpOptions();
      SetHttpOptions(WriteQuery(httpOpts, "ps", n));
      LimitRoundTrip(httpOpts, n);
    }

    /** The `query.ps` entry, NULL wherever a level is missing. */
    function GetLimit(): (r: Value)
      reads this
      ensures "ps" in QueryOf(httpOptions) ==> r == QueryOf(httpOptions)["ps"]
      ensures "ps" !in QueryOf(httpOptions) ==> r == VNull
    {
      ReadQuery(GetHttpOptions(), "ps")
    }

    /** Sets `query.p`, which getPage does not read. */
    method SetPage(n: Value)
      modifies this`httpOptions
      ensures httpOptions == Some(WriteQuery(old(httpOptions), "p", n))
      ensures ReadQuery(httpOptions, "p") == n
      ensures GetPage() == old(GetPage())
    {
      var httpOpts := GetHttpOptions();
      SetHttpOptions(WriteQuery(httpOpts, "p", n));
      PageIsInvisibleToGetPage(httpOpts, n);
    }

    /** Reads `query.ps`, as the source does: always the limit. */
    function GetPage(): (r: Value)
      reads this
      ensures r == GetLimit()
    {
      ReadQuery(GetHttpOptions(), "ps")
    }

    /** Builds the library `name` selects around the (memoised) client, with
        a copy of the options carrying the access token, and gives it the
        facade's endpoint; an unknown name is an error. The client is
        fetched before the name is looked at; the facade's own options,
        endpoint and token are left as they were. */
    method Api(name: string) returns (r: Result<Lib>)
      modifies this`httpClient
      ensures httpClient != null && Valid()
      ensures old(httpClient) != null ==> httpClient == old(httpClient)
      ensures old(httpClient) == null ==> fresh(httpClient) && httpClient.baseUri == httpEndpoint
      ensures r.Err? <==> Dispatch(name).None?
      ensures r.Err? ==> r.error == UndefinedApi(name)
      ensures r.Ok? ==> && fresh(r.value)
                        && Some(r.value.kind) == Dispatch(name)
                        && r.value.client == httpClient
                        && r.value.endpoint == httpEndpoint
                        && r.value.options == ApiOptions(httpOptions, httpAuthToken)
                        && r.value.lastResponse == None
    {
      var client := GetHttpClient();
      var options := WriteQuery(GetHttpOptions(), "access_token", TokenValue(GetApiToken()));
      var kind := Dispatch(name);
      if kind.None? {
        return Err(UndefinedApi(name));
      }
      var api := new Lib(kind.value, client, Some(options));
      api.SetEndpoint(GetEndpoint());
      r := Ok(api);
    }
  }

  /** A library keeps the options it was built with: changing the facade's
      options afterwards does not reach it. */
  method OptionsAreSnapshot(f: Facade, name: string, n: Value, opts: Options) returns (r: Result<Lib>)
    modifies f
    ensures r.Ok? ==> r.value.options == ApiOptions(old(f.httpOptions), old(f.httpAuthToken))
    ensures f.httpOptions == Some(WriteQuery(Some(opts), "ps", n))
  {
    r := f.Api(name);
    f.SetHttpOptions(opts);
    f.SetLimit(n);
  }

  /** A freshly built facade holds the auth client's token, and
      getHttpClient hands back the injected client without creating one. */
  method InjectedClientIsUsed(client: Client, authApiToken: Option<string>) returns (f: Facade, c: Client)
    ensures fresh(f) && f.httpAuthToken == authApiToken
    ensures c == client && f.httpClient == client
  {
    f := new Facade(client, authApiToken);
    c := f.GetHttpClient();
  }
}
