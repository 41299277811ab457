/** The logic the two facades (CAPAPI and HTTPClient) share, as functions of
    their fields: token normalisation, reading and writing one entry of the
    nested `query` options, the options handed to a library, and the closed
    name-to-library dispatch of api($name). */
module FacadeLogic {
  import opened Values
  import opened ApiLib

  /** getApiToken: an unset or empty token reads as NULL, any other token
      is returned as stored. */
  function ApiToken(stored: Option<string>): (r: Option<string>)
    ensures r.None? <==> stored == None || stored == Some("")
    ensures r.Some? ==> r == stored
  {
    if stored.None? || stored.value == "" then None else stored
  }

  /** A nullable token as the PHP value stored into an options array. */
  function TokenValue(token: Option<string>): (v: Value)
    ensures token.None? <==> v == VNull
    ensures token.Some? ==> v == VStr(token.value)
  {
    match token
    case None => VNull
    case Some(t) => VStr(t)
  }

  /** The options array, where NULL behaves as an empty array once written. */
  function TopOf(opts: Option<Options>): Options
  {
    if opts.Some? then opts.value else map[]
  }

  /** The nested `query` array, or an empty one when it is absent. */
  function QueryOf(opts: Option<Options>): Options
  {
    if opts.Some? && "query" in opts.value && opts.value["query"].VMap?
    then opts.value["query"].entries
    else map[]
  }

  /** `$opts['query'][$key]`: NULL wherever a level is missing. */
  function ReadQuery(opts: Option<Options>, key: string): (r: Value)
    ensures key in QueryOf(opts) ==> r == QueryOf(opts)[key]
    ensures key !in QueryOf(opts) ==> r == VNull
  {
    var query := QueryOf(opts);
    if key in query then query[key] else VNull
  }

  /** `$opts['query'][$key] = $v` on a copy of the array: `query` gains or
      replaces the one entry `key`, and the top-level entries other than
      `query` are kept. */
  function WriteQuery(opts: Option<Options>, key: string, v: Value): (r: Options)
    ensures ReadQuery(Some(r), key) == v
    ensures QueryOf(Some(r)).Keys == QueryOf(opts).Keys + {key}
    ensures forall q :: q in QueryOf(opts) && q != key ==> QueryOf(Some(r))[q] == QueryOf(opts)[q]
    ensures r.Keys == TopOf(opts).Keys + {"query"}
    ensures forall k :: k in TopOf(opts) && k != "query" ==> r[k] == TopOf(opts)[k]
  {
    TopOf(opts)["query" := VMap(QueryOf(opts)[key := v])]
  }

  /** The options api($name) hands to the library it builds: a copy of the
      facade's options with `query.access_token` set to getApiToken(). */
  function ApiOptions(opts: Option<Options>, token: Option<string>): (r: Options)
    ensures ReadQuery(Some(r), "access_token") == TokenValue(ApiToken(token))
  {
    WriteQuery(opts, "access_token", TokenValue(ApiToken(token)))
  }

  /** The names api($name) accepts. */
  const ApiNames: set<string> := {"org", "orgs", "profile", "profiles", "schema", "search", "layout", "layouts"}

  /** The switch of api($name): which library a name selects, if any. */
  function Dispatch(name: string): (r: Option<ResourceKind>)
    ensures r.Some? <==> name in ApiNames
  {
    if name == "org" || name == "orgs" then Some(Org)
    else if name == "profile" || name == "profiles" then Some(Profile)
    else if name == "schema" then Some(Schema)
    else if name == "search" then Some(Search)
    else if name == "layout" || name == "layouts" then Some(Layouts)
    else None
  }

  /** Singular and plural spellings select the same library, and `auth`,
      although documented, is not a name api($name) knows. */
  lemma DispatchTable()
    ensures Dispatch("org") == Dispatch("orgs") == Some(Org)
    ensures Dispatch("profile") == Dispatch("profiles") == Some(Profile)
    ensures Dispatch("schema") == Some(Schema)
    ensures Dispatch("search") == Some(Search)
    ensures Dispatch("layout") == Dispatch("layouts") == Some(Layouts)
    ensures Dispatch("auth") == None
  {
  }

  /** setLimit then getLimit gives back the limit; every other query entry
      (the page `p` among them) and every other top-level entry reads as
      before. */
  lemma LimitRoundTrip(opts: Option<Options>, n: Value)
    ensures ReadQuery(Some(WriteQuery(opts, "ps", n)), "ps") == n
    ensures forall q :: q != "ps" ==> ReadQuery(Some(WriteQuery(opts, "ps", n)), q) == ReadQuery(opts, q)
    ensures forall k :: k in TopOf(opts) && k != "query" ==> WriteQuery(opts, "ps", n)[k] == TopOf(opts)[k]
  {
  }

  /** setPage writes `p`, but getPage reads `ps`: what getPage returns is
      what getLimit returns, and setPage does not change it. */
  lemma PageIsInvisibleToGetPage(opts: Option<Options>, n: Value)
    ensures ReadQuery(Some(WriteQuery(opts, "p", n)), "p") == n
    ensures ReadQuery(Some(WriteQuery(opts, "p", n)), "ps") == ReadQuery(opts, "ps")
  {
  }

  /** Writing two different query entries gives the same options in either
      order, so setLimit and setPage commute. */
  lemma {:induction false} WritesCommute(opts: Option<Options>, k1: string, v1: Value, k2: string, v2: Value)
    requires k1 != k2
    ensures WriteQuery(Some(WriteQuery(opts, k1, v1)), k2, v2) == WriteQuery(Some(WriteQuery(opts, k2, v2)), k1, v1)
  {
    var a := WriteQuery(Some(WriteQuery(opts, k1, v1)), k2, v2);
    var b := WriteQuery(Some(WriteQuery(opts, k2, v2)), k1, v1);
    assert QueryOf(opts)[k1 := v1][k2 := v2] == QueryOf(opts)[k2 := v2][k1 := v1];
  }

  /** A second write of the same query entry replaces the first: setLimit
      twice leaves the options as the last setLimit alone would. */
  lemma {:induction false} WriteOverwrites(opts: Option<Options>, key: string, v1: Value, v2: Value)
    ensures WriteQuery(Some(WriteQuery(opts, key, v1)), key, v2) == WriteQuery(opts, key, v2)
  {
    assert QueryOf(opts)[key := v1][key := v2] == QueryOf(opts)[key := v2];
  }

  /** The library's options differ from the facade's only in
      `query.access_token`: every other query entry and every other
      top-level entry is kept. */
  lemma ApiOptionsKeepOthers(opts: Option<Options>, token: Option<string>)
    ensures forall q :: q != "access_token" ==> ReadQuery(Some(ApiOptions(opts, token)), q) == ReadQuery(opts, q)
    ensures forall k :: k in TopOf(opts) && k != "query" ==> ApiOptions(opts, token)[k] == TopOf(opts)[k]
    ensures ApiOptions(opts, token).Keys == TopOf(opts).Keys + {"query"}
  {
  }

  /** After setLimit(n) and setPage(m), a library built by api($name) is
      handed `query.ps == n`, `query.p == m` and the access token. */
  lemma PaginationReachesLibrary(opts: Option<Options>, token: Option<string>, n: Value, m: Value)
    ensures var lib := ApiOptions(Some(WriteQuery(Some(WriteQuery(opts, "ps", n)), "p", m)), token);
            ReadQuery(Some(lib), "ps") == n && ReadQuery(Some(lib), "p") == m &&
            ReadQuery(Some(lib), "access_token") == TokenValue(ApiToken(token))
  {
  }
}
