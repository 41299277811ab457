# CAP API client core, modelled in Dafny

A model of the PHP client for Stanford's CAP API. Most of that client is glue
over the Guzzle HTTP client. Two parts carry real logic, and they are modelled
here:

- The configuration facade. `CAPAPI`, and its near-copy `HTTPClient`, hold the
  endpoint, the auth token, a lazily created HTTP client and a nullable
  options array. `setLimit`/`setPage` edit the nested `query` entry in place.
  `api($name)` maps a fixed set of names to resource libraries. It gives the
  chosen library a copy of the options with `query.access_token` set, and it
  stamps the library with the facade's endpoint.
- The request path of `AbstractAPILib`. A library merges its options with
  PHP `array_merge` (per-request options win, key by key). It sends a GET
  through the shared client and records the response as `lastResponse`. It
  accepts only status 200, and `makeRequest` decodes the body of an accepted
  response.

Modules, one per part of the source:

- `Values` (`values.dfy`): PHP option values (`Value`, with `Options` as a
  string-keyed map), `Option` for NULL, `Result` and `Error` for the
  exceptions, and the default endpoint `https://api.stanford.edu`.
- `Transport` (`transport.dfy`): the HTTP client as an object. It logs every
  request it is asked to send in `sent`. What the network answers, a
  response or an exception, is an input of each call (`Reply`).
- `ApiLib` (`api_lib.dfy`): `AbstractAPILib` as the class `Lib`. The option
  merge (`MergeOptions`), the 200-only classification (`Classify`) and the
  body handling of `makeRequest` (`Decoded`) are functions.
- `FacadeLogic` (`facade_logic.dfy`): the pure logic that both facades share.
  This covers token normalisation, reading and writing `query` entries, the
  options handed to a library, and the name dispatch. The lemmas about them
  are here too.
- `CapApi` (`cap_api.dfy`) and `HttpClient` (`http_client.dfy`): the two
  facade classes. They differ where the source's parameter types differ.
  `CAPAPI` accepts only a non-null client and an array of options.
  `HTTPClient` also accepts NULL for both, so only in `HTTPClient` can
  `getHttpClient` reach the branch that creates a client.

Three points to note about the code's own behaviour:

- `getPage` reads `query.ps`, the key `getLimit` reads, not `query.p`, which
  is the key `setPage` writes. The model keeps this. `GetPage` states that it
  always equals `GetLimit`, and `SetPage` states that `GetPage` is unchanged.
- A 200 response whose body is not JSON is not an error. `json_decode`
  returns NULL on malformed input and does not throw, and the `catch`
  (src/AbstractAPILib.php:182) covers only a failure to read the body.
  Decoding is a function parameter `decode`, so a malformed body simply
  yields whatever `decode` returns. Only an unreadable body (`body == None`)
  is an error.
- `CAPAPI`'s constructor and `setHttpClient` accept only a client object, so
  its client is never NULL. `CapApi.Facade.Valid()` states this: the
  constructor establishes it and every method keeps it. `GetHttpClient`
  keeps the lazy branch the source has, but a constructed `CAPAPI` never
  reaches it.

Error results stand for exceptions:

- `UndefinedApi(name)`: `api` was given an unknown name.
- `TransportRaised`: the client's `get` threw. Nothing in the core catches it.
- `InvalidResponse`: `makeRawRequest` returned FALSE.
- `NoBody`: the response body could not be read.

`makeRawRequest`'s FALSE is `Ok(None)`.

## Model

| member | source | states |
|---|---|---|
| `ApiLib.MergeOptions` | src/AbstractAPILib.php:216-219 | with no extra options the instance options are sent unchanged; otherwise the keys are the union, every key of the extra options takes its value from them (a nested `query` replaced whole), and every other key keeps the instance value |
| `ApiLib.ConstructedOptions` | src/AbstractAPILib.php:53-63 | merging given options over the empty defaults yields exactly the given options |
| `ApiLib.Classify` | src/AbstractAPILib.php:228-238 | the response is returned exactly when its status is 200; every other status gives FALSE |
| `ApiLib.Decoded` | src/AbstractAPILib.php:171-187 | FALSE gives the invalid-response error, an unreadable body gives the no-body error, and otherwise the result is the decoded body, each case exactly |
| `ApiLib.RequestOutcome` | src/AbstractAPILib.php:168-238 | makeRequest on a response fails exactly when the status is not 200 or the body is unreadable; a non-200 status is the invalid-response error; a 200 with a readable body yields the decoded body |
| `ApiLib.Lib.constructor` | src/AbstractAPILib.php:29-63 | a new library has the given client and kind, the default endpoint, no last response, the given options exactly when an array is given, and empty options for NULL |
| `ApiLib.Lib.SetClient` | src/AbstractAPILib.php:71-83 | getClient returns the client just set |
| `ApiLib.Lib.SetEndpoint` | src/AbstractAPILib.php:91-103 | getEndpoint returns the endpoint just set |
| `ApiLib.Lib.SetOptions` | src/AbstractAPILib.php:113-125 | getOptions returns the options just set |
| `ApiLib.Lib.MakeRawRequest` | src/AbstractAPILib.php:208-240 | exactly one request is sent, to the given URL, with the merged options and independent of `params`; stored options never change; a throwing client propagates its error and leaves what getLastResponse returns alone; otherwise getLastResponse returns the response, whatever its status, and the result is the response for 200 and FALSE for any other status |
| `ApiLib.Lib.MakeRequest` | src/AbstractAPILib.php:168-188 | the same single request and lastResponse as makeRawRequest; the result is the error when makeRawRequest gave FALSE or the body is unreadable, and the decoded body otherwise |
| `FacadeLogic.ApiToken` | src/CAPAPI.php:157-162 | the token reads as NULL exactly when it is unset or empty, and is otherwise returned unchanged |
| `FacadeLogic.TokenValue` | src/CAPAPI.php:249 | the token stored into the options is PHP NULL exactly for a NULL token, and the token string otherwise |
| `FacadeLogic.ReadQuery` | src/CAPAPI.php:202-205 | reading `query[key]` gives the stored entry when `query` is an array holding `key`, and NULL when any level is missing |
| `FacadeLogic.WriteQuery` | src/CAPAPI.php:190-194 | after writing `query[key]`, reading it gives the value written; `query` gains only `key`, and its other entries are kept; the top-level keys gain only `query`, and the other top-level entries are kept |
| `FacadeLogic.ApiOptions` | src/CAPAPI.php:246-249 | the library's options carry `query.access_token` equal to getApiToken() |
| `FacadeLogic.Dispatch` | src/CAPAPI.php:251-277 | a name selects a library exactly when it is one of org, orgs, profile, profiles, schema, search, layout, layouts |
| `FacadeLogic.DispatchTable` | src/CAPAPI.php:236-277 | each singular/plural pair selects the same library; schema, search and layout select their own; `auth`, though documented, selects none |
| `FacadeLogic.LimitRoundTrip` | src/CAPAPI.php:190-205 | setLimit(n) then getLimit() gives n; every other `query` entry (`p` among them) and every other top-level entry is unchanged |
| `FacadeLogic.PageIsInvisibleToGetPage` | src/CAPAPI.php:213-228 | setPage(n) stores n under `query.p`, yet the `query.ps` entry that getPage reads is unchanged |
| `FacadeLogic.WritesCommute` | src/CAPAPI.php:190-217 | writes of two different `query` entries, such as setLimit and setPage, give the same options in either order |
| `FacadeLogic.WriteOverwrites` | src/CAPAPI.php:190-194 | a second setLimit leaves the options exactly as the last setLimit alone would |
| `FacadeLogic.ApiOptionsKeepOthers` | src/CAPAPI.php:243-249 | the library's options differ from the facade's only in `query.access_token`; other `query` entries and top-level entries are kept |
| `FacadeLogic.PaginationReachesLibrary` | src/CAPAPI.php:190-249 | after setLimit(n) and setPage(m), the options api hands to a library carry `query.ps == n`, `query.p == m` and the access token |
| `CapApi.Facade.constructor` | src/CAPAPI.php:85-89 | the facade holds the injected client and the auth client's token, the default endpoint and NULL options; its client is not NULL (`Valid()`) |
| `CapApi.Facade.SetEndpoint` | src/CAPAPI.php:97-109 | getEndpoint returns the endpoint just set |
| `CapApi.Facade.GetHttpClient` | src/CAPAPI.php:117-129 | a stored client is returned unchanged; with none, a fresh client for the current endpoint is created, stored and returned |
| `CapApi.Facade.SetHttpClient` | src/CAPAPI.php:137-139 | the stored client is the one given, which is never NULL, so `Valid()` holds |
| `CapApi.Facade.SetApiToken` | src/CAPAPI.php:147-149 | the stored token is the one given |
| `CapApi.Facade.GetApiToken` | src/CAPAPI.php:157-162 | NULL exactly when the stored token is unset or empty, the stored token otherwise |
| `CapApi.Facade.SetHttpOptions` | src/CAPAPI.php:170-182 | getHttpOptions returns the array just set |
| `CapApi.Facade.SetLimit` | src/CAPAPI.php:190-205 | the options become the old ones with `query.ps` written; getLimit then returns n, and every other `query` entry reads as before |
| `CapApi.Facade.GetLimit` | src/CAPAPI.php:202-205 | getLimit returns the `query.ps` entry when `query` is an array holding `ps`, and NULL otherwise |
| `CapApi.Facade.SetPage` | src/CAPAPI.php:213-217 | the options become the old ones with `query.p` written; `query.p` reads n, and getPage returns what it returned before |
| `CapApi.Facade.GetPage` | src/CAPAPI.php:225-228 | getPage always returns what getLimit returns |
| `CapApi.Facade.Api` | src/CAPAPI.php:243-281 | the client is fetched (memoised) first; an unknown name is exactly the error naming it; otherwise a fresh library of the selected kind gets the facade's client and endpoint, the options with the access token injected, and no last response; the facade's options, endpoint and token are unchanged |
| `CapApi.OptionsAreSnapshot` | src/CAPAPI.php:243-281 | changing the facade's options after api leaves the library's options as they were when it was built |
| `CapApi.InjectedClientIsUsed` | src/CAPAPI.php:85-122 | after construction the stored token is the auth client's, and getHttpClient returns the injected client without creating one |
| `HttpClient.Facade.constructor` | src/HTTPClient.php:54-58 | the facade holds the given (possibly NULL) client and the auth client's token, the default endpoint and NULL options |
| `HttpClient.Facade.SetEndpoint` | src/HTTPClient.php:66-78 | getEndpoint returns the endpoint just set |
| `HttpClient.Facade.GetHttpClient` | src/HTTPClient.php:86-98 | a stored client is returned unchanged; with NULL, a fresh client for the current endpoint is created, stored and returned |
| `HttpClient.Facade.SetHttpClient` | src/HTTPClient.php:106-108 | the stored client is the one given, NULL included |
| `HttpClient.Facade.SetApiToken` | src/HTTPClient.php:116-118 | the stored token is the one given |
| `HttpClient.Facade.GetApiToken` | src/HTTPClient.php:126-131 | NULL exactly when the stored token is unset or empty, the stored token otherwise |
| `HttpClient.Facade.SetHttpOptions` | src/HTTPClient.php:139-151 | getHttpOptions returns what was just set, NULL included |
| `HttpClient.Facade.SetLimit` | src/HTTPClient.php:157-170 | the options become the old ones with `query.ps` written; getLimit then returns n, and every other `query` entry reads as before |
| `HttpClient.Facade.GetLimit` | src/HTTPClient.php:167-170 | getLimit returns the `query.ps` entry when `query` is an array holding `ps`, and NULL otherwise |
| `HttpClient.Facade.SetPage` | src/HTTPClient.php:176-180 | the options become the old ones with `query.p` written; `query.p` reads n, and getPage returns what it returned before |
| `HttpClient.Facade.GetPage` | src/HTTPClient.php:186-189 | getPage always returns what getLimit returns |
| `HttpClient.Facade.Api` | src/HTTPClient.php:208-246 | accepts exactly the eight names, and any other name is the error naming it; a fresh library of the selected kind gets the memoised client, the facade's endpoint and a copy of the options with the access token injected; the facade's options are unchanged |
| `HttpClient.ClientIsMemoised` | src/HTTPClient.php:86-108 | with no client stored, the first getHttpClient creates one and the second returns the same object; setHttpClient then replaces it |

## Left out

- Guzzle itself: `get`, `getStatusCode`, `getBody()->getContents()` and
  `new Client(...)` are library calls. They are modelled by the `Transport`
  client, which logs requests. What the network does (a response or a thrown
  exception) is the `reply` parameter of each request.
- JSON decoding (`json_decode`) is a foreign call. It is the `decode`
  parameter, and as in PHP it never fails.
- The auth client: only the token its `getAuthApiToken()` returns is
  modelled. The facades' `authClient` field is stored by the source but never
  read again, so the model does not keep it.
- The resource subclasses (OrgLib, ProfileLib, SchemaLib, SearchLib,
  LayoutsLib) are not part of this model. A library carries only a
  `ResourceKind` tag.
- `array_merge` renumbers integer keys. Only string keys are modelled.
- A `query` entry that exists but is not an array: PHP reads NULL from it,
  or errors, and writing into it errors or auto-vivifies depending on its
  type. The model reads NULL and replaces it by a fresh array on write.
  Writing into NULL options or a missing `query` creates the array, as PHP
  does.
- PHP's `empty()` also treats the string `"0"` as empty. Only the empty
  string is modelled as an empty token.
- Loose comparison of the status against `'200'`. The status is an integer
  compared with 200.
- Which class the unqualified `Exception` resolves to inside the namespace is
  not modelled. It is the `UndefinedApi` error.
- Untyped parameters of `HTTPClient` (client, options) could receive values
  of any type. Only NULL is modelled beyond the documented types.
- PHP arrays are ordered; the model's maps are not, so the order of option
  keys and of query parameters is not modelled.
- Loading and parsing of the PHP files is not modelled. This includes
  `HTTPClient.php` placing its `use` lines before `namespace`, which PHP
  rejects.
