/**
 * The API client (app/composables/useApi.ts): the token slot in browser
 * storage, the request it builds, and how a failed response becomes an error.
 * The network call itself is not modelled: a response is an input.
 */
module Api {
  import opened Wrappers
  import Decimal

  const DefaultBaseUrl := "http://localhost:5000/api"

  /** `config.public.apiBase || "http://localhost:5000/api"`. */
  function BaseUrl(apiBase: string): (url: string)
    ensures url != ""
    ensures apiBase != "" ==> url == apiBase
    ensures apiBase == "" ==> url == DefaultBaseUrl
  {
    if apiBase != "" then apiBase else DefaultBaseUrl
  }

  /** JavaScript truthiness of a token read from storage: present and non-empty. */
  predicate Truthy(token: Option<string>) {
    token.Some? && token.value != ""
  }

  // ---------------------------------------------------------------------
  // Token slot: localStorage "auth_token", which exists only on the client

  /** What `getToken()` returns for a given storage content: the entry on the client, nothing off it. */
  function ReadToken(isClient: bool, stored: Option<string>): (token: Option<string>)
    ensures token.Some? ==> isClient && token == stored
    ensures isClient ==> token == stored
  {
    if isClient then stored else None
  }

  /** Storage content after `setToken(token)`: the token on the client, untouched off it. */
  function StoreToken(isClient: bool, stored: Option<string>, token: string): (after: Option<string>)
    ensures isClient ==> after == Some(token)
    ensures !isClient ==> after == stored
  {
    if isClient then Some(token) else stored
  }

  /** Storage content after `removeToken()`: empty on the client, untouched off it. */
  function DropToken(isClient: bool, stored: Option<string>): (after: Option<string>)
    ensures isClient ==> after == None
    ensures !isClient ==> after == stored
  {
    if isClient then None else stored
  }

  /** On the client, the token read after `setToken(t)` is `t`. */
  lemma ReadAfterStore(isClient: bool, stored: Option<string>, token: string)
    ensures ReadToken(isClient, StoreToken(isClient, stored, token)) == if isClient then Some(token) else None
  {
  }

  /** After `removeToken()` no token is read, on the client or off it. */
  lemma ReadAfterDrop(isClient: bool, stored: Option<string>)
    ensures ReadToken(isClient, DropToken(isClient, stored)) == None
  {
  }

  /** Off the client nothing is read and neither writer changes anything. */
  lemma OffClientInert(stored: Option<string>, token: string)
    ensures ReadToken(false, stored) == None
    ensures StoreToken(false, stored, token) == stored && DropToken(false, stored) == stored
  {
  }

  class TokenStore {
    /** `import.meta.client`: whether the code runs in the browser. */
    const isClient: bool
    /** The browser's localStorage entry "auth_token". */
    var stored: Option<string>

    constructor(isClient: bool, stored: Option<string>)
      ensures this.isClient == isClient && this.stored == stored
    {
      this.isClient := isClient;
      this.stored := stored;
    }

    method GetToken() returns (token: Option<string>)
      ensures token == ReadToken(isClient, stored)
      ensures !isClient ==> token == None
    {
      if isClient {
        token := stored;
      } else {
        token := None;
      }
    }

    method SetToken(token: string)
      modifies this
      ensures stored == StoreToken(isClient, old(stored), token)
    {
      if isClient {
        stored := Some(token);
      }
    }

    method RemoveToken()
      modifies this
      ensures stored == DropToken(isClient, old(stored))
    {
      if isClient {
        stored := None;
      }
    }
  }

  /** On the client a token written is read back; after removal none is. */
  method StoreRoundTrip(store: TokenStore, token: string) returns (afterSet: Option<string>, afterRemove: Option<string>)
    modifies store
    ensures store.isClient ==> afterSet == Some(token)
    ensures afterRemove == None
  {
    store.SetToken(token);
    afterSet := store.GetToken();
    store.RemoveToken();
    afterRemove := store.GetToken();
  }

  // ---------------------------------------------------------------------
  // Request construction

  /**
   * `{ "Content-Type": "application/json", ...callerHeaders }`, then
   * `Authorization: Bearer <token>` when the token is truthy. Header names are
   * compared exactly, as object keys are.
   */
  function Headers(callerHeaders: map<string, string>, token: Option<string>): (h: map<string, string>)
    ensures h.Keys == {"Content-Type"} + callerHeaders.Keys + (if Truthy(token) then {"Authorization"} else {})
    ensures h["Content-Type"] == if "Content-Type" in callerHeaders then callerHeaders["Content-Type"] else "application/json"
    ensures Truthy(token) ==> h["Authorization"] == "Bearer " + token.value
    ensures forall k :: k in callerHeaders && k != "Content-Type" && !(k == "Authorization" && Truthy(token)) ==> h[k] == callerHeaders[k]
  {
    var merged := map["Content-Type" := "application/json"] + callerHeaders;
    if Truthy(token) then merged["Authorization" := "Bearer " + token.value] else merged
  }

  /** An Authorization header is sent exactly when there is a truthy token or the caller supplied one. */
  lemma AuthorizationSentIff(callerHeaders: map<string, string>, token: Option<string>)
    ensures "Authorization" in Headers(callerHeaders, token) <==> Truthy(token) || "Authorization" in callerHeaders
    ensures !Truthy(token) && "Authorization" in callerHeaders ==> Headers(callerHeaders, token)["Authorization"] == callerHeaders["Authorization"]
  {
  }

  datatype RequestOptions = RequestOptions(httpMethod: Option<string>, body: Option<string>, headers: map<string, string>)

  datatype Request = Request(url: string, httpMethod: Option<string>, body: Option<string>, headers: map<string, string>)

  /** `fetch(baseURL + endpoint, { ...options, headers })`. */
  function BuildRequest(baseUrl: string, endpoint: string, options: RequestOptions, token: Option<string>): (r: Request)
    ensures |r.url| == |baseUrl| + |endpoint| && r.url[..|baseUrl|] == baseUrl && r.url[|baseUrl|..] == endpoint
    ensures r.httpMethod == options.httpMethod && r.body == options.body
    ensures r.headers == Headers(options.headers, token)
  {
    Request(baseUrl + endpoint, options.httpMethod, options.body, Headers(options.headers, token))
  }

  // ---------------------------------------------------------------------
  // Responses and errors

  /** The body of a non-ok response: not JSON at all, or JSON with an optional `message`. */
  datatype ErrorBody = Unparseable | ErrorJson(message: Option<string>)

  /** A response: `ok` (status 2xx) with its parsed JSON, or not ok. */
  datatype HttpResponse<T> = OkResponse(data: T) | ErrorResponse(status: nat, body: ErrorBody)

  /** How an awaited call ended: a value, a thrown `Error` with its message, or some other thrown value. */
  datatype Outcome<T> = Returned(value: T) | ThrewError(message: string) | ThrewNonError

  const StatusPrefix := "HTTP error! status: "

  /** The message of the `Error` thrown for a non-ok response. */
  function ErrorMessage(status: nat, body: ErrorBody): (m: string)
    ensures m != ""
    ensures body.Unparseable? ==> m == "An error occurred"
    ensures body.ErrorJson? && Truthy(body.message) ==> m == body.message.value
    ensures body.ErrorJson? && !Truthy(body.message) ==> m == StatusPrefix + Decimal.NatToString(status)
  {
    match body
    case Unparseable => "An error occurred"
    case ErrorJson(message) => if Truthy(message) then message.value else StatusPrefix + Decimal.NatToString(status)
  }

  /** When the server gives no message, the status code can be read back from the error message. */
  lemma StatusRecoverable(status: nat, body: ErrorBody)
    requires body.ErrorJson? && !Truthy(body.message)
    ensures var m := ErrorMessage(status, body);
      && m[..|StatusPrefix|] == StatusPrefix
      && Decimal.AllDigits(m[|StatusPrefix|..])
      && Decimal.DigitsValue(m[|StatusPrefix|..]) == status
  {
    var m := ErrorMessage(status, body);
    assert m[|StatusPrefix|..] == Decimal.NatToString(status);
    Decimal.DigitsValueOfNatToString(status);
  }

  /** What `apiFetch` yields for a response: its JSON when ok, otherwise a thrown `Error`. */
  function FetchOutcome<T>(response: HttpResponse<T>): (o: Outcome<T>)
    ensures response.OkResponse? ==> o == Returned(response.data)
    ensures response.ErrorResponse? ==> o == ThrewError(ErrorMessage(response.status, response.body))
    ensures !o.ThrewNonError? && (o.ThrewError? ==> o.message != "")
  {
    match response
    case OkResponse(data) => Returned(data)
    case ErrorResponse(status, body) => ThrewError(ErrorMessage(status, body))
  }
}
