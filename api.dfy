/** The API client: a mutable bearer token, header and URL rules, status-to-error mapping and response unwrapping. */
module Api {
  import opened Wrappers
  import opened Text
  import Types

  type Headers = map<string, string>

  /** What `fetch` resolved to: the status, the body as text (`''` when reading it failed) and the body parsed as JSON. */
  datatype FetchResponse<T> = FetchResponse(status: int, text: string, json: Result<T, string>)

  /** The network: the response for a URL and headers, or `Failure` when `fetch` itself throws. */
  type Fetch<T> = (string, Headers) -> Result<FetchResponse<T>, string>

  const ContentType: string := "Content-Type"
  const Authorization: string := "Authorization"
  const JsonMime: string := "application/json"

  /** `response.ok` */
  predicate IsOkStatus(status: int) {
    200 <= status <= 299
  }

  /** The message of the error thrown for a response that is not ok. */
  function ErrorMessage(status: int, text: string): (m: string)
    ensures m != ""
    ensures status == 401 ==> m == "Authentication required"
    ensures status == 403 ==> m == "Access denied"
    ensures status == 404 ==> m == "Not found"
    ensures status !in {401, 403, 404} && text != "" ==> m == text
    ensures status !in {401, 403, 404} && text == "" ==> m == "Request failed: " + IntToString(status)
  {
    if status == 401 then "Authentication required"
    else if status == 403 then "Access denied"
    else if status == 404 then "Not found"
    else if text != "" then text
    else "Request failed: " + IntToString(status)
  }

  /** How `request` turns what `fetch` gave into its result. */
  function Interpret<T>(outcome: Result<FetchResponse<T>, string>): (r: Result<T, string>)
    ensures outcome.Failure? ==> r == Failure(outcome.error)
    ensures outcome.Success? && !IsOkStatus(outcome.value.status) ==>
      r == Failure(ErrorMessage(outcome.value.status, outcome.value.text))
    ensures outcome.Success? && IsOkStatus(outcome.value.status) ==> r == outcome.value.json
  {
    match outcome
    case Failure(e) => Failure(e)
    case Success(resp) =>
      if !IsOkStatus(resp.status) then Failure(ErrorMessage(resp.status, resp.text)) else resp.json
  }

  /** The body of `GET /api/v1/memes`: a bare array or an object with an optional `data` array. */
  datatype MemesBody = BareList(items: seq<Types.Meme>) | Wrapped(data: Option<seq<Types.Meme>>)

  /** `Array.isArray(data) ? data : (data.data || [])` */
  function UnwrapMemes(body: MemesBody): (r: seq<Types.Meme>)
    ensures body.BareList? ==> r == body.items
    ensures body.Wrapped? && body.data.Some? ==> r == body.data.value
    ensures body.Wrapped? && body.data.None? ==> r == []
  {
    match body
    case BareList(items) => items
    case Wrapped(data) => data.GetOr([])
  }

  /** A body `{ <field>: T[] }` whose field may be missing. */
  datatype ListWrapper<T> = ListWrapper(items: Option<seq<T>>)

  /** `data.<field> || []` */
  function UnwrapList<T>(body: ListWrapper<T>): (r: seq<T>)
    ensures body.items.None? ==> r == []
    ensures body.items.Some? ==> r == body.items.value
  {
    body.items.GetOr([])
  }

  function MemesResult(r: Result<MemesBody, string>): Result<seq<Types.Meme>, string> {
    match r
    case Success(body) => Success(UnwrapMemes(body))
    case Failure(e) => Failure(e)
  }

  function ListResult<T>(r: Result<ListWrapper<T>, string>): Result<seq<T>, string> {
    match r
    case Success(body) => Success(UnwrapList(body))
    case Failure(e) => Failure(e)
  }

  /** The optional filters of `getPayments`. */
  datatype PaymentFilters = PaymentFilters(status: Option<string>, limit: Option<int>)

  const PaymentsPath: string := "/api/v1/admin/payments"

  predicate HasStatus(filters: Option<PaymentFilters>) {
    filters.Some? && Truthy(filters.value.status)
  }

  predicate HasLimit(filters: Option<PaymentFilters>) {
    filters.Some? && filters.value.limit.Some? && filters.value.limit.value != 0
  }

  /** The payments endpoint as the filters determine it: `status` when non-empty, then `limit` when
      non-zero, and no `?` at all when neither is given. */
  function PaymentsEndpointFor(filters: Option<PaymentFilters>): (e: string)
    ensures StartsWith(e, PaymentsPath)
    ensures !HasStatus(filters) && !HasLimit(filters) ==> e == PaymentsPath
    ensures HasStatus(filters) && !HasLimit(filters) ==>
      e == PaymentsPath + "?" + Param("status", filters.value.status.value)
    ensures !HasStatus(filters) && HasLimit(filters) ==>
      e == PaymentsPath + "?" + Param("limit", IntToString(filters.value.limit.value))
    ensures HasStatus(filters) && HasLimit(filters) ==>
      e == PaymentsPath + "?" + Param("status", filters.value.status.value)
           + "&" + Param("limit", IntToString(filters.value.limit.value))
  {
    var params := PaymentsParams(filters);
    if |params| == 2 then
      SerializeTwo(params[0], params[1]);
      assert params == [params[0], params[1]];
      PaymentsPath + "?" + Serialize(params)
    else if params != [] then PaymentsPath + "?" + Serialize(params)
    else PaymentsPath
  }

  /** The query parameters `getPayments` sets, in the order it sets them. */
  function PaymentsParams(filters: Option<PaymentFilters>): seq<(string, string)> {
    (if HasStatus(filters) then [("status", filters.value.status.value)] else [])
    + (if HasLimit(filters) then [("limit", IntToString(filters.value.limit.value))] else [])
  }

  /** One `key=value` pair of a query string. */
  function Param(key: string, value: string): string {
    key + "=" + value
  }

  /** `URLSearchParams.toString()` without percent-encoding. */
  function Serialize(params: seq<(string, string)>): (q: string)
    ensures params != [] ==> q != ""
  {
    if params == [] then ""
    else if |params| == 1 then Param(params[0].0, params[0].1)
    else Param(params[0].0, params[0].1) + "&" + Serialize(params[1..])
  }

  lemma SerializeTwo(a: (string, string), b: (string, string))
    ensures Serialize([a, b]) == Param(a.0, a.1) + "&" + Param(b.0, b.1)
  {
  }

  class ApiClient {
    var baseUrl: string
    var token: Option<string>

    /** `baseUrl` is `NEXT_PUBLIC_API_URL || ''`; no token is held at first. */
    constructor(apiUrl: Option<string>)
      ensures baseUrl == (if apiUrl.Some? then apiUrl.value else "")
      ensures token == None
    {
      baseUrl := if apiUrl.Some? then apiUrl.value else "";
      token := None;
    }

    /** `setToken(token)` */
    method SetToken(t: Option<string>)
      modifies this`token
      ensures token == t
    {
      token := t;
    }

    /** `getToken()`: the last value given to `setToken`. */
    method GetToken() returns (t: Option<string>)
      ensures t == token
    {
      t := token;
    }

    /** `this.token` is truthy. */
    predicate HasToken()
      reads this
    {
      Truthy(token)
    }

    /** The headers `request` sends: JSON content type unless the caller overrides it, the caller's own
        headers, and the bearer token whenever one is held, which replaces any caller `Authorization`. */
    function RequestHeaders(caller: Headers): (h: Headers)
      reads this
      ensures ContentType in h
      ensures h[ContentType] == if ContentType in caller then caller[ContentType] else JsonMime
      ensures HasToken() ==> Authorization in h && h[Authorization] == "Bearer " + token.value
      ensures !HasToken() ==> (Authorization in h <==> Authorization in caller)
      ensures !HasToken() && Authorization in caller ==> h[Authorization] == caller[Authorization]
      ensures forall k :: k != Authorization && k != ContentType ==>
        (k in h <==> k in caller) && (k in caller ==> h[k] == caller[k])
    {
      var base := map[ContentType := JsonMime] + caller;
      if HasToken() then base[Authorization := "Bearer " + token.value] else base
    }

    /** Builds the headers record and adds the token to it in place. */
    method BuildHeaders(caller: Headers) returns (headers: Headers)
      ensures headers == RequestHeaders(caller)
    {
      headers := map[ContentType := JsonMime] + caller;
      if token.Some? && token.value != "" {
        headers := headers[Authorization := "Bearer " + token.value];
      }
    }

    /** `request(endpoint, options)`: fetch `baseUrl + endpoint` with the request headers and interpret the answer. */
    method Request<T>(endpoint: string, caller: Headers, fetch: Fetch<T>) returns (r: Result<T, string>)
      ensures r == Interpret(fetch(baseUrl + endpoint, RequestHeaders(caller)))
    {
      var headers := BuildHeaders(caller);
      var url := baseUrl + endpoint;
      var response := fetch(url, headers);
      if response.Failure? {
        return Failure(response.error);
      }
      if !IsOkStatus(response.value.status) {
        return Failure(ErrorMessage(response.value.status, response.value.text));
      }
      r := response.value.json;
    }

    /** `getMemes()` */
    method GetMemes(fetch: Fetch<MemesBody>) returns (r: Result<seq<Types.Meme>, string>)
      ensures r == MemesResult(Interpret(fetch(baseUrl + "/api/v1/memes", RequestHeaders(map[]))))
    {
      var data := Request("/api/v1/memes", map[], fetch);
      r := MemesResult(data);
    }

    /** `getPendingListings()` */
    method GetPendingListings<L>(fetch: Fetch<ListWrapper<L>>) returns (r: Result<seq<L>, string>)
      ensures r == ListResult(Interpret(fetch(baseUrl + "/api/v1/admin/listings/pending", RequestHeaders(map[]))))
    {
      var data := Request("/api/v1/admin/listings/pending", map[], fetch);
      r := ListResult(data);
    }

    /** The endpoint `getPayments` requests, its query built one parameter at a time. */
    method PaymentsEndpoint(filters: Option<PaymentFilters>) returns (endpoint: string)
      ensures endpoint == PaymentsEndpointFor(filters)
    {
      var params: seq<(string, string)> := [];
      if filters.Some? && Truthy(filters.value.status) {
        params := params + [("status", filters.value.status.value)];
      }
      if filters.Some? && filters.value.limit.Some? && filters.value.limit.value != 0 {
        params := params + [("limit", IntToString(filters.value.limit.value))];
      }
      var serialized := Serialize(params);
      var query := if serialized != "" then "?" + serialized else "";
      endpoint := PaymentsPath + query;
      if |params| == 2 {
        SerializeTwo(params[0], params[1]);
        assert params == [params[0], params[1]];
      }
    }

    /** `getPayments(filters)` */
    method GetPayments<P>(filters: Option<PaymentFilters>, fetch: Fetch<ListWrapper<P>>) returns (r: Result<seq<P>, string>)
      ensures r == ListResult(Interpret(fetch(baseUrl + PaymentsEndpointFor(filters), RequestHeaders(map[]))))
    {
      var endpoint := PaymentsEndpoint(filters);
      var data := Request(endpoint, map[], fetch);
      r := ListResult(data);
    }

    /** `getActiveBoosts()` */
    method GetActiveBoosts<B>(fetch: Fetch<ListWrapper<B>>) returns (r: Result<seq<B>, string>)
      ensures r == ListResult(Interpret(fetch(baseUrl + "/api/v1/admin/ad-boosts/active", RequestHeaders(map[]))))
    {
      var data := Request("/api/v1/admin/ad-boosts/active", map[], fetch);
      r := ListResult(data);
    }
  }

  /** A held token always travels with the request; without one, the caller's own `Authorization` header is sent as given. */
  lemma TokenDecidesAuthorization(client: ApiClient, caller: Headers)
    ensures client.HasToken() ==> client.RequestHeaders(caller)[Authorization] == "Bearer " + client.token.value
    ensures !client.HasToken() && Authorization !in caller ==> Authorization !in client.RequestHeaders(caller)
  {
  }

  /** A wrapped list endpoint whose field is missing yields an empty list, not an error. */
  lemma MissingFieldIsEmpty<T>(status: int, text: string, body: ListWrapper<T>)
    requires IsOkStatus(status) && body.items.None?
    ensures ListResult(Interpret(Success(FetchResponse(status, text, Success(body))))) == Success([])
  {
  }
}
