/**
 * The storefront's API helpers: the base URL, URL building, the endpoint
 * builders that take an id, the authorisation header, the request
 * configuration, and the response and error handlers. The stored token is a
 * parameter ("" when none is stored); the environment's base URL is a
 * parameter ("" when unset).
 */
module Api {
  import opened Wrappers
  import opened Strings

  const DefaultBase := "http://localhost:8000/api"

  /** `REACT_APP_API_URL || default`. */
  function ApiBase(env: string): (r: string)
    ensures env != "" ==> r == env
    ensures env == "" ==> r == DefaultBase
    ensures r != ""
  {
    if env != "" then env else DefaultBase
  }

  /** The endpoint with exactly the leading "/" that `buildApiUrl` inserts when it is missing. */
  function Rooted(endpoint: string): string {
    if StartsWith(endpoint, "/") then endpoint else "/" + endpoint
  }

  function BuildApiUrl(base: string, endpoint: string): (r: string)
    ensures StartsWith(r, base)
    ensures |r| > |base| && r[|base|] == '/'
    ensures StartsWith(endpoint, "/") ==> r == base + endpoint
    ensures !StartsWith(endpoint, "/") ==> r == base + "/" + endpoint
  {
    assert (base + Rooted(endpoint))[..|base|] == base;
    base + Rooted(endpoint)
  }

  /** Giving the leading "/" or leaving it out builds the same URL. */
  lemma SlashOptional(base: string, endpoint: string)
    requires !StartsWith(endpoint, "/")
    ensures BuildApiUrl(base, "/" + endpoint) == BuildApiUrl(base, endpoint)
  {
    assert ("/" + endpoint)[..1] == "/";
  }

  /** Two endpoints build the same URL only if they agree once rooted. */
  lemma BuildApiUrlInjective(base: string, e1: string, e2: string)
    requires BuildApiUrl(base, e1) == BuildApiUrl(base, e2)
    ensures Rooted(e1) == Rooted(e2)
  {
    var u := BuildApiUrl(base, e1);
    assert Rooted(e1) == u[|base|..];
    assert Rooted(e2) == u[|base|..];
  }

  /** The empty endpoint builds the base followed by a lone "/". */
  lemma EmptyEndpoint(base: string)
    ensures BuildApiUrl(base, "") == base + "/"
  {
  }

  // The endpoint builders that take an argument.
  function ProductDetail(id: string): string { "/products/" + id }
  function ProductsByCategory(category: string): string { "/products/category/" + category }
  function AddressDetail(id: string): string { "/user/addresses/" + id }
  function OrderDetail(id: string): string { "/orders/" + id }
  function OrderMyDetail(id: string): string { "/orders/my/" + id }
  function OrderStatusUpdate(id: string): string { "/orders/" + id + "/status" }
  function AdminCouponDetail(id: string): string { "/admin/coupons/" + id }

  /** The search endpoint; `encode` stands for `encodeURIComponent`. */
  function ProductSearch(query: string, encode: string -> string): string {
    "/products/search?search=" + encode(query)
  }

  /** Every id-taking builder keeps the id recoverable: it sits at a fixed offset. */
  lemma BuildersKeepId(id: string)
    ensures ProductDetail(id)[|"/products/"|..] == id
    ensures AddressDetail(id)[|"/user/addresses/"|..] == id
    ensures OrderDetail(id)[|"/orders/"|..] == id
    ensures OrderMyDetail(id)[|"/orders/my/"|..] == id
    ensures AdminCouponDetail(id)[|"/admin/coupons/"|..] == id
    ensures OrderStatusUpdate(id)[|"/orders/"|..|"/orders/"| + |id|] == id
    ensures OrderStatusUpdate(id)[|"/orders/"| + |id|..] == "/status"
  {
  }

  /** Different ids give different status-update endpoints. */
  lemma OrderStatusUpdateInjective(id1: string, id2: string)
    requires OrderStatusUpdate(id1) == OrderStatusUpdate(id2)
    ensures id1 == id2
  {
    BuildersKeepId(id1);
    BuildersKeepId(id2);
    assert |id1| == |id2|;
  }

  /** `getAuthHeaders`: a bearer header exactly when a token is stored. */
  function AuthHeaders(token: string): (h: map<string, string>)
    ensures "Authorization" in h <==> token != ""
    ensures token != "" ==> h["Authorization"] == "Bearer " + token
    ensures h.Keys <= {"Authorization"}
  {
    if token != "" then map["Authorization" := "Bearer " + token] else map[]
  }

  datatype Config<D> = Config(url: string, httpMethod: string, headers: map<string, string>, data: Option<D>)

  /** Methods that carry a body. */
  predicate CarriesBody(httpMethod: string) {
    httpMethod == "POST" || httpMethod == "PUT" || httpMethod == "PATCH"
  }

  /**
   * `getApiConfig`. `data` is `None` for a falsy value. The JSON content
   * type is always present, the bearer header exactly when a token is
   * stored, and the body only for a truthy value on a body-carrying method.
   */
  function ApiConfig<D>(base: string, endpoint: string, httpMethod: string, data: Option<D>, token: string): (c: Config<D>)
    ensures c.url == BuildApiUrl(base, endpoint) && c.httpMethod == httpMethod
    ensures "Content-Type" in c.headers && c.headers["Content-Type"] == "application/json"
    ensures "Authorization" in c.headers <==> token != ""
    ensures token != "" ==> c.headers["Authorization"] == "Bearer " + token
    ensures c.headers.Keys <= {"Content-Type", "Authorization"}
    ensures c.data.Some? <==> data.Some? && CarriesBody(httpMethod)
    ensures c.data.Some? ==> c.data == data
  {
    var headers := map["Content-Type" := "application/json"] + AuthHeaders(token);
    Config(BuildApiUrl(base, endpoint), httpMethod, headers, if data.Some? && CarriesBody(httpMethod) then data else None)
  }

  /** A GET never carries a body, whatever is passed. */
  lemma GetHasNoBody<D>(base: string, endpoint: string, data: Option<D>, token: string)
    ensures ApiConfig(base, endpoint, "GET", data, token).data.None?
  {
  }

  /** A response body, with the optional `success` flag. */
  datatype Response<D> = Response(data: Option<D>, success: Option<bool>)

  /** `handleApiResponse`: both branches return the body, so the flag never matters. */
  function HandleApiResponse<D>(response: Response<D>): (r: Option<D>)
    ensures r == response.data
  {
    if response.data.Some? && response.success.Some? then response.data else response.data
  }

  /** The success flag has no effect on what is returned. */
  lemma ResponseIgnoresSuccess<D>(data: Option<D>, s1: Option<bool>, s2: Option<bool>)
    ensures HandleApiResponse(Response(data, s1)) == HandleApiResponse(Response(data, s2))
  {
  }

  /** A failed call: the server's reply (if one came) and the error's own message ("" when absent). */
  datatype CallError<D> = CallError(responseStatus: Option<int>, responseData: Option<D>, serverMessage: string, message: string)

  datatype ErrorInfo<D> = ErrorInfo(message: string, status: Option<int>, fromServer: Option<D>)

  const GenericError := "An error occurred"

  /** `handleApiError`: the server's message, else the error's, else the generic text. */
  function HandleApiError<D>(e: CallError<D>): (r: ErrorInfo<D>)
    ensures r.message != ""
    ensures e.serverMessage != "" ==> r.message == e.serverMessage
    ensures e.serverMessage == "" && e.message != "" ==> r.message == e.message
    ensures e.serverMessage == "" && e.message == "" ==> r.message == GenericError
    ensures r.status == e.responseStatus && r.fromServer == e.responseData
  {
    var message := if e.serverMessage != "" then e.serverMessage else if e.message != "" then e.message else GenericError;
    ErrorInfo(message, e.responseStatus, e.responseData)
  }
}
