/**
 * The HTTP client of the frontend (services/api.js): the bearer header, the call wrapper
 * that turns a non-ok reply into an error, and the login/register normalisation.
 * A reply of the server is an input; nothing here assumes what the server sends.
 */
module Api {
  import opened Js
  import opened Storage
  import opened Entities

  /** The JSON object of a reply; every field is None when the reply lacks it. */
  datatype Payload = Payload(
    success: Option<bool>,
    message: Opt,
    token: Opt,
    user: Option<User>,
    users: Option<seq<User>>,
    document: Option<Doc>,
    documents: Option<seq<Doc>>)

  /**
   * What `fetch` followed by `response.json()` produced: a rejection (network failure or a
   * body that is not JSON) with its error message, or a response with its `ok` flag and body.
   */
  datatype HttpReply = TransportError(reason: string) | Http(ok: bool, data: Payload)

  /** The outcome of an awaited call: its value, or the message of the Error it threw. */
  datatype Result<T> = Success(value: T) | Failure(message: string)

  /** The requests of the documents API, recorded by the dashboard in the order it sends them. */
  datatype Request =
    | GetDocuments
    | GetDocument(id: Opt)
    | CreateDocument(title: string, content: string)
    | UpdateDocument(id: Opt, title: string, content: string)
    | DeleteDocument(id: Opt)
    | RestoreRevision(docId: Opt, revId: Opt)

  const RequestFailed := "API request failed"

  /** The keys the client writes. */
  const TokenKey := "token"
  const UserKey := "user"

  type Headers = map<string, string>

  /** `apiCall`'s result: the body of an ok reply, otherwise an error with the server's message or a fallback. */
  function ApiCall(reply: HttpReply): (r: Result<Payload>)
    ensures r.Success? <==> reply.Http? && reply.ok
    ensures r.Success? ==> r.value == reply.data
    ensures reply.TransportError? ==> r == Failure(reply.reason)
    ensures reply.Http? && !reply.ok && Truthy(reply.data.message) ==> r == Failure(reply.data.message.value)
    ensures reply.Http? && !reply.ok && !Truthy(reply.data.message) ==> r == Failure(RequestFailed)
  {
    match reply
    case TransportError(reason) => Failure(reason)
    case Http(ok, data) => if ok then Success(data) else Failure(OrElse(data.message, RequestFailed))
  }

  /** `getAuthHeader()`: a bearer header exactly when a truthy token is stored. */
  function AuthHeader(items: map<string, string>): (h: Headers)
    ensures h.Keys <= {"Authorization"}
    ensures "Authorization" in h <==> Truthy(Get(items, TokenKey))
    ensures "Authorization" in h ==> h["Authorization"] == "Bearer " + items[TokenKey]
  {
    var token := Get(items, TokenKey);
    if Truthy(token) then map["Authorization" := "Bearer " + token.value] else map[]
  }

  /** The merged object `{ 'Content-Type': 'application/json', ...getAuthHeader(), ...options.headers }`. */
  function MergedHeaders(items: map<string, string>, callerHeaders: Option<Headers>): (h: Headers)
    ensures h.Keys == {"Content-Type"} + AuthHeader(items).Keys + callerHeaders.GetOr(map[]).Keys
    ensures callerHeaders.Some? ==> forall k :: k in callerHeaders.value ==> h[k] == callerHeaders.value[k]
    ensures forall k :: k in AuthHeader(items) && k !in callerHeaders.GetOr(map[]) ==> h[k] == AuthHeader(items)[k]
    ensures "Content-Type" !in callerHeaders.GetOr(map[]) ==> h["Content-Type"] == "application/json"
  {
    map["Content-Type" := "application/json"] + AuthHeader(items) + callerHeaders.GetOr(map[])
  }

  /**
   * The headers `fetch` receives from `{ headers, ...options }`: because `options` is spread last,
   * a caller's `options.headers` replaces the merged object instead of extending it.
   */
  function SentHeaders(items: map<string, string>, callerHeaders: Option<Headers>): (h: Headers)
    ensures callerHeaders.Some? ==> h == callerHeaders.value
    ensures callerHeaders.None? ==> h == MergedHeaders(items, None)
  {
    match callerHeaders
    case Some(given) => given
    case None => MergedHeaders(items, None)
  }

  /**
   * Every call in the client passes no `options.headers`, so each request carries the JSON
   * content type and, exactly when a truthy token is stored, the bearer token.
   */
  lemma OwnCallsHeaders(items: map<string, string>)
    ensures SentHeaders(items, None)["Content-Type"] == "application/json"
    ensures "Authorization" in SentHeaders(items, None) <==> Truthy(Get(items, TokenKey))
    ensures Truthy(Get(items, TokenKey)) ==> SentHeaders(items, None)["Authorization"] == "Bearer " + items[TokenKey]
    ensures SentHeaders(items, None).Keys <= {"Content-Type", "Authorization"}
  {
  }

  /**
   * The reply object of `authAPI.login` and `authAPI.register`: the body with `success` added.
   * `success` is "has a user or a truthy token", unless the body carries its own `success`,
   * which wins because `...data` is spread last.
   */
  function NormalizeAuth(data: Payload): (r: Payload)
    ensures r.success.Some?
    ensures r == data.(success := r.success)
    ensures data.success.Some? ==> r.success == data.success
    ensures data.success.None? ==> (r.success.value <==> data.user.Some? || Truthy(data.token))
  {
    data.(success := if data.success.Some? then data.success else Some(data.user.Some? || Truthy(data.token)))
  }

  /** The storage after a login or register reply: the token is written exactly when it is truthy. */
  function StoreToken(items: map<string, string>, data: Payload): (r: map<string, string>)
    ensures Truthy(data.token) ==> r == items[TokenKey := data.token.value]
    ensures !Truthy(data.token) ==> r == items
  {
    if Truthy(data.token) then items[TokenKey := data.token.value] else items
  }

  /** `authAPI.isAuthenticated()`. */
  predicate IsAuthenticated(items: map<string, string>) {
    Truthy(Get(items, TokenKey))
  }

  /**
   * A stored token makes the client authenticated and is sent as the bearer header;
   * after `authAPI.logout` neither holds, and nothing but the token key changed.
   */
  lemma TokenLifecycle(items: map<string, string>, data: Payload)
    requires Truthy(data.token)
    ensures IsAuthenticated(StoreToken(items, data))
    ensures AuthHeader(StoreToken(items, data)) == map["Authorization" := "Bearer " + data.token.value]
    ensures !IsAuthenticated(StoreToken(items, data) - {TokenKey})
    ensures AuthHeader(StoreToken(items, data) - {TokenKey}) == map[]
    ensures forall k :: k in items && k != TokenKey ==>
              k in StoreToken(items, data) - {TokenKey} && (StoreToken(items, data) - {TokenKey})[k] == items[k]
  {
  }

  /**
   * `authAPI.login` / `authAPI.register` (the two share their code): call, persist a truthy
   * token before the caller sees the result, and return the normalised reply.
   */
  method Authenticate(store: Store, reply: HttpReply) returns (r: Result<Payload>)
    modifies store
    ensures ApiCall(reply).Failure? ==> r == ApiCall(reply) && store.items == old(store.items)
    ensures ApiCall(reply).Success? ==>
              r == Success(NormalizeAuth(ApiCall(reply).value))
              && store.items == StoreToken(old(store.items), ApiCall(reply).value)
  {
    var call := ApiCall(reply);
    match call
    case Failure(message) =>
      r := Failure(message);
    case Success(data) =>
      if Truthy(data.token) {
        store.SetItem(TokenKey, data.token.value);
      }
      r := Success(NormalizeAuth(data));
  }

  /** `authAPI.logout()`: removes the token and nothing else. */
  method Logout(store: Store)
    modifies store
    ensures store.items == old(store.items) - {TokenKey}
    ensures !IsAuthenticated(store.items)
  {
    store.RemoveItem(TokenKey);
  }
}
