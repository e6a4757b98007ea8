/** The API client (api/api.go: Client, Do): it appends the credentials to
    a request's api params, builds the request, and hands it to the
    transport. The HTTP round trip and the JSON decoding are one function
    the caller supplies, `send`, so the model has no I/O. */
module Clients {
  import opened Wrappers
  import opened Strings
  import opened Requests

  /** The application and user keys a client was created with. */
  datatype Client = Client(appKey: string, userKey: string)

  /** The credential params a request gets: `appkey`, then `userkey` when
      the request needs user auth. */
  function AuthParams(userAuth: bool, appKey: string, userKey: string): seq<Param>
  {
    [Param("appkey", appKey)] + (if userAuth then [Param("userkey", userKey)] else [])
  }

  /** The request after authentication: `appkey` is appended to the api
      params, and `userkey` after it when the request needs user auth. */
  function WithAuth(r: Request, appKey: string, userKey: string): (a: Request)
    ensures |a.apiParams| == |r.apiParams| + (if r.userAuth then 2 else 1)
    ensures a.apiParams[..|r.apiParams|] == r.apiParams
    ensures a.apiParams[|r.apiParams|] == Param("appkey", appKey)
    ensures r.userAuth ==> a.apiParams[|r.apiParams| + 1] == Param("userkey", userKey)
    ensures a == r.(apiParams := a.apiParams)
  {
    r.(apiParams := r.apiParams + AuthParams(r.userAuth, appKey, userKey))
  }

  /** Authentication extends the unauthenticated path: after it comes '/'
      when there were no api params and ',' otherwise, then `appkey,<app>`
      and, with user auth, `,userkey,<user>`. */
  lemma AuthPath(r: Request, appKey: string, userKey: string)
    ensures BuildPath(WithAuth(r, appKey, userKey)) ==
      BuildPath(r) + (if |r.apiParams| == 0 then "/" else ",")
      + ApiBlob(AuthParams(r.userAuth, appKey, userKey))
  {
    PathAppendParams(r, AuthParams(r.userAuth, appKey, userKey));
  }

  /** What a call leaves behind: the request as the caller sees it
      afterwards (credentials appended in place), and the call's result. */
  datatype Call<T> = Call(request: Request, result: Result<T, Error>)

  /** `Client.Do`: authenticate, build, and only for a complete request
      call the transport, whose result (a decoded value or an error) is
      passed through unchanged. An incomplete request fails with
      `WrongRequest` whatever the transport would have done. */
  function Do<T>(c: Client, r: Request, send: HttpRequest -> Result<T, Error>): (call: Call<T>)
    ensures call.request == WithAuth(r, c.appKey, c.userKey)
    ensures !Complete(r) ==> call.result == Failure(WrongRequest)
    ensures Complete(r) ==>
      call.result == send(HttpRequest(r.requestMethod, Host, BuildPath(call.request)))
  {
    var authed := WithAuth(r, c.appKey, c.userKey);
    var result :=
      match Build(authed)
      case Failure(e) => Failure(e)
      case Success(req) => send(req);
    Call(authed, result)
  }

  /** End to end: a complete request reaches the transport as its own
      verb and unauthenticated path with the credentials appended, and an
      incomplete one never reaches it. */
  lemma DoSends<T>(c: Client, r: Request, send: HttpRequest -> Result<T, Error>)
    ensures Complete(r) ==>
      Do(c, r, send).result == send(HttpRequest(r.requestMethod, Host,
        BuildPath(r) + (if |r.apiParams| == 0 then "/" else ",")
        + ApiBlob(AuthParams(r.userAuth, c.appKey, c.userKey))))
    ensures !Complete(r) ==> Do(c, r, send).result == Failure(WrongRequest)
  {
    AuthPath(r, c.appKey, c.userKey);
  }
}
