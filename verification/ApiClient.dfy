/** The browser client: one shared in-flight rotation, every request retried at most once.

    JavaScript runs a function without interruption up to its next `await`, so each method below
    is one such segment. The class is the module state of the client; `Client` is its value. */
module ApiClient {
  import opened Wrappers
  import opened RefreshTokens

  type PromiseId = nat
  type AccessToken = nat

  /** Where one `apiRequest` or `apiStream` call stands. */
  datatype Phase =
    | AwaitingResponse
    | AwaitingRefresh(promise: PromiseId)
    | Finished(ok: bool)

  /** `mayRefresh` is false on the retry and for calls made with `skipRefresh`. `sends` and `waited`
      remember how often the request was sent and for which rotation it waited. */
  datatype Request = Request(phase: Phase, mayRefresh: bool, sends: nat, waited: Option<PromiseId>)

  /** A message between the browser and `/auth/refresh`, tagged with the promise that sent it. */
  datatype Message =
    | Ask(promise: PromiseId, cookie: RawToken)
    | Reply(promise: PromiseId, setCookie: Option<RawToken>)
    | Body(promise: PromiseId)

  datatype Client = Client(
    cookie: RawToken,
    accessToken: Option<AccessToken>,
    refreshInFlight: Option<PromiseId>,
    settled: map<PromiseId, bool>,
    nextPromise: PromiseId,
    requests: seq<Request>)

  /** `refreshAccessToken()` up to its first await: join the rotation in flight or start one. */
  function Joined(c: Client): (Client, PromiseId, Option<Message>) {
    match c.refreshInFlight
    case Some(p) => (c, p, None)
    case None =>
      var p := c.nextPromise;
      (c.(refreshInFlight := Some(p), nextPromise := p + 1), p, Some(Ask(p, c.cookie)))
  }

  /** The end of the rotation started as promise `p`: on every path the `finally` clears it. */
  function Settled(c: Client, p: PromiseId, token: Option<AccessToken>): Client {
    c.(accessToken := token, refreshInFlight := None, settled := c.settled[p := token.Some?])
  }

  function WithRequest(c: Client, i: nat, r: Request): Client
    requires i < |c.requests|
  {
    c.(requests := c.requests[i := r])
  }

  /** A response to request `i`: retry through a refresh on the first 401, settle otherwise. */
  function Responded(c: Client, i: nat, unauthorized: bool, ok: bool): (Client, Option<Message>)
    requires i < |c.requests|
  {
    var r := c.requests[i];
    if unauthorized && r.mayRefresh then
      var (c', p, ask) := Joined(c);
      (WithRequest(c', i, r.(phase := AwaitingRefresh(p), waited := Some(p))), ask)
    else
      (WithRequest(c, i, r.(phase := Finished(ok && !unauthorized))), None)
  }

  /** Request `i` continues once its promise has settled: one retry, or the original error. */
  function Resumed(c: Client, i: nat, refreshed: bool): Client
    requires i < |c.requests|
  {
    var r := c.requests[i];
    if refreshed then WithRequest(c, i, r.(phase := AwaitingResponse, mayRefresh := false, sends := r.sends + 1))
    else WithRequest(c, i, r.(phase := Finished(false)))
  }

  class ApiClient {
    var cookie: RawToken
    var accessToken: Option<AccessToken>
    var refreshInFlight: Option<PromiseId>
    var settled: map<PromiseId, bool>
    var nextPromise: PromiseId
    var requests: seq<Request>

    constructor (cookie: RawToken, accessToken: Option<AccessToken>)
      ensures View() == Client(cookie, accessToken, None, map[], 0, [])
    {
      this.cookie, this.accessToken := cookie, accessToken;
      refreshInFlight, settled, nextPromise, requests := None, map[], 0, [];
    }

    ghost function View(): Client
      reads this
    {
      Client(cookie, accessToken, refreshInFlight, settled, nextPromise, requests)
    }

    /** `refreshInFlight ??= (async () => ...)()`. */
    method RefreshAccessToken() returns (promise: PromiseId, ask: Option<Message>)
      modifies this
      ensures (View(), promise, ask) == Joined(old(View()))
    {
      ask := None;
      if refreshInFlight.None? {
        refreshInFlight := Some(nextPromise);
        ask := Some(Ask(nextPromise, cookie));
        nextPromise := nextPromise + 1;
      }
      promise := refreshInFlight.value;
    }

    /** The tail of the rotation: store or drop the access token, then the `finally` clause. */
    method FinishRefresh(promise: PromiseId, token: Option<AccessToken>)
      modifies this
      ensures View() == Settled(old(View()), promise, token)
    {
      accessToken := token;
      refreshInFlight := None;
      settled := settled[promise := token.Some?];
    }

    /** `apiRequest` and `apiStream` after their first fetch resolves. */
    method OnResponse(i: nat, unauthorized: bool, ok: bool) returns (ask: Option<Message>)
      requires i < |requests|
      modifies this
      ensures (View(), ask) == Responded(old(View()), i, unauthorized, ok)
    {
      var r := requests[i];
      ask := None;
      if unauthorized && r.mayRefresh {
        var p: PromiseId;
        p, ask := RefreshAccessToken();
        requests := requests[i := r.(phase := AwaitingRefresh(p), waited := Some(p))];
      } else {
        requests := requests[i := r.(phase := Finished(ok && !unauthorized))];
      }
    }

    /** After `await refreshAccessToken()`. */
    method OnRefreshed(i: nat, refreshed: bool)
      requires i < |requests|
      modifies this
      ensures View() == Resumed(old(View()), i, refreshed)
    {
      var r := requests[i];
      if refreshed {
        requests := requests[i := r.(phase := AwaitingResponse, mayRefresh := false, sends := r.sends + 1)];
      } else {
        requests := requests[i := r.(phase := Finished(false))];
      }
    }
  }
}
