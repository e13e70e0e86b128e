/** What the browser-side token handling shares: `localStorage` with its two keys, the headers
    every authenticated request carries, the callers waiting for a refresh, and
    `refreshToken`, whose text is the same in static/js/supplier/auth/auth.js and
    static/js/admin-dashboard.js. The refresh request itself is an answer handed in: it
    failed to arrive, came back non-ok, or granted tokens. Each step of an asynchronous
    function is one call; a redirect to the login page is a returned flag. */
module TokenStore {
  import opened Common

  const TokenKey := "token"
  const RefreshKey := "refresh_token"

  /** The browser's `localStorage`. */
  class LocalStorage {
    var items: map<string, string>

    constructor (init: map<string, string>)
      ensures items == init
    {
      items := init;
    }

    /** `getItem`: the stored text, or null. */
    function GetItem(key: string): (r: Option<string>)
      reads this
      ensures r.Some? <==> key in items
      ensures r.Some? ==> r.value == items[key]
    {
      if key in items then Some(items[key]) else None
    }

    method SetItem(key: string, value: string)
      modifies this
      ensures items == old(items)[key := value]
    {
      items := items[key := value];
    }

    method RemoveItem(key: string)
      modifies this
      ensures items == old(items) - {key}
    {
      items := items - {key};
    }
  }

  /** JavaScript truthiness of a stored value: null and the empty string are false. */
  predicate Truthy(v: Option<string>)
  {
    v.Some? && v.value != ""
  }

  type Headers = map<string, string>

  /** `{...headers, Authorization: 'Bearer <token>', 'Content-Type': 'application/json'}`. */
  function Authorized(h: Headers, token: string): (r: Headers)
    ensures r.Keys == h.Keys + {"Authorization", "Content-Type"}
    ensures r["Authorization"] == "Bearer " + token && r["Content-Type"] == "application/json"
    ensures forall k :: k in h && k != "Authorization" && k != "Content-Type" ==> r[k] == h[k]
  {
    h["Authorization" := "Bearer " + token]["Content-Type" := "application/json"]
  }

  /** The retried request carries the caller's headers, the JSON type and the new token: the
      same headers the first fetch would have had with the new token stored. */
  lemma RetryCarriesNewToken(h: Headers, oldToken: string, newToken: string)
    ensures Authorized(h, oldToken)["Authorization" := "Bearer " + newToken] == Authorized(h, newToken)
  {
    assert Authorized(h, oldToken)["Authorization" := "Bearer " + newToken].Keys == Authorized(h, newToken).Keys;
  }

  /** A request that re-enters `handleApiRequest` with headers it was already sent with goes
      out with the token stored at that moment. */
  lemma AuthorizedAgain(h: Headers, oldToken: string, newToken: string)
    ensures Authorized(Authorized(h, oldToken), newToken) == Authorized(h, newToken)
  {
    assert Authorized(Authorized(h, oldToken), newToken).Keys == Authorized(h, newToken).Keys;
  }

  /** A request as `fetch(endpoint, options)` sends it. */
  datatype Request = Request(endpoint: string, headers: Headers)

  /** A caller parked in a `failedQueue`: the promise it waits on and the request it re-issues. */
  datatype Waiter = Waiter(request: Request)

  /** How `processQueue` settles one waiter. */
  datatype Settlement = Resolved(waiter: Waiter, token: Option<string>) | Rejected(waiter: Waiter, error: string)

  /** The outcome of one step of `handleApiRequest` for its caller. */
  datatype Step =
    | NoRequest             // no stored token: nothing is sent and the page goes to login
    | Issue(request: Request) // the fetch to send
    | Queued                // the caller now waits in the module's failedQueue
    | AwaitRefresh          // the caller awaits refreshToken()
    | Retry(request: Request) // the single re-send; its response is returned unchecked
    | Deliver               // the response is returned to the caller
    | Fail(message: string) // the caller's promise rejects

  /** `processQueue(error, token)` on a queue: every waiter, in arrival order, is rejected with
      the error when there is one and resolved with the token otherwise. */
  function Settlements(queue: seq<Waiter>, error: Option<string>, token: Option<string>): (r: seq<Settlement>)
    ensures |r| == |queue|
    ensures forall i :: 0 <= i < |queue| ==> r[i].waiter == queue[i]
    ensures forall i :: 0 <= i < |queue| ==> (r[i].Rejected? <==> error.Some?)
    ensures forall i :: 0 <= i < |queue| && error.Some? ==> r[i] == Rejected(queue[i], error.value)
    ensures forall i :: 0 <= i < |queue| && error.None? ==> r[i] == Resolved(queue[i], token)
    decreases |queue|
  {
    if queue == [] then []
    else
      [if error.Some? then Rejected(queue[0], error.value) else Resolved(queue[0], token)]
      + Settlements(queue[1..], error, token)
  }

  /** The `forEach` of `processQueue`. */
  method SettleAll(queue: seq<Waiter>, error: Option<string>, token: Option<string>) returns (log: seq<Settlement>)
    ensures log == Settlements(queue, error, token)
  {
    log := [];
    for i := 0 to |queue|
      invariant log == Settlements(queue[..i], error, token)
    {
      SettlementsAppend(queue[..i], queue[i], error, token);
      assert queue[..i + 1] == queue[..i] + [queue[i]];
      log := log + [if error.Some? then Rejected(queue[i], error.value) else Resolved(queue[i], token)];
    }
    assert queue[..|queue|] == queue;
  }

  /** Settling a longer queue settles the earlier waiters the same way, then the new one. */
  lemma {:induction false} SettlementsAppend(queue: seq<Waiter>, w: Waiter, error: Option<string>, token: Option<string>)
    ensures Settlements(queue + [w], error, token)
            == Settlements(queue, error, token) + [if error.Some? then Rejected(w, error.value) else Resolved(w, token)]
    decreases |queue|
  {
    if queue != [] {
      assert (queue + [w])[1..] == queue[1..] + [w];
      SettlementsAppend(queue[1..], w, error, token);
    }
  }

  /** The answer of the refresh endpoint. */
  datatype RefreshAnswer =
    | Unreachable(message: string)   // fetch or response.json() threw
    | NotOk(status: int)             // response.ok is false
    | Granted(accessToken: string, refreshToken: Option<string>)

  /** What `refreshToken` does to the stored items, and what it returns or throws. */
  function RefreshOutcome(items: map<string, string>, answer: RefreshAnswer): (r: (map<string, string>, Result<string, string>))
    // without a refresh token nothing is sent, and both keys are cleared
    ensures !Truthy(if RefreshKey in items then Some(items[RefreshKey]) else None) ==>
      r == (items - {TokenKey, RefreshKey}, Failure("No refresh token available"))
    // every failure clears both keys
    ensures r.1.Failure? ==> r.0 == items - {TokenKey, RefreshKey}
    // with a refresh token stored, a failed request throws its own message, a refused one a fixed text
    ensures Truthy(if RefreshKey in items then Some(items[RefreshKey]) else None) && answer.NotOk? ==>
      r == (items - {TokenKey, RefreshKey}, Failure("Token refresh failed"))
    ensures Truthy(if RefreshKey in items then Some(items[RefreshKey]) else None) && answer.Unreachable? ==>
      r == (items - {TokenKey, RefreshKey}, Failure(answer.message))
    // a grant stores the access token, and the refresh token only when the answer has a truthy one
    ensures r.1.Success? <==> answer.Granted? && RefreshKey in items && items[RefreshKey] != ""
    ensures r.1.Success? ==> r.1.value == answer.accessToken && TokenKey in r.0 && r.0[TokenKey] == answer.accessToken
    ensures r.1.Success? && Truthy(answer.refreshToken) ==> r.0 == items[TokenKey := answer.accessToken][RefreshKey := answer.refreshToken.value]
    ensures r.1.Success? && !Truthy(answer.refreshToken) ==> r.0 == items[TokenKey := answer.accessToken]
  {
    var cleared := items - {TokenKey, RefreshKey};
    if !Truthy(if RefreshKey in items then Some(items[RefreshKey]) else None) then
      (cleared, Failure("No refresh token available"))
    else
      match answer
      case Unreachable(m) => (cleared, Failure(m))
      case NotOk(_) => (cleared, Failure("Token refresh failed"))
      case Granted(access, refresh) =>
        var stored := items[TokenKey := access];
        if Truthy(refresh) then (stored[RefreshKey := refresh.value], Success(access)) else (stored, Success(access))
  }

  /** A refresh that brings no new refresh token keeps the stored one, so a second refresh
      can follow. */
  lemma RefreshKeepsRefreshToken(items: map<string, string>, access: string)
    requires RefreshKey in items && items[RefreshKey] != ""
    ensures var r := RefreshOutcome(items, Granted(access, None));
      r.1 == Success(access) && RefreshKey in r.0 && r.0[RefreshKey] == items[RefreshKey]
  {
  }

  /** `refreshToken`; every failure also sends the page to login. */
  method RefreshToken(storage: LocalStorage, answer: RefreshAnswer) returns (r: Result<string, string>, toLogin: bool)
    modifies storage
    ensures (storage.items, r) == RefreshOutcome(old(storage.items), answer)
    ensures toLogin <==> r.Failure?
  {
    var refresh := storage.GetItem(RefreshKey);
    if !Truthy(refresh) {
      ClearTokens(storage);
      return Failure("No refresh token available"), true;
    }
    match answer
    case Unreachable(m) =>
      ClearTokens(storage);
      return Failure(m), true;
    case NotOk(_) =>
      ClearTokens(storage);
      return Failure("Token refresh failed"), true;
    case Granted(access, newRefresh) =>
      storage.SetItem(TokenKey, access);
      if Truthy(newRefresh) {
        storage.SetItem(RefreshKey, newRefresh.value);
      }
      return Success(access), false;
  }

  /** `checkAuth` (supplier): the page goes to login unless both keys hold truthy values. */
  function NeedsLogin(storage: LocalStorage): (r: bool)
    reads storage
    ensures !r <==> TokenKey in storage.items && storage.items[TokenKey] != ""
                    && RefreshKey in storage.items && storage.items[RefreshKey] != ""
  {
    !Truthy(storage.GetItem(TokenKey)) || !Truthy(storage.GetItem(RefreshKey))
  }

  /** `removeItem('token')` followed by `removeItem('refresh_token')`. */
  method ClearTokens(storage: LocalStorage)
    modifies storage
    ensures storage.items == old(storage.items) - {TokenKey, RefreshKey}
  {
    storage.RemoveItem(TokenKey);
    storage.RemoveItem(RefreshKey);
    assert storage.items == old(storage.items) - {TokenKey, RefreshKey};
  }

  /** `handleLogout`: both keys go, and the page goes to login. */
  method HandleLogout(storage: LocalStorage) returns (toLogin: bool)
    modifies storage
    ensures storage.items == old(storage.items) - {TokenKey, RefreshKey}
    ensures toLogin
  {
    ClearTokens(storage);
    toLogin := true;
  }

  /** After logging out, `checkAuth` sends the page to login. */
  lemma LogoutThenCheckAuth(before: map<string, string>, storage: LocalStorage)
    requires storage.items == before - {TokenKey, RefreshKey}
    ensures NeedsLogin(storage)
  {
  }

  /** The first step of `handleApiRequest`: no stored token means no request at all;
      otherwise the caller's headers are kept and the token and JSON type are forced. */
  function Begin(storage: LocalStorage, endpoint: string, headers: Headers): (r: Step)
    reads storage
    ensures r == NoRequest <==> !Truthy(storage.GetItem(TokenKey))
    ensures r != NoRequest ==> r == Issue(Request(endpoint, Authorized(headers, storage.items[TokenKey])))
  {
    var token := storage.GetItem(TokenKey);
    if !Truthy(token) then NoRequest else Issue(Request(endpoint, Authorized(headers, token.value)))
  }

  /** `response.ok`. */
  predicate Ok(status: int)
  {
    200 <= status <= 299
  }
}
