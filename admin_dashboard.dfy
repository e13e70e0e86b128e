/** The admin dashboard's gateway (static/js/admin-dashboard.js). Unlike the supplier copy,
    its flag, its queue and the `processQueue` that drains it live in one module, so callers
    parked during a refresh are settled when it ends and then re-enter `handleApiRequest`.
    `refreshToken` and `handleLogout` are `TokenStore.RefreshToken` and
    `TokenStore.HandleLogout`; `loadSectionData` fetches `AdminShared.SectionUrl`. */
module AdminDashboard {
  import opened Common
  import opened TokenStore

  const VerifyEndpoint := "/api/users/verify"

  class AdminGateway {
    const storage: LocalStorage
    var isRefreshing: bool
    var failedQueue: seq<Waiter>
    /** Every settlement made so far, in order. */
    var settled: seq<Settlement>

    constructor (storage: LocalStorage)
      ensures this.storage == storage
      ensures !isRefreshing && failedQueue == [] && settled == []
    {
      this.storage := storage;
      isRefreshing := false;
      failedQueue := [];
      settled := [];
    }

    /** `processQueue(error, token)`. */
    method ProcessQueue(error: Option<string>, token: Option<string>)
      modifies this
      ensures failedQueue == []
      ensures settled == old(settled) + Settlements(old(failedQueue), error, token)
      ensures isRefreshing == old(isRefreshing)
    {
      var log := SettleAll(failedQueue, error, token);
      settled := settled + log;
      failedQueue := [];
    }

    /** The answer to the first fetch. While a refresh runs, a 401 parks the caller and no
        second refresh starts; any other failure is the one generic error. */
    method OnResponse(request: Request, status: int) returns (s: Step)
      modifies this
      ensures settled == old(settled)
      ensures status == 401 && old(isRefreshing) ==>
        s == Queued && failedQueue == old(failedQueue) + [Waiter(request)] && isRefreshing
      ensures status == 401 && !old(isRefreshing) ==>
        s == AwaitRefresh && isRefreshing && failedQueue == old(failedQueue)
      ensures status != 401 ==> isRefreshing == old(isRefreshing) && failedQueue == old(failedQueue)
      ensures status != 401 && !Ok(status) ==> s == Fail("API request failed")
      ensures status != 401 && Ok(status) ==> s == Deliver
    {
      if status == 401 {
        if isRefreshing {
          failedQueue := failedQueue + [Waiter(request)];
          return Queued;
        }
        isRefreshing := true;
        return AwaitRefresh;
      }
      if !Ok(status) {
        return Fail("API request failed");
      }
      return Deliver;
    }

    /** The end of the refresh for the caller that started it: the flag is cleared, then every
        parked caller is resolved with the new token or rejected with the same error, and the
        starter is retried once or fails with that error. */
    method OnRefreshDone(request: Request, answer: RefreshAnswer) returns (s: Step, toLogin: bool)
      modifies this, storage
      ensures !isRefreshing && failedQueue == []
      ensures var (items, r) := RefreshOutcome(old(storage.items), answer);
        && storage.items == items
        && (toLogin <==> r.Failure?)
        && (r.Success? ==> settled == old(settled) + Settlements(old(failedQueue), None, Some(r.value))
                           && s == Retry(Request(request.endpoint, request.headers["Authorization" := "Bearer " + r.value])))
        && (r.Failure? ==> settled == old(settled) + Settlements(old(failedQueue), Some(r.error), None)
                           && s == Fail(r.error))
    {
      var r;
      r, toLogin := RefreshToken(storage, answer);
      isRefreshing := false;
      if r.Success? {
        ProcessQueue(None, Some(r.value));
        s := Retry(Request(request.endpoint, request.headers["Authorization" := "Bearer " + r.value]));
      } else {
        ProcessQueue(Some(r.error), None);
        s := Fail(r.error);
      }
    }

    /** What a settled caller does next: a resolved one calls `handleApiRequest` again with
        its endpoint and the headers it was sent with, reading the token stored now; a
        rejected one fails with the error. */
    function Resume(x: Settlement): (r: Step)
      reads storage
      ensures x.Rejected? ==> r == Fail(x.error)
      ensures x.Resolved? ==> r == Begin(storage, x.waiter.request.endpoint, x.waiter.request.headers)
    {
      match x
      case Rejected(_, e) => Fail(e)
      case Resolved(w, _) => Begin(storage, w.request.endpoint, w.request.headers)
    }
  }

  /** A caller parked with the headers of its first fetch, resolved after a refresh stored
      a non-empty token, is sent again with its own headers and the new token. */
  lemma ResumedCallerUsesNewToken(g: AdminGateway, w: Waiter, h: Headers, oldToken: string, token: Option<string>)
    requires w.request.headers == Authorized(h, oldToken)
    requires TokenKey in g.storage.items && g.storage.items[TokenKey] != ""
    ensures g.Resume(Resolved(w, token)) == Issue(Request(w.request.endpoint, Authorized(h, g.storage.items[TokenKey])))
  {
    AuthorizedAgain(h, oldToken, g.storage.items[TokenKey]);
  }

  /** Two requests meet a 401 together. One refresh runs; the second caller is resolved with
      the new token, and both go out again carrying it. */
  method TwoCallersOneRefresh(storage: LocalStorage, h1: Headers, h2: Headers, stale: string, access: string)
      returns (g: AdminGateway, s1: Step, s2: Step, s3: Step, s4: Step)
    requires RefreshKey in storage.items && storage.items[RefreshKey] != ""
    requires access != ""
    modifies storage
    ensures s1 == AwaitRefresh && s2 == Queued
    ensures s3 == Retry(Request("/api/orders", Authorized(h1, access)))
    ensures s4 == Issue(Request("/api/quotations", Authorized(h2, access)))
    ensures !g.isRefreshing && g.failedQueue == []
  {
    g := new AdminGateway(storage);
    var first := Request("/api/orders", Authorized(h1, stale));
    var second := Request("/api/quotations", Authorized(h2, stale));
    s1 := g.OnResponse(first, 401);
    s2 := g.OnResponse(second, 401);
    var toLogin;
    s3, toLogin := g.OnRefreshDone(first, Granted(access, None));
    RetryCarriesNewToken(h1, stale, access);
    assert g.settled == [Resolved(Waiter(second), Some(access))];
    ResumedCallerUsesNewToken(g, Waiter(second), h2, stale, Some(access));
    s4 := g.Resume(g.settled[0]);
  }

  /** The first step of `checkAuth`: without both keys the page goes to login and nothing is
      sent; otherwise the token is verified through `handleApiRequest`. */
  function CheckAuthStart(storage: LocalStorage): (r: Step)
    reads storage
    ensures r == NoRequest <==> NeedsLogin(storage)
    ensures r != NoRequest ==> r == Issue(Request(VerifyEndpoint, Authorized(map[], storage.items[TokenKey])))
  {
    if NeedsLogin(storage) then NoRequest else Begin(storage, VerifyEndpoint, map[])
  }

  /** The end of `checkAuth`: `role` is the verified user's role, or None when the request or
      the reading of its body threw. Only the role 'admin' stays; anything else clears both
      keys and goes to login. */
  method CheckAuthVerdict(storage: LocalStorage, role: Option<string>) returns (toLogin: bool)
    modifies storage
    ensures toLogin <==> role != Some("admin")
    ensures toLogin ==> storage.items == old(storage.items) - {TokenKey, RefreshKey}
    ensures !toLogin ==> storage.items == old(storage.items)
  {
    if role == Some("admin") {
      return false;
    }
    ClearTokens(storage);
    return true;
  }
}
