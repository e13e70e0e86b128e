/** The supplier dashboard's request gateway (static/js/supplier/api/api-handler.js). The
    handler keeps its own `isRefreshing` flag and `failedQueue`, yet the `processQueue` it
    imports drains the auth module's queue; callers parked in the handler's queue are
    therefore never settled. `handleApiRequest` is split into its events: the start
    (`TokenStore.Begin`), the response to the first fetch, and the end of the refresh. */
module SupplierApi {
  import opened Common
  import opened TokenStore
  import opened SupplierAuth

  const NotFoundText := "API endpoint not found. Please check the URL."
  const AuthFailedText := "Authentication failed. Please log in again."
  const ForbiddenText := "You do not have permission to access this resource."
  const DefaultErrorText := "API request failed"

  /** The JSON body of a failed response, when it parses: its `error` and `message` fields. */
  datatype ErrorBody = ErrorBody(error: Option<string>, message: Option<string>)

  /** The error a non-ok, non-401 response is turned into. */
  function Classify(status: int, body: Option<ErrorBody>): (r: string)
    ensures status == 404 ==> r == NotFoundText
    ensures status == 401 ==> r == AuthFailedText
    ensures status == 403 ==> r == ForbiddenText
    ensures status !in {401, 403, 404} ==>
      r == (if body.Some? && Truthy(body.value.error) then body.value.error.value
            else if body.Some? && Truthy(body.value.message) then body.value.message.value
            else DefaultErrorText)
    ensures r != ""
  {
    if status == 404 then NotFoundText
    else if status == 401 then AuthFailedText
    else if status == 403 then ForbiddenText
    else if body.Some? && Truthy(body.value.error) then body.value.error.value
    else if body.Some? && Truthy(body.value.message) then body.value.message.value
    else DefaultErrorText
  }

  class ApiHandler {
    const storage: LocalStorage
    const auth: AuthModule
    var isRefreshing: bool
    var failedQueue: seq<Waiter>

    /** Nothing ever pushes onto the auth module's queue. */
    predicate Valid()
      reads auth
    {
      auth.failedQueue == []
    }

    constructor (storage: LocalStorage, auth: AuthModule)
      requires auth.failedQueue == []
      ensures this.storage == storage && this.auth == auth
      ensures !isRefreshing && failedQueue == []
      ensures Valid()
    {
      this.storage := storage;
      this.auth := auth;
      isRefreshing := false;
      failedQueue := [];
    }

    /** The answer to the first fetch of a request, sent with the injected headers. A 401
        while a refresh is running parks the caller; a 401 otherwise starts the one refresh;
        any other failure is classified; success is handed back. */
    method OnResponse(request: Request, status: int, body: Option<ErrorBody>) returns (s: Step)
      requires Valid()
      modifies this
      ensures Valid()
      ensures status == 401 && old(isRefreshing) ==>
        s == Queued && failedQueue == old(failedQueue) + [Waiter(request)] && isRefreshing
      ensures status == 401 && !old(isRefreshing) ==>
        s == AwaitRefresh && isRefreshing && failedQueue == old(failedQueue)
      ensures status != 401 ==> isRefreshing == old(isRefreshing) && failedQueue == old(failedQueue)
      ensures status != 401 && !Ok(status) ==> s == Fail(Classify(status, body))
      ensures status != 401 && Ok(status) ==> s == Deliver
    {
      if status == 401 {
        if isRefreshing {
          failedQueue := failedQueue + [Waiter(request)];
          return Queued;
        }
        isRefreshing := true;
        return AwaitRefresh;
      }
      if !Ok(status) {
        return Fail(Classify(status, body));
      }
      return Deliver;
    }

    /** The end of `refreshToken()` for the caller that started it. The flag is cleared and
        `processQueue` runs on the auth module's (empty) queue; this handler's queue stays as
        it is. On success the request that got the 401 is re-sent once with the new token;
        on failure its error is rethrown. */
    method OnRefreshDone(request: Request, answer: RefreshAnswer) returns (s: Step, toLogin: bool)
      requires Valid()
      modifies this, storage, auth
      ensures Valid()
      ensures !isRefreshing
      ensures failedQueue == old(failedQueue)
      ensures auth.settled == old(auth.settled)
      ensures var (items, r) := RefreshOutcome(old(storage.items), answer);
        && storage.items == items
        && (toLogin <==> r.Failure?)
        && (r.Success? ==> s == Retry(Request(request.endpoint, request.headers["Authorization" := "Bearer " + r.value])))
        && (r.Failure? ==> s == Fail(r.error))
    {
      var r;
      r, toLogin := RefreshToken(storage, answer);
      isRefreshing := false;
      if r.Success? {
        auth.ProcessQueue(None, Some(r.value));
        s := Retry(Request(request.endpoint, request.headers["Authorization" := "Bearer " + r.value]));
      } else {
        auth.ProcessQueue(Some(r.error), None);
        s := Fail(r.error);
      }
    }
  }

  /** Two requests meet a 401 together. The first runs the refresh; the second waits in the
      handler's queue. The refresh succeeds and the first is retried, but nobody is settled:
      the second caller waits for ever. */
  method SecondCallerIsStranded(storage: LocalStorage, auth: AuthModule, first: Request, second: Request, access: string)
      returns (handler: ApiHandler, s1: Step, s2: Step, s3: Step)
    requires auth.failedQueue == [] && auth.settled == []
    requires RefreshKey in storage.items && storage.items[RefreshKey] != ""
    modifies storage, auth
    ensures s1 == AwaitRefresh && s2 == Queued && s3.Retry?
    ensures handler.failedQueue == [Waiter(second)] && !handler.isRefreshing
    ensures auth.settled == []
  {
    handler := new ApiHandler(storage, auth);
    s1 := handler.OnResponse(first, 401, None);
    s2 := handler.OnResponse(second, 401, None);
    var toLogin;
    s3, toLogin := handler.OnRefreshDone(first, Granted(access, None));
  }
}
