/** The supplier dashboard's auth module (static/js/supplier/auth/auth.js): its module-level
    `isRefreshing` flag and `failedQueue`, and `processQueue`, which settles that queue.
    `refreshToken`, `checkAuth` and `handleLogout` are `TokenStore.RefreshToken`,
    `TokenStore.NeedsLogin` and `TokenStore.HandleLogout`. */
module SupplierAuth {
  import opened Common
  import opened TokenStore

  class AuthModule {
    /** Declared by the module and never read or written by it. */
    var isRefreshing: bool
    var failedQueue: seq<Waiter>
    /** Every settlement made so far, in order: the resolve or reject calls. */
    var settled: seq<Settlement>

    constructor ()
      ensures !isRefreshing && failedQueue == [] && settled == []
    {
      isRefreshing := false;
      failedQueue := [];
      settled := [];
    }

    /** `processQueue(error, token)`: every entry of this module's queue is settled once, in
        order, with the same outcome, and the queue is emptied. */
    method ProcessQueue(error: Option<string>, token: Option<string>)
      modifies this
      ensures failedQueue == []
      ensures settled == old(settled) + Settlements(old(failedQueue), error, token)
      ensures isRefreshing == old(isRefreshing)
    {
      var log := SettleAll(failedQueue, error, token);
      settled := settled + log;
      failedQueue := [];
    }
  }
}
