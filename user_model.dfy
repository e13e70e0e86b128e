/** The `User` and `TokenBlacklist` models (app/models/user.py): blocking, unblocking and the
    token blacklist. A user row is a value in `Db.users`; the model's methods, which change
    the fields of one loaded row, replace that row. */
module UserModel {
  import opened Common
  import opened Store

  const CannotBlockAdmin := "Cannot block admin users"

  /** `User.is_blocked`. */
  predicate IsBlocked(u: User): (r: bool)
    ensures r <==> u.status == Blocked
    ensures r ==> u.status != Active
  {
    u.status == Blocked
  }

  /** `TokenBlacklist.is_token_revoked`: some blacklist row carries the jti. */
  predicate IsTokenRevoked(revoked: set<RevokedToken>, jti: string)
  {
    exists t :: t in revoked && t.jti == jti
  }

  /** The row after `block_user(admin)` at time `now`, or the ValueError for an admin row. */
  function BlockedRow(u: User, adminId: int, now: int): (r: Result<User, string>)
    ensures u.role == Admin <==> r.Failure?
    ensures r.Failure? ==> r.error == CannotBlockAdmin
    ensures r.Success? ==> IsBlocked(r.value) && r.value.blockedAt == Some(now) && r.value.blockedBy == Some(adminId)
    ensures r.Success? ==> r.value.(status := u.status, blockedAt := u.blockedAt, blockedBy := u.blockedBy) == u
  {
    if u.role == Admin then Failure(CannotBlockAdmin)
    else Success(u.(status := Blocked, blockedAt := Some(now), blockedBy := Some(adminId)))
  }

  /** The row after `unblock_user`. */
  function UnblockedRow(u: User): (r: User)
    ensures !IsBlocked(r) && r.status == Active && r.blockedAt == None && r.blockedBy == None
    ensures r.(status := u.status, blockedAt := u.blockedAt, blockedBy := u.blockedBy) == u
  {
    u.(status := Active, blockedAt := None, blockedBy := None)
  }

  /** The users table after deleting `userId`: the row goes, and the users it had blocked keep
      their block but lose its `blocked_by`, which the ORM sets to NULL (the column is nullable).
      Nothing else of any row changes. */
  function WithoutUser(users: map<int, User>, userId: int): (r: map<int, User>)
    ensures r.Keys == users.Keys - {userId}
    ensures forall u :: u in r ==> r[u].blockedBy != Some(userId)
    ensures forall u :: u in r && users[u].blockedBy != Some(userId) ==> r[u] == users[u]
    ensures forall u :: u in r ==> r[u] == users[u].(blockedBy := r[u].blockedBy)
  {
    map u | u in users && u != userId ::
      if users[u].blockedBy == Some(userId) then users[u].(blockedBy := None) else users[u]
  }

  /** The blacklist after `revoke_all_tokens` for `userId`: that user's rows are deleted. */
  function WithoutTokensOf(revoked: set<RevokedToken>, userId: int): (r: set<RevokedToken>)
    ensures r <= revoked
    ensures forall t :: t in revoked ==> (t in r <==> t.userId != userId)
  {
    set t | t in revoked && t.userId != userId
  }

  /** Unblocking undoes blocking: an active row with no block data comes back unchanged. */
  lemma UnblockUndoesBlock(u: User, adminId: int, now: int)
    requires u.role != Admin && u.status == Active && u.blockedAt == None && u.blockedBy == None
    ensures BlockedRow(u, adminId, now).Success?
    ensures UnblockedRow(BlockedRow(u, adminId, now).value) == u
  {
  }

  /** Revoking a token makes `is_token_revoked` hold for its jti, and for no new one. */
  lemma RevokeMarksOnlyThatJti(revoked: set<RevokedToken>, t: RevokedToken, jti: string)
    ensures IsTokenRevoked(revoked + {t}, t.jti)
    ensures jti != t.jti ==> (IsTokenRevoked(revoked + {t}, jti) <==> IsTokenRevoked(revoked, jti))
  {
    assert t in revoked + {t};
  }

  /** `revoke_all_tokens` deletes blacklist rows: every token the user had revoked (for instance
      by logging out) stops counting as revoked, since jtis are unique. */
  lemma {:induction false} RevokeAllUnrevokes(revoked: set<RevokedToken>, userId: int, t: RevokedToken)
    requires UniqueJtis(revoked)
    requires t in revoked && t.userId == userId
    ensures IsTokenRevoked(revoked, t.jti)
    ensures !IsTokenRevoked(WithoutTokensOf(revoked, userId), t.jti)
  {
    forall t' | t' in WithoutTokensOf(revoked, userId)
      ensures t'.jti != t.jti
    {
      assert t' != t;
    }
  }

  /** `User.block_user`: also revokes all of the user's tokens, which here deletes its
      blacklist rows. An admin row is refused and nothing changes. */
  method BlockUser(db: Db, userId: int, adminId: int, now: int) returns (r: Result<User, string>)
    requires db.Valid() && userId in db.users
    modifies db`users, db`revoked
    ensures db.Valid()
    ensures r == BlockedRow(old(db.users[userId]), adminId, now)
    ensures r.Failure? ==> db.users == old(db.users) && db.revoked == old(db.revoked)
    ensures r.Success? ==> db.users == old(db.users)[userId := r.value]
                           && db.revoked == WithoutTokensOf(old(db.revoked), userId)
  {
    r := BlockedRow(db.users[userId], adminId, now);
    if r.Failure? {
      return;
    }
    db.users := db.users[userId := r.value];
    RevokeAllTokens(db, userId);
  }

  /** `User.unblock_user`. */
  method UnblockUser(db: Db, userId: int)
    requires db.Valid() && userId in db.users
    modifies db`users
    ensures db.Valid()
    ensures db.users == old(db.users)[userId := UnblockedRow(old(db.users[userId]))]
  {
    db.users := db.users[userId := UnblockedRow(db.users[userId])];
  }

  /** `User.revoke_token`: one blacklist row for the jti. The jti column is unique, so a jti
      already present makes the commit fail and nothing is added. */
  method RevokeToken(db: Db, userId: int, jti: string, tokenType: string, expiresAt: int) returns (added: bool)
    requires db.Valid() && userId in db.users
    modifies db`revoked
    ensures db.Valid()
    ensures added <==> !IsTokenRevoked(old(db.revoked), jti)
    ensures added ==> db.revoked == old(db.revoked) + {RevokedToken(jti, tokenType, userId, expiresAt)}
    ensures !added ==> db.revoked == old(db.revoked)
    ensures IsTokenRevoked(db.revoked, jti)
  {
    if IsTokenRevoked(db.revoked, jti) {
      return false;
    }
    var t := RevokedToken(jti, tokenType, userId, expiresAt);
    db.revoked := db.revoked + {t};
    assert t in db.revoked;
    added := true;
  }

  /** `User.revoke_all_tokens`: deletes the user's blacklist rows and adds none. */
  method RevokeAllTokens(db: Db, userId: int)
    requires db.Valid()
    modifies db`revoked
    ensures db.Valid()
    ensures db.revoked == WithoutTokensOf(old(db.revoked), userId)
  {
    db.revoked := WithoutTokensOf(db.revoked, userId);
  }
}
