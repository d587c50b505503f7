/**
 The authentication requests as the code serves them: repositories that update rows
 through a session, service methods that raise, and the request boundary that commits
 or rolls back.  `GetDb` proves them equal to `AuthModel.Serve`.
 */
module AuthService {
  import opened ScanModel
  import opened RefreshTokens
  import opened AuthModel

  /** `committed` is what other sessions see; `state` is this session's view of it. */
  class Session {
    var committed: State
    var state: State

    constructor (s: State)
      ensures committed == s && state == s
    {
      committed, state := s, s;
    }

    method Commit()
      modifies this
      ensures state == old(state) && committed == old(state)
    {
      committed := state;
    }

    method Rollback()
      modifies this
      ensures committed == old(committed) && state == old(committed)
    {
      state := committed;
    }
  }

  class RefreshTokenRepository {
    const session: Session

    constructor (session: Session)
      ensures this.session == session
    {
      this.session := session;
    }

    method Create(t: Token)
      modifies session`state
      ensures session.state == old(session.state).(tokens := old(session.state.tokens) + [t])
    {
      session.state := session.state.(tokens := session.state.tokens + [t]);
    }

    method GetByHashedToken(secret: Secret) returns (k: Option<nat>)
      ensures k == Find(session.state.tokens, secret)
    {
      var ts := session.state.tokens;
      var n: nat := |ts|;
      assert ts[..n] == ts;
      while n > 0
        invariant n <= |ts| && Find(ts, secret) == Find(ts[..n], secret)
      {
        assert ts[..n][..n - 1] == ts[..n - 1];
        if ts[n - 1].secret == secret { return Some(n - 1); }
        n := n - 1;
      }
      return None;
    }

    method Rotate(k: nat, secret: Secret, expiresAt: Time)
      requires k < |session.state.tokens|
      modifies session`state
      ensures session.state == old(session.state).(
        tokens := RefreshTokens.Rotate(old(session.state.tokens), k, secret, expiresAt))
    {
      var t := session.state.tokens[k];
      var newId := |session.state.tokens|;
      Create(NewToken(t.tenantId, t.userId, t.familyId, secret, expiresAt));
      var ts := session.state.tokens;
      ts := ts[k := ts[k].(status := RotatedToken)];
      ts := ts[k := ts[k].(replacedBy := Some(newId))];
      session.state := session.state.(tokens := ts);
    }

    /** The loop of `revoke_family` and of `revoke_all_for_user`; returns how many rows it changed. */
    method RevokeWhere(scope: Scope, now: Time) returns (count: nat)
      modifies session`state
      ensures session.state == RevokeIn(old(session.state), scope, now)
      ensures count == |StillToRevoke(old(session.state.tokens), scope)|
    {
      var was := session.state.tokens;
      var ts := was;
      count := 0;
      for i := 0 to |was|
        invariant |ts| == |was|
        invariant forall j :: 0 <= j < i ==> ts[j] == if scope.Covers(was[j]) then MarkRevoked(was[j], now) else was[j]
        invariant forall j :: i <= j < |was| ==> ts[j] == was[j]
        invariant count == Revocable(was[..i], scope)
      {
        if scope.Covers(ts[i]) && !ts[i].status.RevokedToken? {
          ts := ts[i := ts[i].(status := RevokedToken)];
          ts := ts[i := ts[i].(revokedAt := Some(now))];
          count := count + 1;
        }
        assert was[..i + 1][..i] == was[..i];
      }
      assert was[..|was|] == was;
      assert ts == Revoke(was, scope, now);
      RevocableCounts(was, scope);
      session.state := session.state.(tokens := ts);
    }

    /** Newest first: the keys of the user's ACTIVE tokens, all of them and each once. */
    method ListActiveSessions(userId: UserId) returns (ids: seq<nat>)
      ensures forall i :: 0 <= i < |ids| ==> ids[i] < |session.state.tokens|
      ensures forall i, j :: 0 <= i < j < |ids| ==> ids[j] < ids[i]
      ensures forall k :: k in ids <==>
        0 <= k < |session.state.tokens| && session.state.tokens[k].userId == userId
        && session.state.tokens[k].status.ActiveToken?
      ensures FamiliesOk(session.state.tokens) ==>
        forall i, j :: 0 <= i < j < |ids| ==>
          session.state.tokens[ids[i]].familyId != session.state.tokens[ids[j]].familyId
    {
      var ts := session.state.tokens;
      ids := [];
      var n: nat := |ts|;
      while n > 0
        invariant n <= |ts|
        invariant forall i :: 0 <= i < |ids| ==> n <= ids[i] < |ts|
        invariant forall i, j :: 0 <= i < j < |ids| ==> ids[j] < ids[i]
        invariant forall k :: k in ids <==> n <= k < |ts| && ts[k].userId == userId && ts[k].status.ActiveToken?
      {
        n := n - 1;
        if ts[n].userId == userId && ts[n].status.ActiveToken? { ids := ids + [n]; }
      }
      if FamiliesOk(ts) {
        forall i, j | 0 <= i < j < |ids| ensures ts[ids[i]].familyId != ts[ids[j]].familyId {
          assert ids[i] in ids && ids[j] in ids;
          assert LinkOk(ts, ids[j]) && StatusOk(ts, ids[j]);
        }
      }
    }
  }

  class UserRepository {
    const session: Session

    constructor (session: Session)
      ensures this.session == session
    {
      this.session := session;
    }

    method SetPassword(userId: UserId, password: Password, invalidateSessions: bool)
      requires userId in session.state.users
      modifies session`state
      ensures invalidateSessions ==> session.state == Rekey(old(session.state), userId, password)
      ensures !invalidateSessions ==> session.state == old(session.state).(
        users := old(session.state).users[userId := old(session.state).users[userId].(password := Some(password))])
    {
      var user := session.state.users[userId];
      user := user.(password := Some(password));
      if invalidateSessions { user := user.(version := user.version + 1); }
      session.state := session.state.(users := session.state.users[userId := user]);
    }

    method BumpTokenVersion(userId: UserId)
      requires userId in session.state.users
      modifies session`state
      ensures session.state == Bump(old(session.state), userId)
    {
      var user := session.state.users[userId];
      user := user.(version := user.version + 1);
      session.state := session.state.(users := session.state.users[userId := user]);
    }
  }

  class AuthService {
    const session: Session
    const users: UserRepository
    const refreshTokens: RefreshTokenRepository

    constructor (session: Session)
      ensures this.session == session && Wired()
    {
      this.session := session;
      users := new UserRepository(session);
      refreshTokens := new RefreshTokenRepository(session);
    }

    ghost predicate Wired() {
      users.session == session && refreshTokens.session == session
    }

    /** What a handler leaves to the request boundary: on a rejection, whatever it has committed itself. */
    twostate predicate Served(q: Request, c: Context, reply: Reply)
      reads session
    {
      && reply == Serve(old(session.committed), q, c).1
      && if reply.Rejected? then session.committed == Serve(old(session.committed), q, c).0
         else session.state == Serve(old(session.committed), q, c).0 && session.committed == old(session.committed)
    }

    method Audit(e: AuditEvent)
      modifies session`state
      ensures session.state == Say(old(session.state), e)
    {
      session.state := session.state.(audit := session.state.audit + [e]);
    }

    /** The audit record of a failed login survives the request's rollback. */
    method RecordFailedLogin()
      modifies session
      ensures session.committed == Say(old(session.state), LoginFailed)
    {
      Audit(LoginFailed);
      session.Commit();
    }

    method IssueFreshTokenPair(userId: UserId, tenantId: TenantId, c: Context) returns (reply: Reply)
      requires Wired() && userId in session.state.users
      modifies session`state
      ensures session.state == IssueFresh(old(session.state), userId, tenantId, c)
      ensures reply == Issued(AccessFor(old(session.state), userId, tenantId), c.secret)
    {
      refreshTokens.Create(NewToken(tenantId, userId, c.familyId, c.secret, c.now + c.ttl));
      reply := Issued(AccessFor(session.state, userId, tenantId), c.secret);
    }

    method Login(userId: UserId, password: Password, tenant: Option<TenantId>, c: Context) returns (reply: Reply)
      requires Wired() && session.state == session.committed
      modifies session
      ensures Served(AuthModel.Login(userId, password, tenant), c, reply)
    {
      var s := session.state;
      if userId !in s.users || s.users[userId].password != Some(password) {
        RecordFailedLogin();
        return Rejected(InvalidCredentials);
      }
      if !s.users[userId].active {
        RecordFailedLogin();
        return Rejected(AccountInactive);
      }
      var memberships := Memberships(s, userId);
      var chosen := tenant;
      if tenant.Some? {
        if tenant.value !in memberships { return Rejected(TenantAccessDenied); }
      } else if |memberships| == 1 {
        chosen := Some(memberships[0]);
      }
      if chosen.None? {
        Audit(LoggedIn(userId));
        return Done;
      }
      reply := IssueFreshTokenPair(userId, chosen.value, c);
      Audit(LoggedIn(userId));
    }

    method Refresh(secret: Secret, c: Context) returns (reply: Reply)
      requires Wired() && session.state == session.committed
      modifies session
      ensures Served(AuthModel.Refresh(secret), c, reply)
    {
      var k := refreshTokens.GetByHashedToken(secret);
      if k.None? { return Rejected(InvalidRefreshToken); }
      var t := session.state.tokens[k.value];

      if t.status.RotatedToken? {
        var count := refreshTokens.RevokeWhere(OfFamily(t.familyId), c.now);
        Audit(ReuseDetected(t.familyId));
        session.Commit();
        return Rejected(RefreshTokenReuseDetected);
      }
      if t.status.RevokedToken? || t.expiresAt <= c.now { return Rejected(InvalidRefreshToken); }

      var s := session.state;
      if t.userId !in s.users || !s.users[t.userId].active { return Rejected(InvalidRefreshToken); }
      if !IsMember(s, t.tenantId, t.userId) { return Rejected(InvalidRefreshToken); }

      refreshTokens.Rotate(k.value, c.secret, c.now + c.ttl);
      reply := Issued(AccessFor(session.state, t.userId, t.tenantId), c.secret);
    }

    /** `get_current_user`. */
    method GetCurrentUser(a: Access) returns (ok: bool)
      ensures ok == Accepts(session.state, a)
    {
      var s := session.state;
      if a.userId !in s.users || !s.users[a.userId].active { return false; }
      if a.version != s.users[a.userId].version { return false; }
      return true;
    }

    method Logout(a: Access, secret: Secret, c: Context) returns (reply: Reply)
      requires Wired() && session.state == session.committed
      modifies session
      ensures Served(AuthModel.Logout(a, secret), c, reply)
    {
      var ok := GetCurrentUser(a);
      if !ok { return Rejected(Unauthorized); }
      var k := refreshTokens.GetByHashedToken(secret);
      if k.Some? && session.state.tokens[k.value].userId == a.userId {
        var count := refreshTokens.RevokeWhere(OfFamily(session.state.tokens[k.value].familyId), c.now);
      }
      Audit(LoggedOut(a.userId));
      reply := Done;
    }

    method SwitchTenant(a: Access, tenantId: TenantId, c: Context) returns (reply: Reply)
      requires Wired() && session.state == session.committed
      modifies session
      ensures Served(AuthModel.SwitchTenant(a, tenantId), c, reply)
    {
      var ok := GetCurrentUser(a);
      if !ok { return Rejected(Unauthorized); }
      if !IsMember(session.state, tenantId, a.userId) { return Rejected(TenantAccessDenied); }
      reply := IssueFreshTokenPair(a.userId, tenantId, c);
      Audit(SwitchedTenant(a.userId));
    }

    method ChangePassword(a: Access, current: Password, replacement: Password, acceptable: bool, c: Context)
      returns (reply: Reply)
      requires Wired() && session.state == session.committed
      modifies session
      ensures Served(AuthModel.ChangePassword(a, current, replacement, acceptable), c, reply)
    {
      var ok := GetCurrentUser(a);
      if !ok { return Rejected(Unauthorized); }
      if session.state.users[a.userId].password != Some(current) { return Rejected(InvalidCredentials); }
      if !acceptable { return Rejected(PasswordPolicy); }
      users.SetPassword(a.userId, replacement, true);
      var count := refreshTokens.RevokeWhere(OfUser(a.userId), c.now);
      Audit(PasswordChanged(a.userId));
      reply := Done;
    }

    method RequestPasswordReset(userId: UserId, c: Context) returns (reply: Reply)
      requires Wired() && session.state == session.committed
      modifies session
      ensures Served(RequestReset(userId), c, reply)
    {
      reply := Done;
      var s := session.state;
      if userId !in s.users || !s.users[userId].active { return; }
      var resets := s.resets;
      var left := resets.Keys;
      while left != {}
        invariant left <= s.resets.Keys == resets.Keys
        invariant forall r :: r in left ==> resets[r] == s.resets[r]
        invariant forall r :: r in resets && r !in left ==> resets[r] == Invalidated(s.resets[r], userId, c.now)
        decreases |left|
      {
        var r :| r in left;
        if resets[r].userId == userId && resets[r].expiresAt > c.now {
          resets := resets[r := resets[r].(consumed := true)];
        }
        left := left - {r};
      }
      session.state := s.(resets := resets[c.secret := Reset(userId, c.now + c.ttl, false)]);
      Audit(ResetRequested(userId));
    }

    method ConfirmPasswordReset(token: Secret, replacement: Password, acceptable: bool, c: Context)
      returns (reply: Reply)
      requires Wired() && session.state == session.committed
      modifies session
      ensures Served(ConfirmReset(token, replacement, acceptable), c, reply)
    {
      if !ValidReset(session.state, token, c.now) {
        Audit(ResetFailed);
        session.Commit();
        return Rejected(InvalidVerificationToken);
      }
      if !acceptable { return Rejected(PasswordPolicy); }
      var userId := session.state.resets[token].userId;
      if userId !in session.state.users { return Rejected(InvalidVerificationToken); }
      users.SetPassword(userId, replacement, true);
      var count := refreshTokens.RevokeWhere(OfUser(userId), c.now);
      var s := session.state;
      session.state := s.(resets := s.resets[token := s.resets[token].(consumed := true)]);
      Audit(PasswordReset(userId));
      reply := Done;
    }

    method RevokeSession(a: Access, tokenId: nat, c: Context) returns (reply: Reply)
      requires Wired() && session.state == session.committed
      modifies session
      ensures Served(AuthModel.RevokeSession(a, tokenId), c, reply)
    {
      var ok := GetCurrentUser(a);
      if !ok { return Rejected(Unauthorized); }
      if tokenId >= |session.state.tokens| || session.state.tokens[tokenId].userId != a.userId {
        return Rejected(InvalidRefreshToken);
      }
      var count := refreshTokens.RevokeWhere(OfFamily(session.state.tokens[tokenId].familyId), c.now);
      reply := Done;
    }

    method RevokeAllSessions(a: Access, c: Context) returns (reply: Reply)
      requires Wired() && session.state == session.committed
      modifies session
      ensures Served(AuthModel.RevokeAllSessions(a), c, reply)
    {
      var ok := GetCurrentUser(a);
      if !ok { return Rejected(Unauthorized); }
      var count := refreshTokens.RevokeWhere(OfUser(a.userId), c.now);
      users.BumpTokenVersion(a.userId);
      reply := Done;
    }

    method Administer(userId: UserId, active: bool, members: seq<TenantId>, c: Context) returns (reply: Reply)
      requires Wired() && session.state == session.committed
      modifies session
      ensures Served(AuthModel.Administer(userId, active, members), c, reply)
    {
      reply := Done;
      var s := session.state;
      if userId !in s.users { return; }
      session.state := s.(
        users := s.users[userId := s.users[userId].(active := active)],
        members := s.members[userId := members]);
    }

    /** The endpoint a request is for. */
    method Handle(q: Request, c: Context) returns (reply: Reply)
      requires Wired() && session.state == session.committed
      modifies session
      ensures Served(q, c, reply)
    {
      match q {
        case Login(u, p, t) => reply := Login(u, p, t, c);
        case Refresh(secret) => reply := Refresh(secret, c);
        case Logout(a, secret) => reply := Logout(a, secret, c);
        case SwitchTenant(a, t) => reply := SwitchTenant(a, t, c);
        case ChangePassword(a, p, p', ok) => reply := ChangePassword(a, p, p', ok, c);
        case RequestReset(u) => reply := RequestPasswordReset(u, c);
        case ConfirmReset(t, p, ok) => reply := ConfirmPasswordReset(t, p, ok, c);
        case RevokeSession(a, k) => reply := RevokeSession(a, k, c);
        case RevokeAllSessions(a) => reply := RevokeAllSessions(a, c);
        case Administer(u, active, members) => reply := Administer(u, active, members, c);
      }
    }
  }

  /** The request boundary: commit on success, roll back on an exception. */
  method GetDb(s: State, q: Request, c: Context) returns (s': State, reply: Reply)
    ensures (s', reply) == Serve(s, q, c)
  {
    var session := new Session(s);
    var service := new AuthService(session);
    reply := service.Handle(q, c);
    if reply.Rejected? { session.Rollback(); } else { session.Commit(); }
    s' := session.committed;
  }
}
