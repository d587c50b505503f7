/**
 What one authentication request does to the durable state, as a function: its reply,
 and the state after the request boundary has committed it or rolled it back.  Requests
 are served one after another.  `AuthService` computes the same by updating rows.
 */
module AuthModel {
  import opened ScanModel
  import opened RefreshTokens

  type Password = string

  /** `version` is `token_version`, the credential epoch. */
  datatype User = User(password: Option<Password>, active: bool, version: nat)

  datatype Reset = Reset(userId: UserId, expiresAt: Time, consumed: bool)

  datatype AuditEvent =
    | LoginFailed
    | LoggedIn(userId: UserId)
    | ReuseDetected(familyId: FamilyId)
    | LoggedOut(userId: UserId)
    | SwitchedTenant(userId: UserId)
    | PasswordChanged(userId: UserId)
    | ResetRequested(userId: UserId)
    | ResetFailed
    | PasswordReset(userId: UserId)

  datatype State = State(
    users: map<UserId, User>,
    members: map<UserId, seq<TenantId>>,  // active memberships, oldest first
    tokens: seq<Token>,
    resets: map<Secret, Reset>,
    audit: seq<AuditEvent>)

  /** The claims of an access token; the signature makes them unforgeable. */
  datatype Access = Access(userId: UserId, tenantId: TenantId, version: nat)

  datatype AuthError =
    | Unauthorized
    | InvalidCredentials
    | AccountInactive
    | TenantAccessDenied
    | InvalidRefreshToken
    | RefreshTokenReuseDetected
    | PasswordPolicy
    | InvalidVerificationToken

  datatype Reply = Issued(access: Access, secret: Secret) | Done | Rejected(error: AuthError)

  datatype Request =
    | Login(userId: UserId, password: Password, tenant: Option<TenantId>)
    | Refresh(secret: Secret)
    | Logout(access: Access, secret: Secret)
    | SwitchTenant(access: Access, tenantId: TenantId)
    | ChangePassword(access: Access, current: Password, replacement: Password, acceptable: bool)
    | RequestReset(userId: UserId)
    | ConfirmReset(token: Secret, replacement: Password, acceptable: bool)
    | RevokeSession(access: Access, tokenId: nat)
    | RevokeAllSessions(access: Access)
    | Administer(userId: UserId, active: bool, members: seq<TenantId>)

  /** The clock, and what the random generators return. */
  datatype Context = Context(now: Time, secret: Secret, familyId: FamilyId, ttl: nat)

  // --------------------------------------------------------------------- the helpers

  /** `get_current_user`: the user must be active and the token of the current epoch. */
  predicate Accepts(s: State, a: Access) {
    a.userId in s.users && s.users[a.userId].active && s.users[a.userId].version == a.version
  }

  function Memberships(s: State, userId: UserId): seq<TenantId> {
    if userId in s.members then s.members[userId] else []
  }

  predicate IsMember(s: State, tenantId: TenantId, userId: UserId) {
    tenantId in Memberships(s, userId)
  }

  function Say(s: State, e: AuditEvent): State {
    s.(audit := s.audit + [e])
  }

  function AccessFor(s: State, userId: UserId, tenantId: TenantId): Access
    requires userId in s.users
  {
    Access(userId, tenantId, s.users[userId].version)
  }

  function IssueFresh(s: State, userId: UserId, tenantId: TenantId, c: Context): State {
    s.(tokens := s.tokens + [NewToken(tenantId, userId, c.familyId, c.secret, c.now + c.ttl)])
  }

  function RevokeIn(s: State, scope: Scope, now: Time): State {
    s.(tokens := Revoke(s.tokens, scope, now))
  }

  /** `set_password(invalidate_sessions=True)`. */
  function Rekey(s: State, userId: UserId, password: Password): State
    requires userId in s.users
  {
    Bump(s.(users := s.users[userId := s.users[userId].(password := Some(password))]), userId)
  }

  function Bump(s: State, userId: UserId): State
    requires userId in s.users
  {
    s.(users := s.users[userId := s.users[userId].(version := s.users[userId].version + 1)])
  }

  function Fail(s: State, e: AuthError): (State, Reply) {
    (s, Rejected(e))
  }

  // -------------------------------------------------------------------- the requests

  function ServeLogin(s: State, userId: UserId, password: Password, tenant: Option<TenantId>, c: Context)
    : (State, Reply)
  {
    if userId !in s.users || s.users[userId].password != Some(password) then
      Fail(Say(s, LoginFailed), InvalidCredentials)
    else if !s.users[userId].active then Fail(Say(s, LoginFailed), AccountInactive)
    else
      match tenant
      case Some(t) =>
        if !IsMember(s, t, userId) then Fail(s, TenantAccessDenied)
        else (Say(IssueFresh(s, userId, t, c), LoggedIn(userId)), Issued(AccessFor(s, userId, t), c.secret))
      case None =>
        if |Memberships(s, userId)| != 1 then (Say(s, LoggedIn(userId)), Done)
        else
          var t := Memberships(s, userId)[0];
          (Say(IssueFresh(s, userId, t, c), LoggedIn(userId)), Issued(AccessFor(s, userId, t), c.secret))
  }

  function ServeRefresh(s: State, secret: Secret, c: Context): (State, Reply) {
    match Find(s.tokens, secret)
    case None => Fail(s, InvalidRefreshToken)
    case Some(k) =>
      var t := s.tokens[k];
      if t.status.RotatedToken? then
        Fail(Say(RevokeIn(s, OfFamily(t.familyId), c.now), ReuseDetected(t.familyId)), RefreshTokenReuseDetected)
      else if t.status.RevokedToken? || t.expiresAt <= c.now then Fail(s, InvalidRefreshToken)
      else if t.userId !in s.users || !s.users[t.userId].active then Fail(s, InvalidRefreshToken)
      else if !IsMember(s, t.tenantId, t.userId) then Fail(s, InvalidRefreshToken)
      else
        (s.(tokens := Rotate(s.tokens, k, c.secret, c.now + c.ttl)),
         Issued(AccessFor(s, t.userId, t.tenantId), c.secret))
  }

  function ServeLogout(s: State, a: Access, secret: Secret, now: Time): (State, Reply) {
    if !Accepts(s, a) then Fail(s, Unauthorized)
    else
      var revoked :=
        match Find(s.tokens, secret)
        case None => s
        case Some(k) =>
          if s.tokens[k].userId == a.userId then RevokeIn(s, OfFamily(s.tokens[k].familyId), now) else s;
      (Say(revoked, LoggedOut(a.userId)), Done)
  }

  function ServeSwitch(s: State, a: Access, tenantId: TenantId, c: Context): (State, Reply) {
    if !Accepts(s, a) then Fail(s, Unauthorized)
    else if !IsMember(s, tenantId, a.userId) then Fail(s, TenantAccessDenied)
    else
      (Say(IssueFresh(s, a.userId, tenantId, c), SwitchedTenant(a.userId)),
       Issued(AccessFor(s, a.userId, tenantId), c.secret))
  }

  function ServeChange(s: State, a: Access, current: Password, replacement: Password, acceptable: bool, now: Time)
    : (State, Reply)
  {
    if !Accepts(s, a) then Fail(s, Unauthorized)
    else if s.users[a.userId].password != Some(current) then Fail(s, InvalidCredentials)
    else if !acceptable then Fail(s, PasswordPolicy)
    else (Say(RevokeIn(Rekey(s, a.userId, replacement), OfUser(a.userId), now), PasswordChanged(a.userId)), Done)
  }

  /** A new reset link invalidates the user's earlier ones. */
  function Invalidated(r: Reset, userId: UserId, now: Time): Reset {
    if r.userId == userId && r.expiresAt > now then r.(consumed := true) else r
  }

  function ServeRequestReset(s: State, userId: UserId, c: Context): (State, Reply) {
    if userId !in s.users || !s.users[userId].active then (s, Done)
    else
      var invalidated := map r | r in s.resets :: Invalidated(s.resets[r], userId, c.now);
      (Say(s.(resets := invalidated[c.secret := Reset(userId, c.now + c.ttl, false)]), ResetRequested(userId)), Done)
  }

  predicate ValidReset(s: State, token: Secret, now: Time) {
    token in s.resets && !s.resets[token].consumed && s.resets[token].expiresAt > now
  }

  function ServeConfirmReset(s: State, token: Secret, replacement: Password, acceptable: bool, now: Time)
    : (State, Reply)
  {
    if !ValidReset(s, token, now) then Fail(Say(s, ResetFailed), InvalidVerificationToken)
    else if !acceptable then Fail(s, PasswordPolicy)
    else
      var u := s.resets[token].userId;
      if u !in s.users then Fail(s, InvalidVerificationToken)
      else
        var s1 := RevokeIn(Rekey(s, u, replacement), OfUser(u), now);
        (Say(s1.(resets := s1.resets[token := s1.resets[token].(consumed := true)]), PasswordReset(u)), Done)
  }

  function ServeRevokeSession(s: State, a: Access, tokenId: nat, now: Time): (State, Reply) {
    if !Accepts(s, a) then Fail(s, Unauthorized)
    else if tokenId >= |s.tokens| || s.tokens[tokenId].userId != a.userId then Fail(s, InvalidRefreshToken)
    else (RevokeIn(s, OfFamily(s.tokens[tokenId].familyId), now), Done)
  }

  function ServeRevokeAll(s: State, a: Access, now: Time): (State, Reply) {
    if !Accepts(s, a) then Fail(s, Unauthorized)
    else (Bump(RevokeIn(s, OfUser(a.userId), now), a.userId), Done)
  }

  /** An administrator's changes to a user's status and memberships: no credentials are touched. */
  function ServeAdminister(s: State, userId: UserId, active: bool, members: seq<TenantId>): (State, Reply) {
    if userId !in s.users then (s, Done)
    else
      (s.(users := s.users[userId := s.users[userId].(active := active)],
          members := s.members[userId := members]), Done)
  }

  function Serve(s: State, q: Request, c: Context): (State, Reply) {
    match q
    case Login(u, p, t) => ServeLogin(s, u, p, t, c)
    case Refresh(secret) => ServeRefresh(s, secret, c)
    case Logout(a, secret) => ServeLogout(s, a, secret, c.now)
    case SwitchTenant(a, t) => ServeSwitch(s, a, t, c)
    case ChangePassword(a, p, p', ok) => ServeChange(s, a, p, p', ok, c.now)
    case RequestReset(u) => ServeRequestReset(s, u, c)
    case ConfirmReset(t, p, ok) => ServeConfirmReset(s, t, p, ok, c.now)
    case RevokeSession(a, k) => ServeRevokeSession(s, a, k, c.now)
    case RevokeAllSessions(a) => ServeRevokeAll(s, a, c.now)
    case Administer(u, active, members) => ServeAdminister(s, u, active, members)
  }

  /** Random secrets and family ids have not been drawn before. */
  ghost predicate Drawn(s: State, c: Context) {
    Fresh(s.tokens, c.secret) && !Known(s.tokens, c.familyId) && c.secret !in s.resets
  }
}
