/**
 Request by request, in the columns of the state: when each reply is given, and what is
 durable afterwards.  `AuthModel` decides in the order of the code; here every outcome has
 its condition, the conditions exclude each other, and nothing else changes.
 */
module AuthRequests {
  import opened ScanModel
  import opened RefreshTokens
  import opened AuthModel

  /** Every token the scope is about is REVOKED, since `now` if it was not before; the others are as they were. */
  ghost predicate RevokedAre(ts: seq<Token>, ts': seq<Token>, concerned: Token -> bool, now: Time) {
    && |ts'| == |ts|
    && forall i :: 0 <= i < |ts| ==>
         ts'[i] == if concerned(ts[i]) && ts[i].status != RevokedToken
                   then ts[i].(status := RevokedToken, revokedAt := Some(now)) else ts[i]
  }

  /** A token as it is when it is created. */
  function Created(tenantId: TenantId, userId: UserId, c: Context): Token {
    Token(tenantId, userId, c.familyId, c.secret, c.now + c.ttl, ActiveToken, None, None)
  }

  /** Nothing but the tokens and the audit log has changed. */
  predicate OnlyTokens(s: State, s': State) {
    s'.users == s.users && s'.members == s.members && s'.resets == s.resets
  }

  // ------------------------------------------------------------------------- login

  /**
   A login: refused for unknown users and wrong passwords, then for inactive accounts, then
   for tenants the user is no member of; without a tenant it issues tokens exactly to a user
   with one membership.
   */
  lemma LoginExactly(s: State, u: UserId, password: Password, tenant: Option<TenantId>, c: Context)
    ensures var (s', reply) := Serve(s, Login(u, password, tenant), c);
      var known := u in s.users && s.users[u].password == Some(password);
      var member := u in s.members && tenant.Some? && tenant.value in s.members[u];
      var single := u in s.members && tenant.None? && |s.members[u]| == 1;
      && (reply == Rejected(InvalidCredentials) <==> !known)
      && (reply == Rejected(AccountInactive) <==> known && !s.users[u].active)
      && (reply == Rejected(TenantAccessDenied) <==> known && s.users[u].active && tenant.Some? && !member)
      && (reply == Done <==> known && s.users[u].active && tenant.None? && !single)
      && (reply.Issued? <==> known && s.users[u].active && (member || single))
      && (reply.Rejected? ==>
          s' == s.(audit := if reply.error == TenantAccessDenied then s.audit else s.audit + [LoginFailed]))
      && (!reply.Rejected? ==> s'.audit == s.audit + [LoggedIn(u)])
      && (reply == Done ==> s'.tokens == s.tokens)
      && OnlyTokens(s, s')
  {
  }

  /** The tokens of a login are the user's, for the tenant asked for, or else for the only membership. */
  lemma LoginIssues(s: State, u: UserId, password: Password, tenant: Option<TenantId>, c: Context)
    requires Serve(s, Login(u, password, tenant), c).1.Issued?
    ensures var (s', reply) := Serve(s, Login(u, password, tenant), c);
      && u in s.users && u in s.members
      && (tenant.None? ==> |s.members[u]| == 1)
      && var t := if tenant.Some? then tenant.value else s.members[u][0];
         && t in s.members[u]
         && reply.access.userId == u && reply.access.tenantId == t && reply.access.version == s.users[u].version
         && reply.secret == c.secret
         && s'.tokens == s.tokens + [Created(t, u, c)]
  {
  }

  // ----------------------------------------------------------------------- switch tenant

  lemma SwitchExactly(s: State, a: Access, t: TenantId, c: Context)
    ensures var (s', reply) := Serve(s, SwitchTenant(a, t), c);
      var live := a.userId in s.users && s.users[a.userId].active && s.users[a.userId].version == a.version;
      var member := a.userId in s.members && t in s.members[a.userId];
      && (reply == Rejected(Unauthorized) <==> !live)
      && (reply == Rejected(TenantAccessDenied) <==> live && !member)
      && (reply.Issued? <==> live && member)
      && (reply.Rejected? || reply.Issued?)
      && (reply.Rejected? ==> s' == s)
      && (reply.Issued? ==>
          && reply.access.userId == a.userId && reply.access.tenantId == t
          && reply.access.version == s.users[a.userId].version && reply.secret == c.secret
          && s'.tokens == s.tokens + [Created(t, a.userId, c)]
          && s'.audit == s.audit + [SwitchedTenant(a.userId)] && OnlyTokens(s, s'))
  {
  }

  // --------------------------------------------------------------------------- refresh

  /** A secret nobody has is refused. */
  lemma UnknownSecret(s: State, secret: Secret, c: Context)
    requires forall i :: 0 <= i < |s.tokens| ==> s.tokens[i].secret != secret
    ensures Serve(s, Refresh(secret), c) == (s, Rejected(InvalidRefreshToken))
  {
  }

  /**
   A refresh succeeds exactly for an ACTIVE token that has not expired, of an active user who
   is still a member of its tenant.  The token is ROTATED and points to its replacement, of
   the same family, user and tenant, with a time to live of its own.
   */
  lemma RefreshExactly(s: State, k: nat, c: Context)
    requires FamiliesOk(s.tokens) && k < |s.tokens|
    ensures var t := s.tokens[k];
      var (s', reply) := Serve(s, Refresh(t.secret), c);
      var live := t.userId in s.users && s.users[t.userId].active;
      var member := t.userId in s.members && t.tenantId in s.members[t.userId];
      && (reply == Rejected(RefreshTokenReuseDetected) <==> t.status == RotatedToken)
      && (reply.Issued? <==> t.status == ActiveToken && c.now < t.expiresAt && live && member)
      && (reply == Rejected(InvalidRefreshToken) <==>
            t.status == RevokedToken
            || (t.status == ActiveToken && !(c.now < t.expiresAt && live && member)))
      && (reply == Rejected(InvalidRefreshToken) ==> s' == s)
      && (reply.Issued? ==>
          && reply.access.userId == t.userId && reply.access.tenantId == t.tenantId
          && reply.access.version == s.users[t.userId].version && reply.secret == c.secret
          && s'.tokens == s.tokens[k := t.(status := RotatedToken, replacedBy := Some(|s.tokens|))]
               + [Created(t.tenantId, t.userId, c).(familyId := t.familyId)]
          && s'.audit == s.audit && OnlyTokens(s, s'))
  {
    FindsIt(s.tokens, k);
  }

  lemma FindsIt(ts: seq<Token>, k: nat)
    requires FamiliesOk(ts) && k < |ts|
    ensures Find(ts, ts[k].secret) == Some(k)
  {
  }

  /** A replay revokes the family, each token since now, and records the reuse. */
  lemma ReplayExactly(s: State, k: nat, c: Context)
    requires FamiliesOk(s.tokens) && k < |s.tokens| && s.tokens[k].status == RotatedToken
    ensures var (s', reply) := Serve(s, Refresh(s.tokens[k].secret), c);
      var f := s.tokens[k].familyId;
      && reply == Rejected(RefreshTokenReuseDetected)
      && RevokedAre(s.tokens, s'.tokens, (t: Token) => t.familyId == f, c.now)
      && s'.audit == s.audit + [ReuseDetected(f)] && OnlyTokens(s, s')
  {
    FindsIt(s.tokens, k);
  }

  // ----------------------------------------------------------------------------- logout

  /** A logout revokes the family of the caller's own token, and ignores any other secret. */
  lemma LogoutExactly(s: State, a: Access, secret: Secret, c: Context)
    requires FamiliesOk(s.tokens)
    ensures var (s', reply) := Serve(s, Logout(a, secret), c);
      var live := a.userId in s.users && s.users[a.userId].active && s.users[a.userId].version == a.version;
      && (reply == Done <==> live) && (reply == Rejected(Unauthorized) <==> !live)
      && (!live ==> s' == s)
      && (live ==> s'.audit == s.audit + [LoggedOut(a.userId)] && OnlyTokens(s, s'))
      && (live && (forall i :: 0 <= i < |s.tokens| && s.tokens[i].secret == secret ==> s.tokens[i].userId != a.userId)
          ==> s'.tokens == s.tokens)
  {
  }

  lemma LogoutRevokes(s: State, a: Access, k: nat, c: Context)
    requires FamiliesOk(s.tokens) && k < |s.tokens| && s.tokens[k].userId == a.userId
    requires a.userId in s.users && s.users[a.userId].active && s.users[a.userId].version == a.version
    ensures var s' := Serve(s, Logout(a, s.tokens[k].secret), c).0;
      RevokedAre(s.tokens, s'.tokens, (t: Token) => t.familyId == s.tokens[k].familyId, c.now)
  {
    FindsIt(s.tokens, k);
  }

  // -------------------------------------------------------------------------- passwords

  /**
   A password change needs a live access token, then the stored password, then an
   acceptable new one.  Done, the password is the new one, the epoch has ended and all the
   user's tokens are REVOKED; otherwise nothing has changed.
   */
  lemma ChangePasswordExactly(
      s: State, a: Access, current: Password, replacement: Password, acceptable: bool, c: Context)
    ensures var (s', reply) := Serve(s, ChangePassword(a, current, replacement, acceptable), c);
      var live := a.userId in s.users && s.users[a.userId].active && s.users[a.userId].version == a.version;
      && (reply == Rejected(Unauthorized) <==> !live)
      && (reply == Rejected(InvalidCredentials) <==> live && s.users[a.userId].password != Some(current))
      && (reply == Rejected(PasswordPolicy) <==>
            live && s.users[a.userId].password == Some(current) && !acceptable)
      && (reply == Done <==> live && s.users[a.userId].password == Some(current) && acceptable)
      && (reply != Done ==> s' == s)
      && (reply == Done ==>
          && s'.users == s.users[a.userId := User(Some(replacement), true, s.users[a.userId].version + 1)]
          && RevokedAre(s.tokens, s'.tokens, (t: Token) => t.userId == a.userId, c.now)
          && s'.members == s.members && s'.resets == s.resets
          && s'.audit == s.audit + [PasswordChanged(a.userId)])
  {
  }

  /** A link is asked for: the user's links that have not expired are used up, and there is a new one. */
  lemma RequestResetExactly(s: State, u: UserId, c: Context)
    requires c.secret !in s.resets
    ensures var (s', reply) := Serve(s, RequestReset(u), c);
      && reply == Done
      && (!(u in s.users && s.users[u].active) ==> s' == s)
      && (u in s.users && s.users[u].active ==>
          && s'.resets.Keys == s.resets.Keys + {c.secret}
          && s'.resets[c.secret] == Reset(u, c.now + c.ttl, false)
          && (forall r :: r in s.resets ==>
                s'.resets[r] == if s.resets[r].userId == u && c.now < s.resets[r].expiresAt
                                then s.resets[r].(consumed := true) else s.resets[r])
          && s'.users == s.users && s'.members == s.members && s'.tokens == s.tokens
          && s'.audit == s.audit + [ResetRequested(u)])
  {
  }

  /**
   A reset needs a link that exists, is not used up and has not expired, then an acceptable
   password, then a user.  Done, it does what a password change does, and the link is used up.
   */
  lemma ConfirmResetExactly(s: State, link: Secret, replacement: Password, acceptable: bool, c: Context)
    ensures var (s', reply) := Serve(s, ConfirmReset(link, replacement, acceptable), c);
      var good := link in s.resets && !s.resets[link].consumed && c.now < s.resets[link].expiresAt;
      && (reply == Done <==> good && acceptable && s.resets[link].userId in s.users)
      && (reply == Rejected(PasswordPolicy) <==> good && !acceptable)
      && (reply == Rejected(InvalidVerificationToken) <==>
            !good || (acceptable && s.resets[link].userId !in s.users))
      && (reply.Rejected? ==> s' == s.(audit := if good then s.audit else s.audit + [ResetFailed]))
  {
  }

  lemma ConfirmResetEffect(s: State, link: Secret, replacement: Password, acceptable: bool, c: Context)
    requires Serve(s, ConfirmReset(link, replacement, acceptable), c).1 == Done
    ensures link in s.resets && s.resets[link].userId in s.users
    ensures var s' := Serve(s, ConfirmReset(link, replacement, acceptable), c).0;
      var u := s.resets[link].userId;
      && s'.users == s.users[u := User(Some(replacement), s.users[u].active, s.users[u].version + 1)]
      && RevokedAre(s.tokens, s'.tokens, (t: Token) => t.userId == u, c.now)
      && s'.resets == s.resets[link := s.resets[link].(consumed := true)]
      && s'.members == s.members && s'.audit == s.audit + [PasswordReset(u)]
  {
  }

  // --------------------------------------------------------------------------- sessions

  /** A session is revoked by its owner only, family and all. */
  lemma RevokeSessionExactly(s: State, a: Access, k: nat, c: Context)
    ensures var (s', reply) := Serve(s, RevokeSession(a, k), c);
      var live := a.userId in s.users && s.users[a.userId].active && s.users[a.userId].version == a.version;
      var own := k < |s.tokens| && s.tokens[k].userId == a.userId;
      && (reply == Rejected(Unauthorized) <==> !live)
      && (reply == Rejected(InvalidRefreshToken) <==> live && !own)
      && (reply == Done <==> live && own)
      && (reply != Done ==> s' == s)
      && (reply == Done ==>
          && RevokedAre(s.tokens, s'.tokens, (t: Token) => t.familyId == s.tokens[k].familyId, c.now)
          && s'.audit == s.audit && OnlyTokens(s, s'))
  {
  }

  /** Logging out everywhere ends the epoch and revokes all the user's tokens; the password stays. */
  lemma RevokeAllExactly(s: State, a: Access, c: Context)
    ensures var (s', reply) := Serve(s, RevokeAllSessions(a), c);
      var live := a.userId in s.users && s.users[a.userId].active && s.users[a.userId].version == a.version;
      && (reply == Done <==> live) && (reply == Rejected(Unauthorized) <==> !live)
      && (!live ==> s' == s)
      && (live ==>
          && s'.users == s.users[a.userId := s.users[a.userId].(version := s.users[a.userId].version + 1)]
          && RevokedAre(s.tokens, s'.tokens, (t: Token) => t.userId == a.userId, c.now)
          && s'.members == s.members && s'.resets == s.resets && s'.audit == s.audit)
  {
  }

  /** An administrator changes a user's status and memberships, and no credentials. */
  lemma AdministerExactly(s: State, u: UserId, active: bool, members: seq<TenantId>, c: Context)
    ensures var (s', reply) := Serve(s, Administer(u, active, members), c);
      && reply == Done
      && (u !in s.users ==> s' == s)
      && (u in s.users ==>
          s' == s.(users := s.users[u := s.users[u].(active := active)], members := s.members[u := members]))
  {
  }
}
