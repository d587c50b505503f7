/**
 What holds over every sequence of authentication requests: the shape of refresh-token
 families, what a replayed token brings about, and what the credential epoch cuts off.
 */
module AuthHistories {
  import opened ScanModel
  import opened RefreshTokens
  import opened AuthModel

  // ------------------------------------------------- how a request changes the tokens

  datatype Change = Kept | Added(token: Token) | RotatedAt(k: nat) | RevokedBy(scope: Scope)

  /** What a request does to the token table, read off its reply and its arguments. */
  function ChangeOf(s: State, q: Request, c: Context): Change {
    var (_, reply) := Serve(s, q, c);
    match q
    case Refresh(secret) =>
      if reply.Issued? then RotatedAt(Find(s.tokens, secret).value)
      else if reply == Rejected(RefreshTokenReuseDetected) then
        RevokedBy(OfFamily(s.tokens[Find(s.tokens, secret).value].familyId))
      else Kept
    case Login(u, _, _) => if reply.Issued? then Added(Issue(reply.access, c)) else Kept
    case SwitchTenant(_, _) => if reply.Issued? then Added(Issue(reply.access, c)) else Kept
    case Logout(a, secret) =>
      if reply.Done? && Find(s.tokens, secret).Some? && s.tokens[Find(s.tokens, secret).value].userId == a.userId
      then RevokedBy(OfFamily(s.tokens[Find(s.tokens, secret).value].familyId)) else Kept
    case RevokeSession(_, k) => if reply.Done? then RevokedBy(OfFamily(s.tokens[k].familyId)) else Kept
    case ChangePassword(a, _, _, _) => if reply.Done? then RevokedBy(OfUser(a.userId)) else Kept
    case ConfirmReset(t, _, _) => if reply.Done? then RevokedBy(OfUser(s.resets[t].userId)) else Kept
    case RevokeAllSessions(a) => if reply.Done? then RevokedBy(OfUser(a.userId)) else Kept
    case RequestReset(_) => Kept
    case Administer(_, _, _) => Kept
  }

  function Issue(a: Access, c: Context): Token {
    NewToken(a.tenantId, a.userId, c.familyId, c.secret, c.now + c.ttl)
  }

  predicate ChangeFits(ts: seq<Token>, change: Change) {
    match change
    case Kept => true
    case Added(t) => t.status.ActiveToken? && t.replacedBy.None?
    case RotatedAt(k) => k < |ts| && ts[k].status.ActiveToken?
    case RevokedBy(scope) => true
  }

  function Changed(ts: seq<Token>, change: Change, c: Context): seq<Token>
    requires ChangeFits(ts, change)
  {
    match change
    case Kept => ts
    case Added(t) => ts + [t]
    case RotatedAt(k) => Rotate(ts, k, c.secret, c.now + c.ttl)
    case RevokedBy(scope) => Revoke(ts, scope, c.now)
  }

  lemma TokensChange(s: State, q: Request, c: Context)
    ensures ChangeFits(s.tokens, ChangeOf(s, q, c))
    ensures Serve(s, q, c).0.tokens == Changed(s.tokens, ChangeOf(s, q, c), c)
    ensures ChangeOf(s, q, c).Added? ==>
      ChangeOf(s, q, c).token.familyId == c.familyId && ChangeOf(s, q, c).token.secret == c.secret
  {
  }

  // ------------------------------------------------------------------- the invariant

  function Reuses(audit: seq<AuditEvent>, f: FamilyId): nat {
    if audit == [] then 0
    else Reuses(audit[..|audit| - 1], f) + if audit[|audit| - 1] == ReuseDetected(f) then 1 else 0
  }

  lemma ReusesAppend(audit: seq<AuditEvent>, e: AuditEvent, f: FamilyId)
    ensures Reuses(audit + [e], f) == Reuses(audit, f) + if e == ReuseDetected(f) then 1 else 0
  {
    assert (audit + [e])[..|audit|] == audit;
  }

  /** At most one reuse is ever recorded for a family, and it has killed the family. */
  ghost predicate ReuseOk(s: State, f: FamilyId) {
    Reuses(s.audit, f) <= if Dead(s.tokens, f) then 1 else 0
  }

  ghost predicate StateOk(s: State) {
    FamiliesOk(s.tokens) && forall f :: ReuseOk(s, f)
  }

  lemma ChangeKeepsFamilies(ts: seq<Token>, change: Change, c: Context)
    requires FamiliesOk(ts) && ChangeFits(ts, change)
    requires Fresh(ts, c.secret) && !Known(ts, c.familyId)
    requires change.Added? ==> change.token.familyId == c.familyId && change.token.secret == c.secret
    ensures FamiliesOk(Changed(ts, change, c))
  {
    match change {
      case Kept =>
      case Added(t) => CreateKeeps(ts, t);
      case RotatedAt(k) => RotateKeeps(ts, k, c.secret, c.now + c.ttl);
      case RevokedBy(scope) => RevokeKeeps(ts, scope, c.now);
    }
  }

  /** A revoked token is never written again. */
  lemma RevokedStays(ts: seq<Token>, change: Change, c: Context, i: nat)
    requires ChangeFits(ts, change) && i < |ts| && ts[i].status.RevokedToken?
    ensures i < |Changed(ts, change, c)| && Changed(ts, change, c)[i] == ts[i]
  {
  }

  /** A dead family stays dead, and gets no new token. */
  lemma DeadStays(ts: seq<Token>, change: Change, c: Context, f: FamilyId)
    requires FamiliesOk(ts) && ChangeFits(ts, change) && !Known(ts, c.familyId)
    requires change.Added? ==> change.token.familyId == c.familyId
    requires Dead(ts, f)
    ensures Dead(Changed(ts, change, c), f)
  {
    var ts' := Changed(ts, change, c);
    var i :| 0 <= i < |ts| && ts[i].familyId == f;
    RevokedStays(ts, change, c, i);
    assert ts'[i].familyId == f;
    forall j | 0 <= j < |ts'| && ts'[j].familyId == f ensures ts'[j].status.RevokedToken? {
      if j < |ts| { RevokedStays(ts, change, c, j); }
    }
  }

  predicate Replays(s: State, q: Request) {
    q.Refresh? && Find(s.tokens, q.secret).Some? && s.tokens[Find(s.tokens, q.secret).value].status.RotatedToken?
  }

  function ReplayedFamily(s: State, q: Request): FamilyId
    requires Replays(s, q)
  {
    s.tokens[Find(s.tokens, q.secret).value].familyId
  }

  /** Requests other than replays record one event at most, and never a reuse. */
  lemma QuietAudit(s: State, q: Request, c: Context)
    requires !Replays(s, q)
    ensures var audit := Serve(s, q, c).0.audit;
      || audit == s.audit
      || (|audit| == |s.audit| + 1 && audit[..|s.audit|] == s.audit && !audit[|s.audit|].ReuseDetected?)
  {
  }

  lemma ReplayAudit(s: State, q: Request, c: Context)
    requires Replays(s, q)
    ensures Serve(s, q, c).0.audit == s.audit + [ReuseDetected(ReplayedFamily(s, q))]
  {
  }

  /** Nothing but a replay records a reuse. */
  lemma AuditChange(s: State, q: Request, c: Context, f: FamilyId)
    ensures Reuses(Serve(s, q, c).0.audit, f)
      == Reuses(s.audit, f) + if Replays(s, q) && ReplayedFamily(s, q) == f then 1 else 0
  {
    if Replays(s, q) {
      ReplayAudit(s, q, c);
      ReusesAppend(s.audit, ReuseDetected(ReplayedFamily(s, q)), f);
    } else {
      QuietAudit(s, q, c);
    }
  }

  /**
   Replaying a rotated token leaves its whole family revoked, after the request has failed
   and been rolled back, with one audit event, and touches nothing else.
   */
  lemma ReplayKillsFamily(s: State, q: Request, c: Context)
    requires StateOk(s) && Replays(s, q)
    ensures var (s', reply) := Serve(s, q, c);
      var f := ReplayedFamily(s, q);
      && reply == Rejected(RefreshTokenReuseDetected)
      && !Dead(s.tokens, f) && Dead(s'.tokens, f)
      && s'.audit == s.audit + [ReuseDetected(f)]
      && s'.users == s.users && s'.resets == s.resets && s'.members == s.members
      && |s'.tokens| == |s.tokens|
      && forall i :: 0 <= i < |s.tokens| && s.tokens[i].familyId != f ==> s'.tokens[i] == s.tokens[i]
  {
    var k := Find(s.tokens, q.secret).value;
    var s' := Serve(s, q, c).0;
    assert s.tokens[k].familyId == ReplayedFamily(s, q) == s'.tokens[k].familyId;
    forall j | 0 <= j < |s'.tokens| && s'.tokens[j].familyId == ReplayedFamily(s, q)
      ensures s'.tokens[j].status.RevokedToken?
    {
      assert Kin(s.tokens[j], s.tokens[k]);
    }
  }

  lemma ServeKeeps(s: State, q: Request, c: Context)
    requires StateOk(s) && Drawn(s, c)
    ensures StateOk(Serve(s, q, c).0)
  {
    var s' := Serve(s, q, c).0;
    TokensChange(s, q, c);
    ChangeKeepsFamilies(s.tokens, ChangeOf(s, q, c), c);
    forall f ensures ReuseOk(s', f) {
      assert ReuseOk(s, f);
      AuditChange(s, q, c, f);
      if Dead(s.tokens, f) { DeadStays(s.tokens, ChangeOf(s, q, c), c, f); }
      if Replays(s, q) { ReplayKillsFamily(s, q, c); }
    }
  }

  /**
   Whatever is rejected leaves nothing behind, with three exceptions that the code commits
   on purpose: a failed login and a failed reset are recorded, a replay kills its family.
   */
  lemma RejectionsLeaveNothing(s: State, q: Request, c: Context)
    requires Serve(s, q, c).1.Rejected? && !Replays(s, q)
    ensures var s' := Serve(s, q, c).0;
      || s' == s
      || (q.Login? && s' == Say(s, LoginFailed)
          && (Serve(s, q, c).1.error.InvalidCredentials? || Serve(s, q, c).1.error.AccountInactive?))
      || (q.ConfirmReset? && s' == Say(s, ResetFailed) && !ValidReset(s, q.token, c.now))
    ensures q.Refresh? ==> Serve(s, q, c) == (s, Rejected(InvalidRefreshToken))
  {
  }

  // --------------------------------------------------------------------- histories

  datatype Turn = Turn(request: Request, context: Context)

  ghost predicate Possible(s: State, turns: seq<Turn>)
    decreases |turns|
  {
    turns == [] || (Drawn(s, turns[0].context) && Possible(Next(s, turns[0]), turns[1..]))
  }

  function Next(s: State, t: Turn): State {
    Serve(s, t.request, t.context).0
  }

  ghost function After(s: State, turns: seq<Turn>): State
    decreases |turns|
  {
    if turns == [] then s else After(Next(s, turns[0]), turns[1..])
  }

  /** The shape of families, and one reuse event at most, in every history. */
  lemma {:induction false} HistoryKeeps(s: State, turns: seq<Turn>)
    requires StateOk(s) && Possible(s, turns)
    ensures StateOk(After(s, turns))
    decreases |turns|
  {
    if turns != [] {
      ServeKeeps(s, turns[0].request, turns[0].context);
      HistoryKeeps(Next(s, turns[0]), turns[1..]);
    }
  }

  /** A revoked token's row stays as it is, so its secret is refused with no effect for ever. */
  lemma {:induction false} RevokedForGood(s: State, turns: seq<Turn>, i: nat, c: Context)
    requires StateOk(s) && Possible(s, turns)
    requires i < |s.tokens| && s.tokens[i].status.RevokedToken?
    ensures var s' := After(s, turns);
      && i < |s'.tokens| && s'.tokens[i] == s.tokens[i]
      && Serve(s', Refresh(s.tokens[i].secret), c) == (s', Rejected(InvalidRefreshToken))
    decreases |turns|
  {
    if turns != [] {
      var t := turns[0];
      TokensChange(s, t.request, t.context);
      RevokedStays(s.tokens, ChangeOf(s, t.request, t.context), t.context, i);
      ServeKeeps(s, t.request, t.context);
      RevokedForGood(Next(s, t), turns[1..], i, c);
    } else {
      var k := Find(s.tokens, s.tokens[i].secret);
      assert k == Some(i);
    }
  }

  /**
   Once replayed, a family is lost durably and once: whatever is requested later, it stays
   dead, no further reuse is recorded for it, and none of its secrets is ever accepted.
   */
  lemma {:induction false} DeadForGood(s: State, turns: seq<Turn>, f: FamilyId)
    requires StateOk(s) && Possible(s, turns) && Dead(s.tokens, f)
    ensures var s' := After(s, turns);
      && Dead(s'.tokens, f) && Reuses(s'.audit, f) == Reuses(s.audit, f)
      && forall i, c :: 0 <= i < |s'.tokens| && s'.tokens[i].familyId == f ==>
           Serve(s', Refresh(s'.tokens[i].secret), c) == (s', Rejected(InvalidRefreshToken))
    decreases |turns|
  {
    if turns != [] {
      var t := turns[0];
      TokensChange(s, t.request, t.context);
      DeadStays(s.tokens, ChangeOf(s, t.request, t.context), t.context, f);
      AuditChange(s, t.request, t.context, f);
      ServeKeeps(s, t.request, t.context);
      DeadForGood(Next(s, t), turns[1..], f);
    } else {
      forall i, c | 0 <= i < |s.tokens| && s.tokens[i].familyId == f
        ensures Serve(s, Refresh(s.tokens[i].secret), c) == (s, Rejected(InvalidRefreshToken))
      {
        RevokedForGood(s, [], i, c);
      }
    }
  }

  // -------------------------------------------------------------------- family sizes

  /** Does this request rotate a token of family `f`? */
  predicate Rotates(s: State, t: Turn, f: FamilyId) {
    var change := ChangeOf(s, t.request, t.context);
    change.RotatedAt? && change.k < |s.tokens| && s.tokens[change.k].familyId == f
  }

  ghost function Refreshes(s: State, turns: seq<Turn>, f: FamilyId): nat
    decreases |turns|
  {
    if turns == [] then 0 else Refreshes(Next(s, turns[0]), turns[1..], f) + if Rotates(s, turns[0], f) then 1 else 0
  }

  function Founded(ts: seq<Token>, f: FamilyId): nat {
    if Known(ts, f) then 1 else 0
  }

  lemma KnownAppend(ts: seq<Token>, t: Token, f: FamilyId)
    ensures Known(ts + [t], f) <==> Known(ts, f) || t.familyId == f
  {
    var us := ts + [t];
    if Known(us, f) {
      var i :| 0 <= i < |us| && us[i].familyId == f;
      assert i < |ts| ==> ts[i] == us[i];
    }
    if Known(ts, f) {
      var i :| 0 <= i < |ts| && ts[i].familyId == f;
      assert us[i] == ts[i];
    }
    assert us[|ts|] == t;
  }

  lemma AddedGrows(ts: seq<Token>, t: Token, f: FamilyId)
    requires !Known(ts, t.familyId)
    ensures FamilySize(ts + [t], f) + Founded(ts, f) == FamilySize(ts, f) + Founded(ts + [t], f)
  {
    KnownAppend(ts, t, f);
    AddedToFamily(ts, t, f);
  }

  lemma RotatedGrows(ts: seq<Token>, k: nat, c: Context, f: FamilyId)
    requires k < |ts|
    ensures var ts' := Rotate(ts, k, c.secret, c.now + c.ttl);
      && FamilySize(ts', f) == FamilySize(ts, f) + (if ts[k].familyId == f then 1 else 0)
      && Founded(ts', f) == Founded(ts, f)
  {
    var marked := ts[k := ts[k].(status := RotatedToken, replacedBy := Some(|ts|))];
    var t := NewToken(ts[k].tenantId, ts[k].userId, ts[k].familyId, c.secret, c.now + c.ttl);
    SameFamilies(ts, marked, f);
    SameKnown(ts, marked, f);
    AddedToFamily(marked, t, f);
    KnownAppend(marked, t, f);
    assert ts[k].familyId == f ==> Known(ts, f);
  }

  lemma SameKnown(ts: seq<Token>, us: seq<Token>, f: FamilyId)
    requires |ts| == |us| && forall i :: 0 <= i < |ts| ==> us[i].familyId == ts[i].familyId
    ensures Known(us, f) == Known(ts, f)
  {
    if Known(ts, f) {
      var i :| 0 <= i < |ts| && ts[i].familyId == f;
      assert us[i].familyId == f;
    }
    if Known(us, f) {
      var i :| 0 <= i < |us| && us[i].familyId == f;
      assert ts[i].familyId == f;
    }
  }

  lemma ChangeGrows(ts: seq<Token>, change: Change, c: Context, f: FamilyId)
    requires ChangeFits(ts, change) && !Known(ts, c.familyId)
    requires change.Added? ==> change.token.familyId == c.familyId
    ensures var ts' := Changed(ts, change, c);
      FamilySize(ts', f) + Founded(ts, f)
      == FamilySize(ts, f) + Founded(ts', f) + if change.RotatedAt? && ts[change.k].familyId == f then 1 else 0
  {
    match change {
      case Kept =>
      case Added(t) => AddedGrows(ts, t, f);
      case RotatedAt(k) => RotatedGrows(ts, k, c, f);
      case RevokedBy(scope) =>
        SameFamilies(ts, Revoke(ts, scope, c.now), f);
        SameKnown(ts, Revoke(ts, scope, c.now), f);
    }
  }

  /** A family is founded with one token and has one more for each successful refresh. */
  lemma {:induction false} FamilyCountsRefreshes(s: State, turns: seq<Turn>, f: FamilyId)
    requires Possible(s, turns)
    ensures var s' := After(s, turns);
      FamilySize(s'.tokens, f) + Founded(s.tokens, f)
      == FamilySize(s.tokens, f) + Founded(s'.tokens, f) + Refreshes(s, turns, f)
    decreases |turns|
  {
    if turns != [] {
      var t := turns[0];
      TokensChange(s, t.request, t.context);
      ChangeGrows(s.tokens, ChangeOf(s, t.request, t.context), t.context, f);
      FamilyCountsRefreshes(Next(s, t), turns[1..], f);
    }
  }

  // ----------------------------------------------------------- the credential epoch

  /** The user whose epoch a request ends, if it does. */
  function Bumped(s: State, t: Turn): Option<UserId> {
    var (_, reply) := Serve(s, t.request, t.context);
    if !reply.Done? then None
    else if t.request.ChangePassword? || t.request.RevokeAllSessions? then Some(t.request.access.userId)
    else if t.request.ConfirmReset? then Some(s.resets[t.request.token].userId)
    else None
  }

  ghost function Bumps(s: State, turns: seq<Turn>, u: UserId): nat
    decreases |turns|
  {
    if turns == [] then 0 else Bumps(Next(s, turns[0]), turns[1..], u) + if Bumped(s, turns[0]) == Some(u) then 1 else 0
  }

  lemma BumpingStep(s: State, t: Turn, u: UserId)
    requires u in s.users && Bumped(s, t).Some?
    ensures var (s', _) := Serve(s, t.request, t.context);
      u in s'.users && s'.users[u].version == s.users[u].version + if Bumped(s, t) == Some(u) then 1 else 0
  {
  }

  lemma QuietStep(s: State, t: Turn, u: UserId)
    requires u in s.users && Bumped(s, t).None?
    ensures var (s', _) := Serve(s, t.request, t.context);
      u in s'.users && s'.users[u].version == s.users[u].version
  {
  }

  lemma VersionStep(s: State, t: Turn, u: UserId)
    requires u in s.users
    ensures u in Next(s, t).users
    ensures Next(s, t).users[u].version == s.users[u].version + if Bumped(s, t) == Some(u) then 1 else 0
  {
    if Bumped(s, t).Some? { BumpingStep(s, t, u); } else { QuietStep(s, t, u); }
  }

  lemma {:induction false} VersionCountsBumps(s: State, turns: seq<Turn>, u: UserId)
    requires u in s.users
    ensures u in After(s, turns).users
    ensures After(s, turns).users[u].version == s.users[u].version + Bumps(s, turns, u)
    decreases |turns|
  {
    if turns != [] {
      VersionStep(s, turns[0], u);
      VersionCountsBumps(Next(s, turns[0]), turns[1..], u);
    }
  }

  /** Whoever is issued an access token is an existing user, and it carries the current epoch. */
  lemma IssuedInThisEpoch(s: State, t: Turn)
    requires Serve(s, t.request, t.context).1.Issued?
    ensures var a := Serve(s, t.request, t.context).1.access;
      a.userId in Next(s, t).users && a.version == Next(s, t).users[a.userId].version && Accepts(Next(s, t), a)
  {
  }

  /**
   An access token issued now is accepted later exactly if the user is active then and no
   request in between has ended the user's epoch.
   */
  lemma AcceptedWithinItsEpoch(s: State, t: Turn, turns: seq<Turn>)
    requires Serve(s, t.request, t.context).1.Issued?
    ensures var a := Serve(s, t.request, t.context).1.access;
      var s1 := Next(s, t);
      var s2 := After(s1, turns);
      a.userId in s2.users && (Accepts(s2, a) <==> s2.users[a.userId].active && Bumps(s1, turns, a.userId) == 0)
  {
    IssuedInThisEpoch(s, t);
    VersionCountsBumps(Next(s, t), turns, Serve(s, t.request, t.context).1.access.userId);
  }

  lemma BumpRevokes(s: State, t: Turn, u: UserId, i: nat)
    requires Bumped(s, t) == Some(u) && i < |s.tokens| && s.tokens[i].userId == u
    ensures u in s.users
    ensures i < |Next(s, t).tokens| && Next(s, t).tokens[i].status.RevokedToken?
    ensures Next(s, t).tokens[i].secret == s.tokens[i].secret
  {
  }

  /**
   Changing or resetting the password, or logging out everywhere, cuts off everything
   issued before: whatever is requested afterwards, no earlier access token and no
   earlier refresh token of the user is ever accepted again.
   */
  lemma BumpCutsOff(s: State, t: Turn, turns: seq<Turn>, u: UserId, a: Access, i: nat, c: Context)
    requires StateOk(s) && Possible(s, [t] + turns) && Bumped(s, t) == Some(u)
    requires a.userId == u && u in s.users && a.version <= s.users[u].version
    requires i < |s.tokens| && s.tokens[i].userId == u
    ensures var s' := After(Next(s, t), turns);
      && !Accepts(s', a)
      && Serve(s', Refresh(s.tokens[i].secret), c) == (s', Rejected(InvalidRefreshToken))
  {
    assert ([t] + turns)[0] == t && ([t] + turns)[1..] == turns;
    ServeKeeps(s, t.request, t.context);
    VersionStep(s, t, u);
    VersionCountsBumps(Next(s, t), turns, u);
    BumpRevokes(s, t, u, i);
    RevokedForGood(Next(s, t), turns, i, c);
  }

  /** What was issued anywhere earlier in a history is of no later epoch. */
  lemma EarlierIsOld(s: State, t: Turn, turns: seq<Turn>)
    requires Serve(s, t.request, t.context).1.Issued?
    ensures var a := Serve(s, t.request, t.context).1.access;
      var s' := After(Next(s, t), turns);
      a.userId in s'.users && a.version <= s'.users[a.userId].version
  {
    IssuedInThisEpoch(s, t);
    VersionCountsBumps(Next(s, t), turns, Serve(s, t.request, t.context).1.access.userId);
  }

  // ---------------------------------------------------------------- whose credentials

  /** What a request must have proved before a pair of tokens is issued. */
  predicate Entitled(s: State, q: Request, c: Context, a: Access) {
    match q
    case Login(u, password, tenant) =>
      && u == a.userId && u in s.users && s.users[u].password == Some(password)
      && (if tenant.Some? then a.tenantId == tenant.value else Memberships(s, u) == [a.tenantId])
    case Refresh(secret) =>
      exists i :: 0 <= i < |s.tokens| && s.tokens[i].secret == secret && s.tokens[i].status.ActiveToken?
        && c.now < s.tokens[i].expiresAt && s.tokens[i].userId == a.userId && s.tokens[i].tenantId == a.tenantId
    case SwitchTenant(access, tenantId) => Accepts(s, access) && access.userId == a.userId && a.tenantId == tenantId
    case _ => false
  }

  /**
   Tokens are issued only to an active user, for a tenant the user is a member of, and
   only for the password, an active refresh token, or an access token of this epoch.
   */
  lemma IssuedOnlyIfEntitled(s: State, q: Request, c: Context)
    requires FamiliesOk(s.tokens) && Serve(s, q, c).1.Issued?
    ensures var a := Serve(s, q, c).1.access;
      && a.userId in s.users && s.users[a.userId].active && IsMember(s, a.tenantId, a.userId)
      && Entitled(s, q, c, a)
  {
    if q.Refresh? {
      var k := Find(s.tokens, q.secret).value;
      assert s.tokens[k].secret == q.secret;
    }
  }

  predicate Authenticated(q: Request) {
    q.Logout? || q.SwitchTenant? || q.ChangePassword? || q.RevokeSession? || q.RevokeAllSessions?
  }

  /** Whatever a user asks for, knowing whichever secret or token id, other users' tokens stay as they are. */
  lemma OnlyOwnTokens(s: State, q: Request, c: Context, i: nat)
    requires FamiliesOk(s.tokens) && Authenticated(q)
    requires i < |s.tokens| && s.tokens[i].userId != q.access.userId
    ensures var s' := Serve(s, q, c).0; i < |s'.tokens| && s'.tokens[i] == s.tokens[i]
  {
    TokensChange(s, q, c);
    var change := ChangeOf(s, q, c);
    if change.RevokedBy? && change.scope.OfFamily? {
      var k := if q.Logout? then Find(s.tokens, q.secret).value else q.tokenId;
      assert Kin(s.tokens[i], s.tokens[k]);
    }
  }

  /** Which of the caller's tokens a logout or a session revocation is about. */
  predicate Ends(s: State, q: Request, i: nat)
    requires i < |s.tokens|
  {
    || (q.Logout? && s.tokens[i].secret == q.secret && s.tokens[i].userId == q.access.userId)
    || (q.RevokeSession? && i == q.tokenId && s.tokens[i].userId == q.access.userId)
  }

  /** Logging out, or revoking a session, kills the family (and `DeadForGood` says what that means). */
  lemma SessionEnds(s: State, q: Request, c: Context, i: nat)
    requires FamiliesOk(s.tokens) && i < |s.tokens| && Ends(s, q, i)
    requires Serve(s, q, c).1.Done?
    ensures Dead(Serve(s, q, c).0.tokens, s.tokens[i].familyId)
  {
    var s' := Serve(s, q, c).0;
    if q.Logout? { assert Find(s.tokens, q.secret) == Some(i); }
    assert s'.tokens == Revoke(s.tokens, OfFamily(s.tokens[i].familyId), c.now);
    assert s'.tokens[i].familyId == s.tokens[i].familyId;
  }

  /** After that, whatever is requested, none of the family's secrets is ever accepted again. */
  lemma SessionEndsForGood(s: State, t: Turn, turns: seq<Turn>, i: nat)
    requires StateOk(s) && Possible(s, [t] + turns)
    requires i < |s.tokens| && Ends(s, t.request, i) && Serve(s, t.request, t.context).1.Done?
    ensures var s' := After(Next(s, t), turns);
      && Dead(s'.tokens, s.tokens[i].familyId)
      && forall j, c :: 0 <= j < |s'.tokens| && s'.tokens[j].familyId == s.tokens[i].familyId ==>
           Serve(s', Refresh(s'.tokens[j].secret), c) == (s', Rejected(InvalidRefreshToken))
  {
    assert ([t] + turns)[0] == t && ([t] + turns)[1..] == turns;
    ServeKeeps(s, t.request, t.context);
    SessionEnds(s, t.request, t.context, i);
    DeadForGood(Next(s, t), turns, s.tokens[i].familyId);
  }

  // -------------------------------------------------------------- passwords and links

  /** The user whose password a request replaces, if it does. */
  function Rekeyed(s: State, t: Turn): Option<UserId> {
    if t.request.RevokeAllSessions? then None else Bumped(s, t)
  }

  ghost function Rekeys(s: State, turns: seq<Turn>, u: UserId): nat
    decreases |turns|
  {
    if turns == [] then 0
    else Rekeys(Next(s, turns[0]), turns[1..], u) + if Rekeyed(s, turns[0]) == Some(u) then 1 else 0
  }

  lemma PasswordStep(s: State, t: Turn, u: UserId)
    requires u in s.users && Rekeyed(s, t) != Some(u)
    ensures u in Next(s, t).users && Next(s, t).users[u].password == s.users[u].password
  {
  }

  lemma {:induction false} PasswordStays(s: State, turns: seq<Turn>, u: UserId)
    requires u in s.users && Rekeys(s, turns, u) == 0
    ensures u in After(s, turns).users && After(s, turns).users[u].password == s.users[u].password
    decreases |turns|
  {
    if turns != [] {
      PasswordStep(s, turns[0], u);
      PasswordStays(Next(s, turns[0]), turns[1..], u);
    }
  }

  /**
   From a password change or reset up to the next one, whatever else is requested, a login
   is refused for its credentials if and only if it does not use the new password.
   */
  lemma NewPasswordTakesOver(
      s: State, t: Turn, turns: seq<Turn>, u: UserId, password: Password, tenant: Option<TenantId>, c: Context)
    requires Bumped(s, t) == Some(u) && (t.request.ChangePassword? || t.request.ConfirmReset?)
    requires Rekeys(Next(s, t), turns, u) == 0
    ensures Serve(After(Next(s, t), turns), Login(u, password, tenant), c).1 == Rejected(InvalidCredentials)
      <==> password != t.request.replacement
  {
    RekeyTakes(s, t, u);
    PasswordStays(Next(s, t), turns, u);
  }

  lemma RekeyTakes(s: State, t: Turn, u: UserId)
    requires Bumped(s, t) == Some(u) && (t.request.ChangePassword? || t.request.ConfirmReset?)
    ensures u in Next(s, t).users && Next(s, t).users[u].password == Some(t.request.replacement)
  {
  }

  lemma ConsumedStep(s: State, t: Turn, link: Secret)
    requires Drawn(s, t.context) && link in s.resets && s.resets[link].consumed
    ensures link in Next(s, t).resets && Next(s, t).resets[link].consumed
  {
  }

  /** A consumed reset link never works again. */
  lemma {:induction false} ConsumedForGood(
      s: State, turns: seq<Turn>, link: Secret, replacement: Password, acceptable: bool, c: Context)
    requires Possible(s, turns) && link in s.resets && s.resets[link].consumed
    ensures
      Serve(After(s, turns), ConfirmReset(link, replacement, acceptable), c).1 == Rejected(InvalidVerificationToken)
    decreases |turns|
  {
    if turns != [] {
      ConsumedStep(s, turns[0], link);
      ConsumedForGood(Next(s, turns[0]), turns[1..], link, replacement, acceptable, c);
    }
  }

  /**
   A reset link is used up by its use, and by the next request for one: of a user's
   links that have not expired, only the newest can ever work.
   */
  lemma LinksAreUsedUp(s: State, t: Turn, link: Secret)
    requires Drawn(s, t.context) && link in s.resets && Serve(s, t.request, t.context).1.Done?
    requires
      || (t.request.ConfirmReset? && t.request.token == link)
      || (t.request.RequestReset? && t.request.userId == s.resets[link].userId
          && t.request.userId in s.users && s.users[t.request.userId].active
          && t.context.now < s.resets[link].expiresAt)
    ensures link in Next(s, t).resets && Next(s, t).resets[link].consumed
  {
  }

  /** So a used or superseded link is refused for ever: of a user's links only the newest can ever work. */
  lemma OldLinksNeverWork(
      s: State, t: Turn, turns: seq<Turn>, link: Secret, replacement: Password, acceptable: bool, c: Context)
    requires Possible(s, [t] + turns) && link in s.resets && Serve(s, t.request, t.context).1.Done?
    requires
      || (t.request.ConfirmReset? && t.request.token == link)
      || (t.request.RequestReset? && t.request.userId == s.resets[link].userId
          && t.request.userId in s.users && s.users[t.request.userId].active
          && t.context.now < s.resets[link].expiresAt)
    ensures Serve(After(Next(s, t), turns), ConfirmReset(link, replacement, acceptable), c).1
      == Rejected(InvalidVerificationToken)
  {
    assert ([t] + turns)[0] == t && ([t] + turns)[1..] == turns;
    LinksAreUsedUp(s, t, link);
    ConsumedForGood(Next(s, t), turns, link, replacement, acceptable, c);
  }

  // -------------------------------------------------------------- from an empty table

  /** Users exist, nobody has logged in yet. */
  function Opening(users: map<UserId, User>, members: map<UserId, seq<TenantId>>): State {
    State(users, members, [], map[], [])
  }

  /**
   Every history: families keep their shape, a family has one token more than it had
   successful refreshes, and at most one reuse of it has been recorded, if it is dead.
   */
  lemma FamiliesInEveryHistory(
      users: map<UserId, User>, members: map<UserId, seq<TenantId>>, turns: seq<Turn>, f: FamilyId)
    requires Possible(Opening(users, members), turns)
    ensures var s := After(Opening(users, members), turns);
      && FamiliesOk(s.tokens)
      && (Known(s.tokens, f) ==> FamilySize(s.tokens, f) == 1 + Refreshes(Opening(users, members), turns, f))
      && Reuses(s.audit, f) <= (if Dead(s.tokens, f) then 1 else 0)
  {
    var start := Opening(users, members);
    assert StateOk(start);
    HistoryKeeps(start, turns);
    FamilyCountsRefreshes(start, turns, f);
    assert ReuseOk(After(start, turns), f);
  }
}
