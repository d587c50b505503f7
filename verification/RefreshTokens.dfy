/**
 Refresh tokens as values: what creating, rotating and revoking them does to the table,
 and the shape every family keeps.  The table is in order of creation and a token's key
 is its index.  The hash of a secret is idealised as injective, so a row carries the
 secret itself.
 */
module RefreshTokens {
  import opened ScanModel

  type UserId = nat
  type TenantId = nat
  type FamilyId = nat
  type Secret = nat

  datatype TokenStatus = ActiveToken | RotatedToken | RevokedToken

  datatype Token = Token(
    tenantId: TenantId,
    userId: UserId,
    familyId: FamilyId,
    secret: Secret,
    expiresAt: Time,
    status: TokenStatus,
    replacedBy: Option<nat>,
    revokedAt: Option<Time>)

  function NewToken(tenantId: TenantId, userId: UserId, familyId: FamilyId, secret: Secret, expiresAt: Time): Token {
    Token(tenantId, userId, familyId, secret, expiresAt, ActiveToken, None, None)
  }

  /** What a `revoke_*` query selects by. */
  datatype Scope = OfFamily(familyId: FamilyId) | OfUser(userId: UserId) {
    predicate Covers(t: Token) {
      match this
      case OfFamily(f) => t.familyId == f
      case OfUser(u) => t.userId == u
    }
  }

  function MarkRevoked(t: Token, now: Time): Token {
    if t.status.RevokedToken? then t else t.(status := RevokedToken, revokedAt := Some(now))
  }

  function Revoke(ts: seq<Token>, scope: Scope, now: Time): (r: seq<Token>)
    ensures |r| == |ts|
    ensures forall i :: 0 <= i < |ts| ==> r[i] == if scope.Covers(ts[i]) then MarkRevoked(ts[i], now) else ts[i]
  {
    seq(|ts|, i requires 0 <= i < |ts| => if scope.Covers(ts[i]) then MarkRevoked(ts[i], now) else ts[i])
  }

  /** How many tokens a `revoke_*` changes. */
  function Revocable(ts: seq<Token>, scope: Scope): nat {
    if ts == [] then 0
    else
      var last := ts[|ts| - 1];
      Revocable(ts[..|ts| - 1], scope) + if scope.Covers(last) && !last.status.RevokedToken? then 1 else 0
  }

  /** The keys of the tokens a `revoke_*` is about and that are not REVOKED yet. */
  function StillToRevoke(ts: seq<Token>, scope: Scope): set<nat> {
    set i: nat | i < |ts| && ts[i].status != RevokedToken
      && if scope.OfFamily? then ts[i].familyId == scope.familyId else ts[i].userId == scope.userId
  }

  lemma OneMoreToRevoke(ts: seq<Token>, scope: Scope)
    requires ts != []
    ensures var n := |ts| - 1;
      var last := ts[n].status != RevokedToken
        && if scope.OfFamily? then ts[n].familyId == scope.familyId else ts[n].userId == scope.userId;
      StillToRevoke(ts, scope) == StillToRevoke(ts[..n], scope) + if last then {n} else {}
  {
    var n := |ts| - 1;
    forall i: nat | i < n ensures i in StillToRevoke(ts, scope) <==> i in StillToRevoke(ts[..n], scope) {
      assert ts[..n][i] == ts[i];
    }
  }

  lemma {:induction false} RevocableCounts(ts: seq<Token>, scope: Scope)
    ensures Revocable(ts, scope) == |StillToRevoke(ts, scope)|
  {
    if ts == [] {
      assert StillToRevoke(ts, scope) == {};
    } else {
      RevocableCounts(ts[..|ts| - 1], scope);
      OneMoreToRevoke(ts, scope);
    }
  }

  /** The replacement is added first; then the old token points to it. */
  function Rotate(ts: seq<Token>, k: nat, secret: Secret, expiresAt: Time): seq<Token>
    requires k < |ts|
  {
    ts[k := ts[k].(status := RotatedToken, replacedBy := Some(|ts|))]
    + [NewToken(ts[k].tenantId, ts[k].userId, ts[k].familyId, secret, expiresAt)]
  }

  /** The key of the token with a secret. */
  function Find(ts: seq<Token>, secret: Secret): (k: Option<nat>)
    ensures k.Some? ==> k.value < |ts| && ts[k.value].secret == secret
    ensures k.None? ==> forall i :: 0 <= i < |ts| ==> ts[i].secret != secret
  {
    if ts == [] then None
    else if ts[|ts| - 1].secret == secret then Some(|ts| - 1)
    else Find(ts[..|ts| - 1], secret)
  }

  // -------------------------------------------------------------------- the shape

  /** Is `j` the first token of `i`'s family created after `i`? */
  predicate Successor(ts: seq<Token>, i: nat, j: nat)
    requires i < |ts|
  {
    && i < j < |ts| && ts[j].familyId == ts[i].familyId
    && forall k :: i < k < j ==> ts[k].familyId != ts[i].familyId
  }

  predicate Newest(ts: seq<Token>, i: nat)
    requires i < |ts|
  {
    forall k :: i < k < |ts| ==> ts[k].familyId != ts[i].familyId
  }

  /** `replaced_by_id` links every token to the next of its family, and to nothing else. */
  predicate LinkOk(ts: seq<Token>, i: nat)
    requires i < |ts|
  {
    match ts[i].replacedBy
    case None => Newest(ts, i)
    case Some(j) => Successor(ts, i, j)
  }

  /** In a family that is not revoked, the newest token is ACTIVE and all others are ROTATED. */
  predicate StatusOk(ts: seq<Token>, i: nat)
    requires i < |ts|
  {
    match ts[i].status
    case ActiveToken => ts[i].replacedBy.None?
    case RotatedToken => ts[i].replacedBy.Some?
    case RevokedToken => true
  }

  /** A family has one user and one tenant, and is revoked as a whole. */
  predicate Kin(t: Token, u: Token) {
    t.familyId == u.familyId ==>
      t.userId == u.userId && t.tenantId == u.tenantId && (t.status.RevokedToken? <==> u.status.RevokedToken?)
  }

  ghost predicate FamiliesOk(ts: seq<Token>) {
    && (forall i :: 0 <= i < |ts| ==> LinkOk(ts, i) && StatusOk(ts, i))
    && (forall i, j :: 0 <= i < |ts| && 0 <= j < |ts| ==> Kin(ts[i], ts[j]))
    && (forall i, j :: 0 <= i < j < |ts| ==> ts[i].secret != ts[j].secret)
  }

  /** Does any token belong to the family? */
  predicate Known(ts: seq<Token>, f: FamilyId) {
    exists i :: 0 <= i < |ts| && ts[i].familyId == f
  }

  predicate Dead(ts: seq<Token>, f: FamilyId) {
    Known(ts, f) && forall i :: 0 <= i < |ts| && ts[i].familyId == f ==> ts[i].status.RevokedToken?
  }

  predicate Fresh(ts: seq<Token>, secret: Secret) {
    forall i :: 0 <= i < |ts| ==> ts[i].secret != secret
  }

  lemma CreateKeeps(ts: seq<Token>, t: Token)
    requires FamiliesOk(ts) && !Known(ts, t.familyId) && Fresh(ts, t.secret)
    requires t.status.ActiveToken? && t.replacedBy.None?
    ensures FamiliesOk(ts + [t])
  {
    var ts' := ts + [t];
    forall i | 0 <= i < |ts'| ensures LinkOk(ts', i) && StatusOk(ts', i) {
      if i < |ts| { assert LinkOk(ts, i) && StatusOk(ts, i) && ts[i].familyId != t.familyId; }
    }
    forall i, j | 0 <= i < |ts'| && 0 <= j < |ts'| ensures Kin(ts'[i], ts'[j]) {
      if i < |ts| && j < |ts| { assert Kin(ts[i], ts[j]); }
    }
  }

  lemma RotateKeeps(ts: seq<Token>, k: nat, secret: Secret, expiresAt: Time)
    requires FamiliesOk(ts) && k < |ts| && ts[k].status.ActiveToken? && Fresh(ts, secret)
    ensures FamiliesOk(Rotate(ts, k, secret, expiresAt))
  {
    var ts' := Rotate(ts, k, secret, expiresAt);
    assert LinkOk(ts, k) && StatusOk(ts, k);
    forall i | 0 <= i < |ts'| ensures LinkOk(ts', i) && StatusOk(ts', i) {
      if i < |ts| { assert LinkOk(ts, i) && StatusOk(ts, i); }
    }
    forall i, j | 0 <= i < |ts'| && 0 <= j < |ts'| ensures Kin(ts'[i], ts'[j]) {
      var i0, j0 := if i < |ts| then i else k, if j < |ts| then j else k;
      assert Kin(ts[i0], ts[j0]);
    }
  }

  lemma RevokeKeeps(ts: seq<Token>, scope: Scope, now: Time)
    requires FamiliesOk(ts)
    ensures FamiliesOk(Revoke(ts, scope, now))
  {
    var ts' := Revoke(ts, scope, now);
    forall i | 0 <= i < |ts'| ensures LinkOk(ts', i) && StatusOk(ts', i) {
      assert LinkOk(ts, i) && StatusOk(ts, i);
    }
    forall i, j | 0 <= i < |ts'| && 0 <= j < |ts'| ensures Kin(ts'[i], ts'[j]) {
      assert Kin(ts[i], ts[j]);
    }
  }

  /** Following `replaced_by_id` from any token walks the rest of its family in order, to its newest token. */
  lemma {:induction false} ChainReachesNewest(ts: seq<Token>, i: nat) returns (chain: seq<nat>)
    requires FamiliesOk(ts) && i < |ts|
    ensures chain != [] && chain[0] == i
    ensures forall c :: 0 <= c < |chain| ==> chain[c] < |ts| && ts[chain[c]].familyId == ts[i].familyId
    ensures forall c :: 0 <= c < |chain| - 1 ==> ts[chain[c]].replacedBy == Some(chain[c + 1])
    ensures ts[chain[|chain| - 1]].replacedBy.None?
    ensures forall j :: i <= j < |ts| && ts[j].familyId == ts[i].familyId ==> j in chain
    decreases |ts| - i
  {
    assert LinkOk(ts, i);
    if ts[i].replacedBy.None? {
      chain := [i];
    } else {
      var rest := ChainReachesNewest(ts, ts[i].replacedBy.value);
      chain := [i] + rest;
    }
  }

  /** No two tokens are replaced by the same one: the chain does not merge. */
  lemma ChainIsLinear(ts: seq<Token>, i: nat, j: nat)
    requires FamiliesOk(ts) && i < j < |ts|
    requires ts[i].replacedBy.Some?
    ensures ts[i].replacedBy != ts[j].replacedBy
  {
    assert LinkOk(ts, i) && LinkOk(ts, j);
  }

  /** A live family has exactly one ACTIVE token, its newest: one row per session. */
  lemma OneSessionPerFamily(ts: seq<Token>, i: nat) returns (newest: nat)
    requires FamiliesOk(ts) && i < |ts| && !ts[i].status.RevokedToken?
    ensures newest < |ts| && ts[newest].familyId == ts[i].familyId && ts[newest].userId == ts[i].userId
    ensures ts[newest].status.ActiveToken?
    ensures Newest(ts, newest)
    ensures forall j :: 0 <= j < |ts| && ts[j].familyId == ts[i].familyId && j != newest ==>
      ts[j].status.RotatedToken?
  {
    var chain := ChainReachesNewest(ts, i);
    newest := chain[|chain| - 1];
    assert LinkOk(ts, newest) && StatusOk(ts, newest) && Kin(ts[i], ts[newest]);
    forall j | 0 <= j < |ts| && ts[j].familyId == ts[i].familyId && j != newest ensures ts[j].status.RotatedToken? {
      assert LinkOk(ts, j) && StatusOk(ts, j) && Kin(ts[i], ts[j]);
    }
  }

  function FamilySize(ts: seq<Token>, f: FamilyId): nat {
    if ts == [] then 0
    else FamilySize(ts[..|ts| - 1], f) + if ts[|ts| - 1].familyId == f then 1 else 0
  }

  lemma {:induction false} SameFamilies(ts: seq<Token>, us: seq<Token>, f: FamilyId)
    requires |ts| == |us| && forall i :: 0 <= i < |ts| ==> us[i].familyId == ts[i].familyId
    ensures FamilySize(us, f) == FamilySize(ts, f)
  {
    if ts != [] { SameFamilies(ts[..|ts| - 1], us[..|us| - 1], f); }
  }

  lemma AddedToFamily(ts: seq<Token>, t: Token, f: FamilyId)
    ensures FamilySize(ts + [t], f) == FamilySize(ts, f) + if t.familyId == f then 1 else 0
  {
    assert (ts + [t])[..|ts|] == ts;
  }
}
