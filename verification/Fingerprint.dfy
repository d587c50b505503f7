/**
 The fingerprint of a finding: four strings joined by a separator, then hashed.  The
 hash is idealised as injective, so the joined string stands for it.
 */
module Fingerprint {

  type Fingerprint = string

  const SEPARATOR := '\U{1F}'

  datatype Identity = Identity(scannerType: string, ruleId: string, locator: string, detail: string)

  function Join(s: string, rest: string): string {
    s + [SEPARATOR] + rest
  }

  function Compute(x: Identity): Fingerprint {
    Join(x.scannerType, Join(x.ruleId, Join(x.locator, x.detail)))
  }

  predicate Plain(s: string) {
    SEPARATOR !in s
  }

  predicate SeparatorFree(x: Identity) {
    Plain(x.scannerType) && Plain(x.ruleId) && Plain(x.locator) && Plain(x.detail)
  }

  function Separators(s: string): nat {
    if s == "" then 0 else Separators(s[1..]) + if s[0] == SEPARATOR then 1 else 0
  }

  lemma {:induction false} SeparatorsAdd(s: string, t: string)
    ensures Separators(s + t) == Separators(s) + Separators(t)
  {
    if s == "" {
      assert s + t == t;
    } else {
      assert (s + t)[1..] == s[1..] + t;
      SeparatorsAdd(s[1..], t);
    }
  }

  lemma {:induction false} PlainHasNone(s: string)
    ensures Plain(s) <==> Separators(s) == 0
  {
    if s != "" {
      PlainHasNone(s[1..]);
      assert s == [s[0]] + s[1..];
    }
  }

  lemma SeparatorsJoin(s: string, rest: string)
    ensures Separators(Join(s, rest)) == Separators(s) + 1 + Separators(rest)
  {
    SeparatorsAdd(s, [SEPARATOR]);
    SeparatorsAdd(s + [SEPARATOR], rest);
    assert [SEPARATOR][1..] == "";
  }

  lemma SeparatorsIn(x: Identity)
    ensures Separators(Compute(x))
      == 3 + Separators(x.scannerType) + Separators(x.ruleId) + Separators(x.locator) + Separators(x.detail)
  {
    SeparatorsJoin(x.locator, x.detail);
    SeparatorsJoin(x.ruleId, Join(x.locator, x.detail));
    SeparatorsJoin(x.scannerType, Join(x.ruleId, Join(x.locator, x.detail)));
  }

  /** Up to the first separator there is only one way to read a string. */
  lemma HeadIsUnique(a: string, x: string, b: string, y: string)
    requires Plain(a) && Plain(b) && Join(a, x) == Join(b, y)
    ensures a == b && x == y
  {
    var s := Join(a, x);
    assert forall i :: 0 <= i < |a| ==> s[i] == a[i];
    assert forall i :: 0 <= i < |b| ==> s[i] == b[i];
    assert s[|a|] == SEPARATOR == s[|b|];
    assert |a| == |b|;
    assert a == s[..|a|] == b;
    assert x == s[|a| + 1..] == y;
  }

  lemma SeparatorFreeIsUnique(x: Identity, y: Identity)
    requires SeparatorFree(x) && Compute(x) == Compute(y)
    ensures x == y
  {
    SeparatorsIn(x);
    SeparatorsIn(y);
    PlainHasNone(x.scannerType); PlainHasNone(x.ruleId); PlainHasNone(x.locator); PlainHasNone(x.detail);
    PlainHasNone(y.scannerType); PlainHasNone(y.ruleId); PlainHasNone(y.locator); PlainHasNone(y.detail);
    HeadIsUnique(x.scannerType, Join(x.ruleId, Join(x.locator, x.detail)),
                 y.scannerType, Join(y.ruleId, Join(y.locator, y.detail)));
    HeadIsUnique(x.ruleId, Join(x.locator, x.detail), y.ruleId, Join(y.locator, y.detail));
    HeadIsUnique(x.locator, x.detail, y.locator, y.detail);
  }

  /** The position of a separator in a string that is not plain. */
  function Position(s: string): (i: nat)
    requires !Plain(s)
    ensures i < |s| && s[i] == SEPARATOR
  {
    if s[0] == SEPARATOR then 0 else 1 + Position(s[1..])
  }

  /** Another identity with the same fingerprint: a separator inside a component changes its role. */
  function Twin(x: Identity): Identity
    requires !SeparatorFree(x)
  {
    if !Plain(x.scannerType) then
      var i := Position(x.scannerType);
      x.(scannerType := x.scannerType[..i], ruleId := Join(x.scannerType[i + 1..], x.ruleId))
    else if !Plain(x.ruleId) then
      var i := Position(x.ruleId);
      x.(ruleId := x.ruleId[..i], locator := Join(x.ruleId[i + 1..], x.locator))
    else if !Plain(x.locator) then
      var i := Position(x.locator);
      x.(locator := x.locator[..i], detail := Join(x.locator[i + 1..], x.detail))
    else
      var i := Position(x.detail);
      x.(locator := Join(x.locator, x.detail[..i]), detail := x.detail[i + 1..])
  }

  lemma JoinAssociates(s: string, t: string, rest: string)
    ensures Join(Join(s, t), rest) == Join(s, Join(t, rest))
  {
    var n := |s|;
    assert Join(Join(s, t), rest) == s + ([SEPARATOR] + t + [SEPARATOR] + rest);
    assert Join(s, Join(t, rest)) == s + ([SEPARATOR] + (t + [SEPARATOR] + rest));
    assert [SEPARATOR] + (t + [SEPARATOR] + rest) == [SEPARATOR] + t + [SEPARATOR] + rest;
  }

  lemma SplitAt(s: string, i: nat)
    requires i < |s| && s[i] == SEPARATOR
    ensures s == Join(s[..i], s[i + 1..])
  {
  }

  lemma TwinCollides(x: Identity)
    requires !SeparatorFree(x)
    ensures Twin(x) != x && Compute(Twin(x)) == Compute(x)
  {
    if !Plain(x.scannerType) {
      var i := Position(x.scannerType);
      SplitAt(x.scannerType, i);
      JoinAssociates(x.scannerType[..i], x.scannerType[i + 1..], Join(x.ruleId, Join(x.locator, x.detail)));
      JoinAssociates(x.scannerType[i + 1..], x.ruleId, Join(x.locator, x.detail));
    } else if !Plain(x.ruleId) {
      var i := Position(x.ruleId);
      SplitAt(x.ruleId, i);
      JoinAssociates(x.ruleId[..i], x.ruleId[i + 1..], Join(x.locator, x.detail));
      JoinAssociates(x.ruleId[i + 1..], x.locator, x.detail);
    } else if !Plain(x.locator) {
      var i := Position(x.locator);
      SplitAt(x.locator, i);
      JoinAssociates(x.locator[..i], x.locator[i + 1..], x.detail);
    } else {
      var i := Position(x.detail);
      SplitAt(x.detail, i);
      JoinAssociates(x.locator, x.detail[..i], x.detail[i + 1..]);
    }
  }

  /**
   A fingerprint identifies a finding exactly when none of its four components contains
   the separator; one that does contain it shares its fingerprint with another finding.
   */
  lemma UniqueIffSeparatorFree(x: Identity)
    ensures (forall y :: Compute(y) == Compute(x) ==> y == x) <==> SeparatorFree(x)
  {
    if SeparatorFree(x) {
      forall y | Compute(y) == Compute(x) ensures y == x { SeparatorFreeIsUnique(x, y); }
    } else {
      TwinCollides(x);
    }
  }

  /** Two different findings of one scanner that would be taken for the same one. */
  lemma CollidingPair() returns (x: Identity, y: Identity)
    ensures x != y && x.scannerType == y.scannerType && Compute(x) == Compute(y)
    ensures x == Identity("nmap", "rule", "a\U{1F}b", "c")
  {
    x := Identity("nmap", "rule", "a\U{1F}b", "c");
    y := Twin(x);
    TwinCollides(x);
    assert x.locator[1] == SEPARATOR;
    assert !Plain(x.locator);
  }
}
