/** Sequences of distinct identifiers: the lists of sessions and of waiters. */
module Sequences {

  predicate Distinct(s: seq<nat>) {
    forall i, j :: 0 <= i < j < |s| ==> s[i] != s[j]
  }

  /** `s` without the first `x`. */
  function Without(s: seq<nat>, x: nat): seq<nat> {
    if s == [] then [] else if s[0] == x then s[1..] else [s[0]] + Without(s[1..], x)
  }

  lemma {:induction false} WithoutRemoves(s: seq<nat>, x: nat)
    requires Distinct(s)
    ensures Distinct(Without(s, x))
    ensures forall y :: y in Without(s, x) <==> y in s && y != x
    ensures |Without(s, x)| == if x in s then |s| - 1 else |s|
  {
    if s != [] && s[0] != x {
      WithoutRemoves(s[1..], x);
      var rest := Without(s[1..], x);
      assert s == [s[0]] + s[1..];
      assert s[0] !in s[1..];
      assert forall i :: 0 <= i < |rest| ==> rest[i] in rest;
    } else if s != [] {
      assert s == [x] + s[1..];
    }
  }

  /** Erasing the position a front-to-back search stops at is `Without`. */
  lemma {:induction false} ErasedIsWithout(s: seq<nat>, i: nat)
    requires i < |s| && s[i] !in s[..i]
    ensures s[..i] + s[i + 1..] == Without(s, s[i])
  {
    if i > 0 {
      assert s[0] in s[..i];
      assert s[1..][..i - 1] == s[..i][1..];
      ErasedIsWithout(s[1..], i - 1);
      assert s[..i] + s[i + 1..] == [s[0]] + (s[1..][..i - 1] + s[1..][i..]);
    }
  }

  lemma AppendDistinct(s: seq<nat>, x: nat)
    requires Distinct(s) && x !in s
    ensures Distinct(s + [x])
  {
    assert forall i :: 0 <= i < |s| ==> s[i] in s;
  }

  /** `x` comes ahead of `y` in `s`. */
  predicate Before(s: seq<nat>, x: nat, y: nat) {
    exists i, j :: 0 <= i < j < |s| && s[i] == x && s[j] == y
  }

  lemma {:induction false} WithoutKeepsOrder(s: seq<nat>, z: nat, x: nat, y: nat)
    requires Before(s, x, y) && z != x && z != y
    ensures Before(Without(s, z), x, y)
  {
    var i, j :| 0 <= i < j < |s| && s[i] == x && s[j] == y;
    if s[0] == z {
      assert s[1..][i - 1] == x && s[1..][j - 1] == y;
    } else if i > 0 {
      assert s[1..][i - 1] == x && s[1..][j - 1] == y;
      WithoutKeepsOrder(s[1..], z, x, y);
      var rest := Without(s[1..], z);
      var k, l :| 0 <= k < l < |rest| && rest[k] == x && rest[l] == y;
      assert Without(s, z)[k + 1] == x && Without(s, z)[l + 1] == y;
    } else {
      StaysIn(s[1..], z, y);
      assert s[1..][j - 1] == y;
      var rest := Without(s[1..], z);
      var l :| 0 <= l < |rest| && rest[l] == y;
      assert Without(s, z)[0] == x && Without(s, z)[l + 1] == y;
    }
  }

  lemma {:induction false} StaysIn(s: seq<nat>, z: nat, y: nat)
    requires z != y
    ensures y in s ==> y in Without(s, z)
  {
    if s != [] && s[0] != z { StaysIn(s[1..], z, y); }
  }

  lemma AppendKeepsOrder(s: seq<nat>, z: nat, x: nat, y: nat)
    requires x in s && (y in s ==> Before(s, x, y)) && y in s + [z]
    ensures Before(s + [z], x, y)
  {
    if y in s {
      var i, j :| 0 <= i < j < |s| && s[i] == x && s[j] == y;
      assert (s + [z])[i] == x && (s + [z])[j] == y;
    } else {
      var i :| 0 <= i < |s| && s[i] == x;
      assert (s + [z])[i] == x && (s + [z])[|s|] == y;
    }
  }

  lemma SmallerSet(a: set<nat>, b: set<nat>)
    requires a <= b
    ensures |a| <= |b|
    ensures a != b ==> |a| < |b|
  {
    assert b == a + (b - a);
    if a != b { assert b - a != {}; }
  }
}
