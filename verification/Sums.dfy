/** Sums of an integer quantity over a sequence. Every counter in the system is compared with one. */
module Sums {

  function Sum<T>(s: seq<T>, f: T -> int): int {
    if s == [] then 0 else f(s[0]) + Sum(s[1..], f)
  }

  lemma {:induction false} SumConcat<T>(s: seq<T>, u: seq<T>, f: T -> int)
    ensures Sum(s + u, f) == Sum(s, f) + Sum(u, f)
  {
    if s == [] {
      assert s + u == u;
    } else {
      assert (s + u)[1..] == s[1..] + u;
      SumConcat(s[1..], u, f);
    }
  }

  lemma {:induction false} SumUpdate<T>(s: seq<T>, i: nat, x: T, f: T -> int)
    requires i < |s|
    ensures Sum(s[i := x], f) == Sum(s, f) - f(s[i]) + f(x)
  {
    if i == 0 {
      assert s[0 := x][1..] == s[1..];
    } else {
      assert s[i := x][1..] == s[1..][i - 1 := x];
      SumUpdate(s[1..], i - 1, x, f);
    }
  }

  lemma SumPrepend<T>(x: T, s: seq<T>, f: T -> int)
    ensures Sum([x] + s, f) == f(x) + Sum(s, f)
  {
    assert ([x] + s)[1..] == s;
  }

  lemma SumAppend<T>(s: seq<T>, x: T, f: T -> int)
    ensures Sum(s + [x], f) == Sum(s, f) + f(x)
  {
    SumConcat(s, [x], f);
  }

  lemma SumRemove<T>(s: seq<T>, i: nat, f: T -> int)
    requires i < |s|
    ensures Sum(s[..i] + s[i + 1..], f) == Sum(s, f) - f(s[i])
  {
    SumConcat(s[..i], s[i + 1..], f);
    SumPrepend(s[i], s[i + 1..], f);
    SumConcat(s[..i], [s[i]] + s[i + 1..], f);
    assert s == s[..i] + ([s[i]] + s[i + 1..]);
  }

  lemma {:induction false} SumAtLeast<T>(s: seq<T>, i: nat, f: T -> int)
    requires i < |s|
    requires forall j | 0 <= j < |s| :: f(s[j]) >= 0
    ensures Sum(s, f) >= f(s[i])
  {
    SumRemove(s, i, f);
    SumNonNegative(s[..i] + s[i + 1..], f);
  }

  lemma {:induction false} SumNonNegative<T>(s: seq<T>, f: T -> int)
    requires forall j | 0 <= j < |s| :: f(s[j]) >= 0
    ensures Sum(s, f) >= 0
  {
    if s != [] {
      SumNonNegative(s[1..], f);
    }
  }

  /** Two different positions cannot both count more than the whole. */
  lemma {:induction false} SumAtLeastTwo<T>(s: seq<T>, i: nat, j: nat, f: T -> int)
    requires i < j < |s|
    requires forall k | 0 <= k < |s| :: f(s[k]) >= 0
    ensures Sum(s, f) >= f(s[i]) + f(s[j])
  {
    SumRemove(s, j, f);
    var r := s[..j] + s[j + 1..];
    assert r[i] == s[i];
    SumAtLeast(r, i, f);
  }

  /** A positive sum has a positive term. */
  lemma {:induction false} SumWitness<T>(s: seq<T>, f: T -> int) returns (i: nat)
    requires Sum(s, f) > 0
    ensures i < |s| && f(s[i]) > 0
  {
    if f(s[0]) > 0 {
      i := 0;
    } else {
      i := SumWitness(s[1..], f);
      i := i + 1;
    }
  }
}
