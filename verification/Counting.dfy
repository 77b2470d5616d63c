/** Weighted counts of the elements of a sequence. */
module Counting {

  function Total<T>(s: seq<T>, f: T -> nat): nat {
    if |s| == 0 then 0 else f(s[0]) + Total(s[1..], f)
  }

  lemma {:induction false} TotalAppend<T>(a: seq<T>, b: seq<T>, f: T -> nat)
    ensures Total(a + b, f) == Total(a, f) + Total(b, f)
  {
    if |a| == 0 {
      assert a + b == b;
    } else {
      assert (a + b)[1..] == a[1..] + b;
      TotalAppend(a[1..], b, f);
    }
  }

  lemma {:induction false} TotalUpdate<T>(s: seq<T>, i: nat, x: T, f: T -> nat)
    requires i < |s|
    ensures Total(s[i := x], f) == Total(s, f) - f(s[i]) + f(x)
  {
    if i == 0 {
      assert s[i := x][1..] == s[1..];
    } else {
      assert s[i := x][1..] == s[1..][i - 1 := x];
      TotalUpdate(s[1..], i - 1, x, f);
    }
  }

  lemma {:induction false} TotalZero<T>(s: seq<T>, f: T -> nat)
    requires forall i :: 0 <= i < |s| ==> f(s[i]) == 0
    ensures Total(s, f) == 0
  {
    if |s| > 0 {
      TotalZero(s[1..], f);
    }
  }

  /** Two places that count make at least their sum. */
  lemma {:induction false} TotalAtLeast<T>(s: seq<T>, f: T -> nat, i: nat, j: nat)
    requires i <= j < |s|
    ensures Total(s, f) >= if i == j then f(s[i]) else f(s[i]) + f(s[j])
  {
    if i > 0 {
      TotalAtLeast(s[1..], f, i - 1, j - 1);
    } else if j > 0 {
      TotalAtLeast(s[1..], f, j - 1, j - 1);
    }
  }

  /** A positive total has a place that counts. */
  lemma {:induction false} TotalWitness<T>(s: seq<T>, f: T -> nat) returns (i: nat)
    requires Total(s, f) > 0
    ensures i < |s| && f(s[i]) > 0
  {
    if f(s[0]) > 0 {
      return 0;
    }
    i := TotalWitness(s[1..], f);
    i := i + 1;
  }
}
