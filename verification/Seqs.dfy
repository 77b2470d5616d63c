/** Stable filtering, mapping and flattening of sequences. */
module Seqs {

  /** The elements of s that satisfy f, in order. */
  function Filter<T>(s: seq<T>, f: T -> bool): seq<T> {
    if |s| == 0 then [] else (if f(s[0]) then [s[0]] else []) + Filter(s[1..], f)
  }

  lemma {:induction false} FilterAppend<T>(a: seq<T>, b: seq<T>, f: T -> bool)
    ensures Filter(a + b, f) == Filter(a, f) + Filter(b, f)
  {
    if |a| == 0 {
      assert a + b == b;
    } else {
      FilterAppend(a[1..], b, f);
      assert (a + b)[1..] == a[1..] + b;
      var first := if f(a[0]) then [a[0]] else [];
      assert first + (Filter(a[1..], f) + Filter(b, f)) == (first + Filter(a[1..], f)) + Filter(b, f);
    }
  }

  lemma FilterSnoc<T>(a: seq<T>, x: T, f: T -> bool)
    ensures Filter(a + [x], f) == Filter(a, f) + if f(x) then [x] else []
  {
    FilterAppend(a, [x], f);
    assert Filter([x], f) == if f(x) then [x] else [];
  }

  lemma {:induction false} FilterMember<T>(s: seq<T>, f: T -> bool)
    ensures forall x :: x in Filter(s, f) <==> x in s && f(x)
  {
    if |s| > 0 {
      FilterMember(s[1..], f);
      assert s == [s[0]] + s[1..];
    }
  }

  lemma {:induction false} FilterAgree<T>(s: seq<T>, f: T -> bool, g: T -> bool)
    requires forall x :: x in s ==> f(x) == g(x)
    ensures Filter(s, f) == Filter(s, g)
  {
    if |s| > 0 {
      assert s[0] in s;
      FilterAgree(s[1..], f, g);
    }
  }

  lemma {:induction false} FilterNone<T>(s: seq<T>, f: T -> bool)
    requires forall x :: x in s ==> !f(x)
    ensures Filter(s, f) == []
  {
    if |s| > 0 {
      assert s[0] in s;
      FilterNone(s[1..], f);
    }
  }

  lemma {:induction false} FilterAll<T>(s: seq<T>, f: T -> bool)
    requires forall x :: x in s ==> f(x)
    ensures Filter(s, f) == s
  {
    if |s| > 0 {
      assert s[0] in s;
      FilterAll(s[1..], f);
    }
  }

  lemma {:induction false} FilterTwice<T>(s: seq<T>, f: T -> bool, g: T -> bool, both: T -> bool)
    requires forall x :: x in s ==> both(x) == (f(x) && g(x))
    ensures Filter(Filter(s, f), g) == Filter(s, both)
  {
    if |s| > 0 {
      assert s[0] in s;
      FilterTwice(s[1..], f, g, both);
      FilterAppend(if f(s[0]) then [s[0]] else [], Filter(s[1..], f), g);
    }
  }

  function Map<S, T>(s: seq<S>, m: S -> T): (r: seq<T>)
    ensures |r| == |s|
    ensures forall i :: 0 <= i < |s| ==> r[i] == m(s[i])
  {
    if |s| == 0 then [] else [m(s[0])] + Map(s[1..], m)
  }

  lemma MapAppend<S, T>(a: seq<S>, b: seq<S>, m: S -> T)
    ensures Map(a + b, m) == Map(a, m) + Map(b, m)
  {
  }

  lemma {:induction false} FilterMap<S, T>(s: seq<S>, m: S -> T, f: T -> bool, g: S -> bool)
    requires forall x :: x in s ==> f(m(x)) == g(x)
    ensures Filter(Map(s, m), f) == Map(Filter(s, g), m)
  {
    if |s| > 0 {
      assert s[0] in s;
      FilterMap(s[1..], m, f, g);
      assert Map(s, m)[1..] == Map(s[1..], m);
      MapAppend(if g(s[0]) then [s[0]] else [], Filter(s[1..], g), m);
    }
  }

  lemma Assoc<T>(a: seq<T>, b: seq<T>, c: seq<T>)
    ensures (a + b) + c == a + (b + c)
  {
  }

  function Flatten<T>(ss: seq<seq<T>>): seq<T> {
    if |ss| == 0 then [] else ss[0] + Flatten(ss[1..])
  }

  lemma {:induction false} FlattenAppend<T>(a: seq<seq<T>>, b: seq<seq<T>>)
    ensures Flatten(a + b) == Flatten(a) + Flatten(b)
  {
    if |a| == 0 {
      assert a + b == b;
    } else {
      FlattenAppend(a[1..], b);
      assert (a + b)[1..] == a[1..] + b;
      assert a[0] + (Flatten(a[1..]) + Flatten(b)) == (a[0] + Flatten(a[1..])) + Flatten(b);
    }
  }

  function Reverse<T>(s: seq<T>): seq<T> {
    if s == [] then [] else Reverse(s[1..]) + [s[0]]
  }

  lemma {:induction false} ReverseSnoc<T>(s: seq<T>, x: T)
    ensures Reverse(s + [x]) == [x] + Reverse(s)
  {
    if s == [] {
      assert s + [x] == [x];
    } else {
      ReverseSnoc(s[1..], x);
      assert (s + [x])[1..] == s[1..] + [x];
    }
  }

  lemma ReverseMembers<T>()
    ensures forall s: seq<T>, x {:trigger x in Reverse(s)} :: x in Reverse(s) <==> x in s
  {
    forall s: seq<T>, x
      ensures x in Reverse(s) <==> x in s
    {
      ReverseMember(s, x);
    }
  }

  lemma {:induction false} ReverseMember<T>(s: seq<T>, x: T)
    ensures x in Reverse(s) <==> x in s
  {
    if s != [] {
      ReverseMember(s[1..], x);
      assert s == [s[0]] + s[1..];
    }
  }
}
