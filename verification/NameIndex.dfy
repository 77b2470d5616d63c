/** Names bound to handles, kept sorted so that they can be searched by bisection. */
module NameIndex {
  import Seqs

  datatype HandleName = HandleName(name: string, handle: nat)

  // ---------------------------------------------------------------- the order of strings

  /** The lexicographic order of std::string. */
  predicate Less(a: string, b: string) {
    |b| > 0 && (|a| == 0 || a[0] < b[0] || (a[0] == b[0] && Less(a[1..], b[1..])))
  }

  /** a is below b if and only if it is a proper prefix of b, or smaller where they first differ. */
  lemma {:induction false} LessIsLexicographic(a: string, b: string)
    ensures Less(a, b) <==> exists k: nat :: Differ(a, b, k) && k < |b| && (k == |a| || a[k] < b[k])
  {
    if |a| > 0 && |b| > 0 && a[0] == b[0] {
      LessIsLexicographic(a[1..], b[1..]);
      if Less(a, b) {
        var k: nat :| Differ(a[1..], b[1..], k) && k < |b[1..]| && (k == |a[1..]| || a[1..][k] < b[1..][k]);
        assert Differ(a, b, k + 1);
      }
      if k: nat :| Differ(a, b, k) && k < |b| && (k == |a| || a[k] < b[k]) {
        assert k > 0 && Differ(a[1..], b[1..], k - 1);
      }
    } else {
      assert Differ(a, b, 0);
    }
  }

  /** a and b are the same before k, which is not beyond either. */
  predicate Differ(a: string, b: string, k: nat) {
    k <= |a| && k <= |b| && forall i :: 0 <= i < k ==> a[i] == b[i]
  }

  lemma {:induction false} LessIsStrict(a: string, b: string)
    ensures Less(a, b) ==> a != b && !Less(b, a)
  {
    if |a| > 0 && |b| > 0 {
      LessIsStrict(a[1..], b[1..]);
    }
  }

  lemma {:induction false} LessIsTotal(a: string, b: string)
    ensures a == b || Less(a, b) || Less(b, a)
  {
    if |a| > 0 && |b| > 0 && a[0] == b[0] {
      LessIsTotal(a[1..], b[1..]);
      assert a == [a[0]] + a[1..] && b == [b[0]] + b[1..];
    }
  }

  lemma {:induction false} LessIsTransitive(a: string, b: string, c: string)
    requires Less(a, b) && Less(b, c)
    ensures Less(a, c)
  {
    if |a| > 0 && a[0] == b[0] == c[0] {
      LessIsTransitive(a[1..], b[1..], c[1..]);
    }
  }

  // ---------------------------------------------------------------- the index

  type Names = seq<HandleName>

  predicate Sorted(names: Names) {
    forall i, j :: 0 <= i < j < |names| ==> Less(names[i].name, names[j].name)
  }

  /** Every name before k is below s. */
  predicate Below(names: Names, k: nat, s: string)
    requires k <= |names|
  {
    forall i :: 0 <= i < k ==> Less(names[i].name, s)
  }

  /** Every name from k on is above s. */
  predicate Above(names: Names, k: nat, s: string)
    requires k <= |names|
  {
    forall i :: k <= i < |names| ==> Less(s, names[i].name)
  }

  /** The index and the map hold the same bindings. */
  ghost predicate Binds(names: Names, bound: map<string, nat>) {
    && Sorted(names)
    && (forall i :: 0 <= i < |names| ==> names[i].name in bound && bound[names[i].name] == names[i].handle)
    && (forall s <- bound :: Listed(names, s))
  }

  ghost predicate Listed(names: Names, s: string) {
    exists i :: 0 <= i < |names| && names[i].name == s
  }

  lemma BelowUpTo(names: Names, k: nat, s: string)
    requires Sorted(names) && k < |names| && Less(names[k].name, s)
    ensures Below(names, k + 1, s)
  {
    forall i | 0 <= i < k + 1
      ensures Less(names[i].name, s)
    {
      if i < k {
        LessIsTransitive(names[i].name, names[k].name, s);
      }
    }
  }

  lemma AboveFrom(names: Names, k: nat, s: string)
    requires Sorted(names) && k < |names| && Less(s, names[k].name)
    ensures Above(names, k, s)
  {
    forall i | k <= i < |names|
      ensures Less(s, names[i].name)
    {
      if i > k {
        LessIsTransitive(s, names[k].name, names[i].name);
      }
    }
  }

  /** A name with everything to its left below it and the rest above it is not bound. */
  lemma BetweenIsUnbound(names: Names, bound: map<string, nat>, k: nat, s: string)
    requires Binds(names, bound) && k <= |names| && Below(names, k, s) && Above(names, k, s)
    ensures s !in bound
  {
    hide Less;
    if s in bound {
      assert Listed(names, s);
      var i :| 0 <= i < |names| && names[i].name == s;
      LessIsStrict(names[i].name, s);
      assert false;
    }
  }

  /** Inserting between the smaller and the larger names adds one binding. */
  lemma InsertBinds(names: Names, bound: map<string, nat>, k: nat, e: HandleName)
    requires Binds(names, bound) && k <= |names| && Below(names, k, e.name) && Above(names, k, e.name)
    ensures Binds(names[..k] + [e] + names[k..], bound[e.name := e.handle])
  {
    hide Less;
    BetweenIsUnbound(names, bound, k, e.name);
    var next, now := names[..k] + [e] + names[k..], bound[e.name := e.handle];
    forall i, j | 0 <= i < j < |next|
      ensures Less(next[i].name, next[j].name)
    {
      assert next[i] == if i < k then names[i] else if i == k then e else names[i - 1];
      assert next[j] == if j < k then names[j] else if j == k then e else names[j - 1];
    }
    forall s <- now
      ensures Listed(next, s)
    {
      if s == e.name {
        assert next[k].name == s;
      } else {
        assert Listed(names, s);
        var i :| 0 <= i < |names| && names[i].name == s;
        assert next[if i < k then i else i + 1].name == s;
      }
    }
  }

  /** There are as many names as entries. */
  lemma {:induction false} BoundIsCounted(names: Names, bound: map<string, nat>)
    requires Binds(names, bound)
    ensures |bound| == |names|
  {
    hide Less;
    if names == [] {
      assert forall s <- bound :: Listed(names, s);
      assert bound == map[];
    } else {
      var k := |names| - 1;
      var last, rest := names[k].name, names[..k];
      forall i | 0 <= i < k
        ensures names[i].name != last
      {
        LessIsStrict(names[i].name, last);
      }
      forall s <- bound - {last}
        ensures Listed(rest, s)
      {
        assert Listed(names, s);
        var i :| 0 <= i < |names| && names[i].name == s;
        assert rest[i].name == s;
      }
      BoundIsCounted(rest, bound - {last});
      assert bound == (bound - {last})[last := bound[last]];
    }
  }

  /** The bindings that remain when a handle is retired. */
  function Without(bound: map<string, nat>, handle: nat): map<string, nat> {
    map s | s in bound && bound[s] != handle :: bound[s]
  }

  function Survivors(names: Names, handle: nat): Names {
    Seqs.Filter(names, (e: HandleName) => e.handle != handle)
  }

  lemma {:induction false} SurvivorsSorted(names: Names, handle: nat)
    requires Sorted(names)
    ensures Sorted(Survivors(names, handle))
  {
    hide Less;
    if |names| > 0 {
      SurvivorsSorted(names[1..], handle);
      Seqs.FilterMember(names[1..], (e: HandleName) => e.handle != handle);
      var rest := Survivors(names[1..], handle);
      forall j | 0 <= j < |rest|
        ensures Less(names[0].name, rest[j].name)
      {
        assert rest[j] in names[1..];
      }
    }
  }

  /** Dropping the entries of one handle unbinds exactly the names of that handle. */
  lemma SurvivorsBind(names: Names, bound: map<string, nat>, handle: nat)
    requires Binds(names, bound)
    ensures Binds(Survivors(names, handle), Without(bound, handle))
  {
    hide Less, Seqs.Filter;
    SurvivorsSorted(names, handle);
    Seqs.FilterMember(names, (e: HandleName) => e.handle != handle);
    var next, now := Survivors(names, handle), Without(bound, handle);
    forall i | 0 <= i < |next|
      ensures next[i].name in now && now[next[i].name] == next[i].handle
    {
      assert next[i] in next;
      assert next[i] in names;
    }
    forall s <- now
      ensures Listed(next, s)
    {
      assert Listed(names, s);
      var i :| 0 <= i < |names| && names[i].name == s;
      assert names[i] in next;
    }
  }

  /** Bisection: the entry of s, or the place where it belongs. */
  method Search(names: Names, s: string) returns (found: bool, place: nat)
    requires Sorted(names)
    ensures place <= |names|
    ensures found ==> place < |names| && names[place].name == s
    ensures !found ==> Below(names, place, s) && Above(names, place, s)
  {
    hide Less, Sorted;
    var begin, end := 0, |names| - 1;
    while begin <= end
      invariant 0 <= begin <= end + 1 <= |names|
      invariant Below(names, begin, s) && Above(names, end + 1, s)
    {
      var mid := (begin + end) / 2;
      if names[mid].name == s {
        return true, mid;
      } else if Less(names[mid].name, s) {
        BelowUpTo(names, mid, s);
        begin := mid + 1;
      } else {
        LessIsTotal(names[mid].name, s);
        AboveFrom(names, mid, s);
        end := mid - 1;
      }
    }
    return false, begin;
  }
}
