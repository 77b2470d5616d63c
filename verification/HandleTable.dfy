/** The table of live contexts: a handle is looked up in slot `handle & (size - 1)`, and
    the table doubles when no free slot is found. The abstract view is a map from live
    handles to contexts. */
module HandleTable {
  import opened Basics

  const HANDLE_LIMIT: int := 0x100_0000   // one more than kHandleMask
  const DEFAULT_SLOT_SIZE := 4

  /** A registered context together with the handle it was given. */
  datatype Entry = Entry(handle: nat, ctx: nat)

  // ---------------------------------------------------------------- arithmetic of sizes

  predicate PowerOfTwo(n: nat) {
    n == 1 || (n > 1 && n % 2 == 0 && PowerOfTwo(n / 2))
  }

  lemma {:induction false} PowersDivide(n: nat, m: nat)
    requires PowerOfTwo(n) && PowerOfTwo(m) && n <= m
    ensures m % n == 0
  {
    if n > 1 {
      PowersDivide(n / 2, m / 2);
      var q := (m / 2) / (n / 2);
      assert m / 2 == (n / 2) * q + (m / 2) % (n / 2);
      assert m == n * q;
      MultipleMod(n, q);
    }
  }

  lemma MultipleMod(n: nat, q: nat)
    requires n > 0
    ensures (n * q) % n == 0
  {
    UniqueRemainder(n * q, n, q, 0);
  }

  lemma LimitIsPower()
    ensures PowerOfTwo(HANDLE_LIMIT)
  {
    assert PowerOfTwo(0x10) && PowerOfTwo(0x100);
    assert PowerOfTwo(0x1000);
    assert PowerOfTwo(0x1_0000);
    assert PowerOfTwo(0x10_0000);
  }

  /** The remainder by n only depends on the remainder by a multiple of n. */
  lemma ModOfMod(h: nat, n: nat, m: nat)
    requires n > 0 && m > 0 && m % n == 0
    ensures h % m % n == h % n
  {
    var k, q := m / n, h / m;
    assert m == n * k;
    assert h == m * q + h % m;
    assert h == n * (k * q) + h % m;
    ShiftMod(h % m, n, k * q);
  }

  lemma ShiftMod(r: nat, n: nat, q: nat)
    requires n > 0
    ensures (n * q + r) % n == r % n
  {
    var a := r / n;
    assert n * q + r == n * (q + a) + r % n;
    UniqueRemainder(n * q + r, n, q + a, r % n);
  }

  lemma UniqueRemainder(x: int, n: int, q: int, r: int)
    requires n > 0 && x == n * q + r && 0 <= r < n
    ensures x % n == r
  {
    SameQuotient(n, x / n, x % n, q, r);
  }

  lemma {:induction false} AtLeastOnce(n: int, k: int)
    requires n > 0 && k >= 1
    ensures n * k >= n
  {
    if k > 1 {
      AtLeastOnce(n, k - 1);
      assert n * k == n * (k - 1) + n;
    }
  }

  lemma SameQuotient(n: int, p: int, s: int, q: int, r: int)
    requires n > 0 && n * p + s == n * q + r && 0 <= r < n && 0 <= s < n
    ensures s == r
  {
    assert n * (q - p) == n * q - n * p && n * (p - q) == n * p - n * q;
    if q > p {
      AtLeastOnce(n, q - p);
    } else if q < p {
      AtLeastOnce(n, p - q);
    }
  }

  // ---------------------------------------------------------------- hashing

  /** The slot of a handle: the source masks with size - 1, and sizes are powers of two. */
  function Hash(handle: nat, size: nat): (r: nat)
    requires size > 0
    ensures r < size
  {
    handle % size
  }

  /** The sizes a table can have: a power of two between 4 and the number of handles. */
  predicate IsSize(n: nat) {
    DEFAULT_SLOT_SIZE <= n <= HANDLE_LIMIT && PowerOfTwo(n)
  }

  lemma SizeDividesLimit(n: nat)
    requires IsSize(n)
    ensures HANDLE_LIMIT % n == 0
  {
    LimitIsPower();
    PowersDivide(n, HANDLE_LIMIT);
  }

  /** A table that is smaller than the handle space may double. */
  lemma DoubleIsSize(n: nat)
    requires IsSize(n) && n < HANDLE_LIMIT
    ensures IsSize(2 * n)
  {
    if 2 * n > HANDLE_LIMIT {
      SizeDividesLimit(n);
      UniqueRemainder(HANDLE_LIMIT, n, 1, HANDLE_LIMIT - n);
    }
  }

  /** The harbor bits do not change the slot. */
  lemma HashIgnoresHarbor(node: nat, low: nat, n: nat)
    requires IsSize(n)
    ensures Hash(HANDLE_LIMIT * node + low, n) == Hash(low, n)
  {
    SizeDividesLimit(n);
    var k := HANDLE_LIMIT / n;
    assert HANDLE_LIMIT * node + low == n * (k * node) + low;
    ShiftMod(low, n, k * node);
  }

  /** Doubling keeps a handle in its slot or moves it up by the old size. */
  lemma HashOfDouble(h: nat, n: nat)
    requires n > 0
    ensures Hash(h, 2 * n) == Hash(h, n) || Hash(h, 2 * n) == Hash(h, n) + n
  {
    var r := h % (2 * n);
    MultipleMod(n, 2);
    ModOfMod(h, n, 2 * n);
    if r < n {
      UniqueRemainder(r, n, 0, r);
    } else {
      UniqueRemainder(r, n, 1, r - n);
    }
  }

  // ---------------------------------------------------------------- the table

  type Slots = seq<Option<Entry>>

  /** Every live entry sits in the slot its handle hashes to. */
  predicate Placed(slot: Slots) {
    forall i :: 0 <= i < |slot| && slot[i].Some? ==> Hash(slot[i].value.handle, |slot|) == i
  }

  function Lookup(slot: Slots, handle: nat): Option<nat>
    requires |slot| > 0
  {
    match slot[Hash(handle, |slot|)]
    case None => None
    case Some(e) => if e.handle == handle then Some(e.ctx) else None
  }

  function At(live: map<nat, nat>, handle: nat): Option<nat> {
    if handle in live then Some(live[handle]) else None
  }

  /** The table and the map agree on every handle. */
  ghost predicate Shows(slot: Slots, live: map<nat, nat>) {
    && |slot| > 0
    && Placed(slot)
    && forall h: nat {:trigger At(live, h)} {:trigger Lookup(slot, h)} :: Lookup(slot, h) == At(live, h)
  }

  lemma OccupiedIsLive(slot: Slots, live: map<nat, nat>, i: nat)
    requires Shows(slot, live) && i < |slot| && slot[i].Some?
    ensures slot[i].value.handle in live
  {
    hide Hash;
    assert Lookup(slot, slot[i].value.handle) == At(live, slot[i].value.handle);
  }

  lemma EmptyShowsNothing(slot: Slots)
    requires |slot| > 0 && forall i :: 0 <= i < |slot| ==> slot[i].None?
    ensures Shows(slot, map[])
  {
  }

  /** Filling an empty slot binds one new handle. */
  lemma PlaceShows(slot: Slots, live: map<nat, nat>, e: Entry)
    requires Shows(slot, live) && slot[Hash(e.handle, |slot|)].None?
    ensures e.handle !in live
    ensures Shows(slot[Hash(e.handle, |slot|) := Some(e)], live[e.handle := e.ctx])
  {
    hide Hash;
    var next := slot[Hash(e.handle, |slot|) := Some(e)];
    assert Lookup(slot, e.handle) == At(live, e.handle);
    forall h: nat
      ensures Lookup(next, h) == At(live[e.handle := e.ctx], h)
    {
      assert Lookup(slot, h) == At(live, h);
    }
  }

  /** Emptying the slot of a live handle unbinds exactly that handle. */
  lemma RemoveShows(slot: Slots, live: map<nat, nat>, h: nat)
    requires Shows(slot, live) && h in live
    ensures slot[Hash(h, |slot|)].Some? && slot[Hash(h, |slot|)].value.handle == h
    ensures Shows(slot[Hash(h, |slot|) := None], live - {h})
  {
    hide Hash;
    var next := slot[Hash(h, |slot|) := None];
    assert Lookup(slot, h) == At(live, h);
    forall g: nat
      ensures Lookup(next, g) == At(live - {h}, g)
    {
      assert Lookup(slot, g) == At(live, g);
    }
  }

  // ---------------------------------------------------------------- probing

  /** The slots of the low handles lo up to hi - 1 are all taken. */
  predicate Taken(slot: Slots, lo: nat, hi: nat)
    requires |slot| > 0
  {
    forall l :: lo <= l < hi ==> slot[Hash(l, |slot|)].Some?
  }

  /** Every slot but slot 0 is taken. */
  predicate FullButZero(slot: Slots) {
    forall s :: 1 <= s < |slot| ==> slot[s].Some?
  }

  /** low is the first handle with a free slot in the order start, start + 1, ..., wrapping
      to 1 (0 is reserved). */
  predicate FirstFree(slot: Slots, start: nat, low: nat)
    requires |slot| > 0
  {
    && 1 <= low < HANDLE_LIMIT
    && slot[Hash(low, |slot|)].None?
    && if start <= low then Taken(slot, start, low) else Taken(slot, start, HANDLE_LIMIT) && Taken(slot, 1, low)
  }

  lemma RunCoversSlots(slot: Slots, start: nat)
    requires |slot| > 0 && Taken(slot, start, start + |slot|)
    ensures FullButZero(slot)
  {
    var n := |slot|;
    forall s | 1 <= s < n
      ensures slot[s].Some?
    {
      var q, r := start / n, start % n;
      var l := if r <= s then n * q + s else n * (q + 1) + s;
      assert n * (q + 1) == n * q + n;
      UniqueRemainder(l, n, if r <= s then q else q + 1, s);
      assert start <= l < start + n;
      assert slot[Hash(l, n)].Some?;
    }
  }

  /** A probe that wrapped saw the handles from start to the limit and the first few again. */
  lemma WrapCoversSlots(slot: Slots, start: nat, handle: nat)
    requires IsSize(|slot|) && 1 <= start <= HANDLE_LIMIT && 1 <= handle <= HANDLE_LIMIT
    requires Taken(slot, start, HANDLE_LIMIT) && Taken(slot, 1, handle)
    requires handle - 1 + HANDLE_LIMIT - start >= |slot|
    ensures FullButZero(slot)
  {
    var n := |slot|;
    SizeDividesLimit(n);
    var k := HANDLE_LIMIT / n;
    forall s | 1 <= s < n
      ensures slot[s].Some?
    {
      if s < handle {
        UniqueRemainder(s, n, 0, s);
        assert slot[Hash(s, n)].Some?;
      } else {
        var l := HANDLE_LIMIT - n + s;
        assert l == n * (k - 1) + s;
        UniqueRemainder(l, n, k - 1, s);
        assert slot[Hash(l, n)].Some?;
      }
    }
  }

  lemma AllCoversSlots(slot: Slots)
    requires IsSize(|slot|) && Taken(slot, 1, HANDLE_LIMIT)
    ensures FullButZero(slot)
  {
    forall s | 1 <= s < |slot|
      ensures slot[s].Some?
    {
      UniqueRemainder(s, |slot|, 0, s);
      assert slot[Hash(s, |slot|)].Some?;
    }
  }

  /** One pass over as many handles as there are slots. It finds the first free slot in
      probing order and misses none but slot 0. */
  method Probe(slot: Slots, start: nat) returns (low: Option<nat>)
    requires IsSize(|slot|) && 1 <= start <= HANDLE_LIMIT
    ensures low.None? ==> FullButZero(slot)
    ensures low.Some? ==> FirstFree(slot, start, low.value)
  {
    hide Hash, PowerOfTwo;
    var handle := start;
    ghost var wraps := 0;
    var i := 0;
    while i < |slot|
      invariant 0 <= i <= |slot| && 1 <= handle <= HANDLE_LIMIT && 0 <= wraps <= 2
      invariant wraps == 0 ==> handle == start + i && Taken(slot, start, handle)
      invariant wraps == 1 ==> handle - 1 + HANDLE_LIMIT - start == i
      invariant wraps == 1 ==> Taken(slot, start, HANDLE_LIMIT) && Taken(slot, 1, handle)
      invariant wraps == 2 ==> Taken(slot, 1, HANDLE_LIMIT)
    {
      if handle >= HANDLE_LIMIT {
        handle := 1;
        wraps := if wraps == 0 then 1 else 2;
      }
      if slot[Hash(handle, |slot|)].None? {
        return Some(handle);
      }
      i, handle := i + 1, handle + 1;
    }
    if wraps == 0 {
      RunCoversSlots(slot, start);
    } else if wraps == 1 {
      WrapCoversSlots(slot, start, handle);
    } else {
      AllCoversSlots(slot);
    }
    return None;
  }

  // ---------------------------------------------------------------- growing

  /** The doubled table while the entries of the slots below i have been moved. */
  ghost predicate Moved(slot: Slots, bigger: Slots, i: nat) {
    && |bigger| == 2 * |slot| > 0
    && Placed(bigger)
    && forall h: nat {:trigger Lookup(bigger, h)} ::
         Lookup(bigger, h) == if Hash(h, |slot|) < i then Lookup(slot, h) else None
  }

  /** An entry of the doubled table came from the slot below i that it hashed to. */
  lemma MovedFrom(slot: Slots, bigger: Slots, i: nat, k: nat)
    requires Moved(slot, bigger, i) && k < |bigger| && bigger[k].Some?
    ensures
      var h := bigger[k].value.handle;
      && Hash(h, |bigger|) == k && Hash(h, |slot|) < i
      && slot[Hash(h, |slot|)].Some? && slot[Hash(h, |slot|)].value.handle == h
  {
    hide Hash;
    assert Lookup(bigger, bigger[k].value.handle).Some?;
  }

  /** The slot an entry moves to is still empty: re-slotting never collides. */
  lemma NoCollision(slot: Slots, bigger: Slots, i: nat)
    requires Placed(slot) && Moved(slot, bigger, i) && i < |slot| && slot[i].Some?
    ensures bigger[Hash(slot[i].value.handle, 2 * |slot|)].None?
  {
    hide Hash;
    var n, h := |slot|, slot[i].value.handle;
    var to := Hash(h, 2 * n);
    HashOfDouble(h, n);
    if bigger[to].Some? {
      HashOfDouble(bigger[to].value.handle, n);
      MovedFrom(slot, bigger, i, to);
    }
  }

  lemma MoveOne(slot: Slots, bigger: Slots, i: nat)
    requires Placed(slot) && Moved(slot, bigger, i) && i < |slot| && slot[i].Some?
    requires bigger[Hash(slot[i].value.handle, 2 * |slot|)].None?
    ensures Moved(slot, bigger[Hash(slot[i].value.handle, 2 * |slot|) := slot[i]], i + 1)
  {
    hide Hash;
    var n, e := |slot|, slot[i].value;
    var to := Hash(e.handle, 2 * n);
    var next := bigger[to := slot[i]];
    forall h: nat
      ensures Lookup(next, h) == if Hash(h, n) < i + 1 then Lookup(slot, h) else None
    {
      assert Lookup(bigger, h) == if Hash(h, n) < i then Lookup(slot, h) else None;
      HashOfDouble(h, n);
      HashOfDouble(e.handle, n);
    }
  }

  lemma MoveNone(slot: Slots, bigger: Slots, i: nat)
    requires Moved(slot, bigger, i) && i < |slot| && slot[i].None?
    ensures Moved(slot, bigger, i + 1)
  {
    hide Hash;
    forall h: nat
      ensures Lookup(bigger, h) == if Hash(h, |slot|) < i + 1 then Lookup(slot, h) else None
    {
      assert Lookup(bigger, h) == if Hash(h, |slot|) < i then Lookup(slot, h) else None;
    }
  }

  lemma MovedShows(slot: Slots, bigger: Slots, live: map<nat, nat>)
    requires Shows(slot, live) && Moved(slot, bigger, |slot|)
    ensures Shows(bigger, live)
  {
    hide Hash;
    forall h: nat
      ensures Lookup(bigger, h) == At(live, h)
    {
      assert Lookup(slot, h) == At(live, h);
    }
  }

  /** After doubling, slot 1 or its upper twin is free. */
  lemma DoubledHasRoom(slot: Slots, bigger: Slots)
    requires |slot| > 1 && Placed(slot) && Moved(slot, bigger, |slot|)
    ensures !FullButZero(bigger)
  {
    hide Hash;
    var n := |slot|;
    if bigger[1].Some? && bigger[1 + n].Some? {
      HashOfDouble(bigger[1].value.handle, n);
      HashOfDouble(bigger[1 + n].value.handle, n);
      MovedFrom(slot, bigger, n, 1);
      MovedFrom(slot, bigger, n, 1 + n);
    }
  }

  /** Doubling as designed: entries are re-slotted under the doubled mask. The empty-slot
      assertion of the source is the one proved here for the new table. */
  method Grow(slot: Slots) returns (bigger: Slots)
    requires |slot| > 1 && Placed(slot)
    ensures |bigger| == 2 * |slot| && Placed(bigger) && !FullButZero(bigger)
    ensures forall live: map<nat, nat> {:trigger Shows(slot, live)} :: Shows(slot, live) ==> Shows(bigger, live)
  {
    hide Hash, Shows;
    bigger := seq(2 * |slot|, _ => None);
    var i := 0;
    while i < |slot|
      invariant 0 <= i <= |slot|
      invariant Moved(slot, bigger, i)
    {
      if slot[i].Some? {
        var hash := Hash(slot[i].value.handle, 2 * |slot|);
        NoCollision(slot, bigger, i);
        assert bigger[hash].None?;
        MoveOne(slot, bigger, i);
        bigger := bigger[hash := slot[i]];
      } else {
        MoveNone(slot, bigger, i);
      }
      i := i + 1;
    }
    DoubledHasRoom(slot, bigger);
    forall live: map<nat, nat> | Shows(slot, live)
      ensures Shows(bigger, live)
    {
      MovedShows(slot, bigger, live);
    }
  }

  // ---------------------------------------------------------------- growth as written

  /** The growth loop as written: it hashes with the old size and asserts that the old slot
      is empty. None is the failed assertion; checked says whether assertions are compiled in. */
  function MigrateAsWritten(slot: Slots, into: Slots, i: nat, checked: bool): Option<Slots>
    requires i <= |slot| && |into| == 2 * |slot|
    decreases |slot| - i
  {
    if i == |slot| then Some(into)
    else if slot[i].None? then MigrateAsWritten(slot, into, i + 1, checked)
    else
      var hash := Hash(slot[i].value.handle, |slot|);
      if checked && slot[hash].Some? then None
      else MigrateAsWritten(slot, into[hash := slot[i]], i + 1, checked)
  }

  /** With assertions on, growth as written aborts exactly when any entry is to be moved. */
  lemma {:induction false} GrowthAsWrittenAborts(slot: Slots, into: Slots, i: nat)
    requires Placed(slot) && i <= |slot| && |into| == 2 * |slot|
    ensures MigrateAsWritten(slot, into, i, true).None? <==> exists k :: i <= k < |slot| && slot[k].Some?
    decreases |slot| - i
  {
    hide Hash;
    if i < |slot| && slot[i].None? {
      GrowthAsWrittenAborts(slot, into, i + 1);
    }
  }

  lemma {:induction false} UncheckedGrowthCopies(slot: Slots, into: Slots, i: nat)
    requires Placed(slot) && i <= |slot| && |into| == 2 * |slot|
    requires forall k :: 0 <= k < |into| ==> into[k] == if k < i then slot[k] else None
    ensures MigrateAsWritten(slot, into, i, false) == Some(slot + seq(|slot|, _ => None))
    decreases |slot| - i
  {
    hide Hash;
    if i == |slot| {
      assert into == slot + seq(|slot|, _ => None);
    } else if slot[i].None? {
      UncheckedGrowthCopies(slot, into, i + 1);
    } else {
      UncheckedGrowthCopies(slot, into[i := slot[i]], i + 1);
    }
  }

  /** With assertions off, growth as written keeps a live handle reachable exactly when its
      slot under the doubled mask lies in the lower half. */
  lemma UncheckedGrowthLosesHandles(slot: Slots, live: map<nat, nat>, h: nat)
    requires Shows(slot, live) && h in live
    ensures
      var grown := MigrateAsWritten(slot, seq(2 * |slot|, _ => None), 0, false);
      && grown.Some? && |grown.value| == 2 * |slot|
      && (Lookup(grown.value, h) == Some(live[h]) <==> Hash(h, 2 * |slot|) < |slot|)
      && (Lookup(grown.value, h).None? <==> Hash(h, 2 * |slot|) >= |slot|)
  {
    hide Hash;
    UncheckedGrowthCopies(slot, seq(2 * |slot|, _ => None), 0);
    HashOfDouble(h, |slot|);
    assert Lookup(slot, h) == At(live, h);
  }
}
