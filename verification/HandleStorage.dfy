/** The handle storage: contexts by handle and handles by name. */
module HandleStorage {
  import opened Basics
  import opened HandleTable
  import opened NameIndex
  import Seqs

  const MAX_NAMES: nat := 0x4000_0000

  /** Why a handle was or was not named. */
  datatype Naming = Named(name: string) | Duplicate | Exhausted

  class Storage {
    const harbor: nat
    var index: nat
    var slot: Slots
    var nameCount: nat
    var name: Names
    var flag: bool                     // the write word of the lock
    ghost const node: nat
    ghost var live: map<nat, nat>
    ghost var bound: map<string, nat>

    ghost predicate Valid()
      reads this
    {
      && harbor == HANDLE_LIMIT * node
      && 1 <= index <= HANDLE_LIMIT
      && IsSize(|slot|)
      && Shows(slot, live)
      && OwnHandles(harbor, live)
      && nameCount <= |name| && 2 <= |name|
      && Binds(name[..nameCount], bound)
    }

    constructor (harborId: nat)
      ensures Valid() && node == harborId % 0x100
      ensures live == map[] && bound == map[] && index == 1 && |slot| == DEFAULT_SLOT_SIZE && !flag
    {
      node := harborId % 0x100;
      harbor := HANDLE_LIMIT * (harborId % 0x100);
      index := 1;
      slot := seq(DEFAULT_SLOT_SIZE, _ => None);
      nameCount, flag := 0, false;
      name := [HandleName("", 0), HandleName("", 0)];
      live, bound := map[], map[];
      new;
      assert PowerOfTwo(DEFAULT_SLOT_SIZE);
      EmptyShowsNothing(slot);
    }

    /** Gives a context the next free handle, doubling the table when no slot is free. The
        answer is None, an assertion failure in the source, only when every handle is live. */
    method Register(ctx: nat) returns (handle: Option<nat>)
      requires Valid()
      modifies this
      ensures Valid() && unchanged(`name, `nameCount, `bound)
      ensures handle.None? <==> AllLive(harbor, old(live))
      ensures handle.None? ==> live == old(live)
      ensures handle.Some? ==> handle.value !in old(live) && harbor < handle.value < harbor + HANDLE_LIMIT
      ensures handle.Some? ==> live == old(live)[handle.value := ctx] && index == handle.value - harbor + 1
      ensures handle.Some? && |slot| == old(|slot|) ==> FirstFree(old(slot), old(index), handle.value - harbor)
      ensures |slot| == old(|slot|) || (|slot| == 2 * old(|slot|) && FullButZero(old(slot)))
      ensures handle.Some? ==> !flag
    {
      hide Placed, Lookup, Hash, Binds, FullButZero, PowerOfTwo, AllLive;
      flag := true;
      ghost var grown := false;
      while true
        invariant Valid() && unchanged(`name, `nameCount, `bound, `live, `index)
        invariant !grown ==> slot == old(slot)
        invariant grown ==> |slot| == 2 * old(|slot|) && FullButZero(old(slot)) && !FullButZero(slot)
        decreases !grown
      {
        var low := Probe(slot, index);
        if low.Some? {
          handle := Place(low.value, ctx);
          flag := false;
          return;
        }
        if |slot| * 2 - 1 >= HANDLE_LIMIT {
          assert |slot| == HANDLE_LIMIT by { OnlyFullSize(|slot|); }
          FullIsAllLive(slot, live, node);
          return None;
        }
        DoubleIsSize(|slot|);
        slot := Grow(slot);
        grown := true;
      }
    }

    /** Fills the free slot of a low handle. */
    method Place(low: nat, ctx: nat) returns (handle: Option<nat>)
      requires Valid() && 1 <= low < HANDLE_LIMIT && slot[Hash(low, |slot|)].None?
      modifies this
      ensures Valid() && unchanged(`name, `nameCount, `bound) && |slot| == old(|slot|)
      ensures handle == Some(harbor + low) && harbor + low !in old(live)
      ensures live == old(live)[harbor + low := ctx] && index == low + 1
      ensures !AllLive(harbor, old(live))
    {
      hide Shows, Placed, Hash, Binds, PowerOfTwo;
      HashIgnoresHarbor(node, low, |slot|);
      PlaceShows(slot, live, Entry(harbor + low, ctx));
      slot := slot[Hash(low, |slot|) := Some(Entry(harbor + low, ctx))];
      index := low + 1;
      live := live[harbor + low := ctx];
      handle := Some(harbor + low);
    }

    /** The context registered under a handle, if it is live. */
    method Grab(handle: nat) returns (ctx: Option<nat>)
      requires Valid()
      ensures ctx == At(live, handle)
    {
      hide Hash, PowerOfTwo, Binds;
      var hash := Hash(handle, |slot|);
      ctx := if slot[hash].Some? && slot[hash].value.handle == handle then Some(slot[hash].value.ctx) else None;
      assert ctx == Lookup(slot, handle);
    }

    /** Frees the slot of a live handle and drops its names. */
    method Retire(handle: nat) returns (ret: nat)
      requires Valid()
      modifies this
      ensures Valid() && unchanged(`index) && |slot| == old(|slot|)
      ensures ret == if handle in old(live) then 1 else 0
      ensures live == old(live) - {handle}
      ensures ret == 1 ==> name[..nameCount] == Survivors(old(name[..nameCount]), handle)
      ensures ret == 1 ==> bound == Without(old(bound), handle)
      ensures ret == 0 ==> unchanged(`name, `nameCount, `bound, `slot)
      ensures !flag
    {
      hide Hash, PowerOfTwo, Binds, Shows, Survivors, Without;
      flag := true;
      var hash := Hash(handle, |slot|);
      assert (slot[hash].Some? && slot[hash].value.handle == handle) == (handle in live) by {
        FoundIffLive(slot, live, handle);
      }
      if slot[hash].Some? && slot[hash].value.handle == handle {
        RemoveShows(slot, live, handle);
        slot := slot[hash := None];
        live := live - {handle};
        SurvivorsBind(name[..nameCount], bound, handle);
        var kept, left := Compact(name, nameCount, handle);
        name, nameCount, bound := kept, left, Without(bound, handle);
        ret := 1;
      } else {
        assert live == live - {handle};
        ret := 0;
      }
      flag := false;
    }

    /** The handle bound to a name, 0 when there is none. */
    method FindName(s: string) returns (handle: nat)
      requires Valid()
      ensures handle == if s in bound then bound[s] else 0
    {
      hide Shows, IsSize, Less;
      var found, place := Search(name[..nameCount], s);
      if found {
        assert name[..nameCount][place].name == s;
        handle := name[place].handle;
      } else {
        BetweenIsUnbound(name[..nameCount], bound, place, s);
        handle := 0;
      }
    }

    /** Binds a name to a handle unless the name is taken. A taken name returns with the write
        flag up, as written; Exhausted is the assertion on the size of the index. */
    method NameHandle(handle: nat, s: string) returns (r: Naming)
      requires Valid()
      modifies this
      ensures Valid() && unchanged(`slot, `live, `index)
      ensures s in old(bound) ==> r == Duplicate
      ensures s !in old(bound) ==>
                r == if old(nameCount == |name| && |name| * 2 > MAX_NAMES) then Exhausted else Named(s)
      ensures r.Named? ==> bound == old(bound)[s := handle] && nameCount == old(nameCount) + 1
      ensures r.Exhausted? ==> |old(bound)| > 0x2000_0000
      ensures !r.Named? ==> unchanged(`name, `nameCount, `bound)
      ensures !r.Exhausted? ==> (flag <==> s in old(bound))
    {
      hide Shows, IsSize, Less, Binds;
      flag := true;
      var found, place := SearchNames(s);
      if found {
        return Duplicate;
      }
      InsertBinds(name[..nameCount], bound, place, HandleName(s, handle));
      var roomy := name;
      if nameCount >= |name| {
        if |name| * 2 > MAX_NAMES {
          BoundIsCounted(name[..nameCount], bound);
          return Exhausted;
        }
        roomy := name + seq(|name|, _ => HandleName("", 0));
        assert roomy[..nameCount] == name[..nameCount];
      }
      name := InsertAt(roomy, nameCount, place, HandleName(s, handle));
      nameCount := nameCount + 1;
      bound := bound[s := handle];
      flag := false;
      return Named(s);
    }

    method SearchNames(s: string) returns (found: bool, place: nat)
      requires Valid()
      ensures place <= nameCount && found == (s in bound)
      ensures !found ==> Below(name[..nameCount], place, s) && Above(name[..nameCount], place, s)
    {
      hide Shows, IsSize, Less;
      found, place := Search(name[..nameCount], s);
      if !found {
        BetweenIsUnbound(name[..nameCount], bound, place, s);
      }
    }
  }

  /** Live handles carry the harbor bits and never 0 as their low part. */
  ghost predicate OwnHandles(harbor: nat, live: map<nat, nat>) {
    forall h <- live :: harbor < h < harbor + HANDLE_LIMIT
  }

  ghost predicate AllLive(harbor: nat, live: map<nat, nat>) {
    forall h :: harbor < h < harbor + HANDLE_LIMIT ==> h in live
  }

  lemma OnlyFullSize(n: nat)
    requires IsSize(n) && 2 * n - 1 >= HANDLE_LIMIT
    ensures n == HANDLE_LIMIT
  {
    if n < HANDLE_LIMIT {
      DoubleIsSize(n);
    }
  }

  /** A full table of full size has every handle live. */
  lemma FullIsAllLive(slot: Slots, live: map<nat, nat>, node: nat)
    requires |slot| == HANDLE_LIMIT && IsSize(|slot|) && FullButZero(slot)
    requires Shows(slot, live) && OwnHandles(HANDLE_LIMIT * node, live)
    ensures AllLive(HANDLE_LIMIT * node, live)
  {
    hide Hash, IsSize, Shows;
    var harbor := HANDLE_LIMIT * node;
    forall h | harbor < h < harbor + HANDLE_LIMIT
      ensures h in live
    {
      var low := h - harbor;
      OccupiedIsLive(slot, live, low);
      var g := slot[low].value.handle;
      HashIgnoresHarbor(node, g - harbor, HANDLE_LIMIT);
      assert Hash(g, HANDLE_LIMIT) == low by { assert Shows(slot, live); PlacedAt(slot, live, low); }
      UniqueRemainder(g - harbor, HANDLE_LIMIT, 0, g - harbor);
      assert Hash(g - harbor, HANDLE_LIMIT) == g - harbor by { HashOfSmall(g - harbor); }
    }
  }

  lemma HashOfSmall(low: nat)
    requires low < HANDLE_LIMIT
    ensures Hash(low, HANDLE_LIMIT) == low
  {
  }

  lemma PlacedAt(slot: Slots, live: map<nat, nat>, i: nat)
    requires Shows(slot, live) && i < |slot| && slot[i].Some?
    ensures Hash(slot[i].value.handle, |slot|) == i
  {
  }

  lemma FoundIffLive(slot: Slots, live: map<nat, nat>, h: nat)
    requires Shows(slot, live)
    ensures (slot[Hash(h, |slot|)].Some? && slot[Hash(h, |slot|)].value.handle == h) == (h in live)
  {
    hide Hash;
    assert Lookup(slot, h) == At(live, h);
  }

  /** The compaction loop: entries of the handle are blanked and the others moved down. */
  method Compact(name: Names, count: nat, handle: nat) returns (kept: Names, left: nat)
    requires count <= |name|
    ensures |kept| == |name| && left <= count
    ensures kept[..left] == Survivors(name[..count], handle)
  {
    hide Seqs.Filter;
    kept, left := name, 0;
    var i := 0;
    assert Survivors(name[..0], handle) == [] by { Seqs.FilterNone(name[..0], (e: HandleName) => e.handle != handle); }
    while i < count
      invariant 0 <= left <= i <= count && |kept| == |name|
      invariant kept[..left] == Survivors(name[..i], handle)
      invariant kept[i..] == name[i..]
    {
      Seqs.FilterSnoc(name[..i], name[i], (e: HandleName) => e.handle != handle);
      assert name[..i + 1] == name[..i] + [name[i]] && kept[i] == kept[i..][0] == name[i];
      if kept[i].handle == handle {
        kept := kept[i := kept[i].(name := "")];
      } else {
        if i != left {
          kept := kept[left := kept[i]];
        }
        left := left + 1;
      }
      i := i + 1;
    }
  }

  /** The insertion loop: later entries move up by one, from the end. */
  method InsertAt(name: Names, count: nat, place: nat, e: HandleName) returns (r: Names)
    requires place <= count < |name|
    ensures |r| == |name|
    ensures r[..count + 1] == name[..count][..place] + [e] + name[..count][place..]
  {
    r := name;
    var i := count;
    while i > place
      invariant place <= i <= count && |r| == |name|
      invariant forall k :: 0 <= k <= i ==> r[k] == name[k]
      invariant forall k :: i < k <= count ==> r[k] == name[k - 1]
    {
      r := r[i := r[i - 1]];
      i := i - 1;
    }
    r := r[place := e];
  }
}
