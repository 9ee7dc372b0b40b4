/** The handle table: services by handle in a table of slots that doubles when it is full, and names
    for handles. Writers exclude one another, so the operations are taken one at a time.
 */
module HandleTable {
  import opened Basics
  import opened Arithmetic

  type Handle = nat

  datatype Entry<T> = Entry(handle: Handle, service: T)

  datatype Registered<T> =
    | Registered(handle: Handle, service: T)
    | OutOfHandles       // the fail-fast panics of the source
    | OutOfSlots

  const DEFAULT_SLOT_SIZE := 4

  const U64_MAX := 0xffff_ffff_ffff_ffff

  /** The slot of a handle. */
  function SlotOf(n: nat, h: Handle): (i: nat)
    requires n > 0
    ensures i < n
  {
    Residue(n, h)
  }

  /** As the source computes it, with the mask of a table whose length is a power of two. */
  function Hash(n: nat, h: Handle): (i: nat)
    requires PowerOfTwo(n)
    ensures i == SlotOf(n, h) == h % n
  {
    MaskIsResidue(n, h);
    ResidueIsRemainder(n, h);
    And(h, n - 1)
  }

  /** Entries stand where their handles say. */
  ghost predicate Placed<T>(slots: seq<Option<Entry<T>>>) {
    |slots| > 0 && forall i :: 0 <= i < |slots| && slots[i].Some? ==> SlotOf(|slots|, slots[i].value.handle) == i
  }

  /** The table as a plain map from handles to services. */
  ghost predicate Holds<T>(slots: seq<Option<Entry<T>>>, live: map<Handle, T>) {
    && Placed(slots)
    && (forall i :: 0 <= i < |slots| && slots[i].Some? ==>
          slots[i].value.handle in live && live[slots[i].value.handle] == slots[i].value.service)
    && (forall h :: h in live ==> slots[SlotOf(|slots|, h)] == Some(Entry(h, live[h])))
  }

  ghost predicate Full<T>(slots: seq<Option<Entry<T>>>) {
    forall i :: 0 <= i < |slots| ==> slots[i].Some?
  }

  /** The first `k` of the old slots have moved into a table twice as long. */
  ghost predicate Moved<T>(before: seq<Option<Entry<T>>>, k: nat, after: seq<Option<Entry<T>>>) {
    && k <= |before| && |after| == 2 * |before| && Placed(after)
    && (forall i :: 0 <= i < k && before[i].Some? ==> after[SlotOf(|after|, before[i].value.handle)] == before[i])
    && (forall x :: 0 <= x < |after| && after[x].Some? ==> (if x < |before| then x else x - |before|) < k)
    && (forall x :: 0 <= x < |after| && after[x].Some? ==> after[x] == before[if x < |before| then x else x - |before|])
  }

  /** One more entry moves: its new place is free, since only its old slot leads there. */
  lemma MoveOne<T>(before: seq<Option<Entry<T>>>, k: nat, after: seq<Option<Entry<T>>>)
    requires Placed(before) && Moved(before, k, after) && k < |before|
    ensures before[k].None? ==> Moved(before, k + 1, after)
    ensures before[k].Some? ==>
      var x := SlotOf(|after|, before[k].value.handle);
      after[x].None? && Moved(before, k + 1, after[x := before[k]])
  {
    if before[k].Some? {
      Doubling(|before|, before[k].value.handle);
    }
  }

  lemma MovedHolds<T>(before: seq<Option<Entry<T>>>, after: seq<Option<Entry<T>>>, live: map<Handle, T>)
    requires Holds(before, live) && Moved(before, |before|, after)
    ensures Holds(after, live) && !Full(after)
  {
    assert after[0].None? || after[|before|].None?;
  }

  /** Probing as many handles as there are slots visits every slot. */
  lemma ProbedAll<T>(slots: seq<Option<Entry<T>>>, next: Handle)
    requires |slots| > 0 && forall h :: next <= h < next + |slots| ==> slots[SlotOf(|slots|, h)].Some?
    ensures Full(slots)
  {
    forall i | 0 <= i < |slots| ensures slots[i].Some? {
      var h := Covering(|slots|, next, i);
      assert SlotOf(|slots|, h) == i;
    }
  }

  lemma PlacedOne<T>(slots: seq<Option<Entry<T>>>, live: map<Handle, T>, h: Handle, service: T)
    requires Holds(slots, live) && slots[SlotOf(|slots|, h)].None?
    ensures h !in live && Holds(slots[SlotOf(|slots|, h) := Some(Entry(h, service))], live[h := service])
  {
  }

  lemma RemovedOne<T>(slots: seq<Option<Entry<T>>>, live: map<Handle, T>, h: Handle)
    requires Holds(slots, live) && h in live
    ensures Holds(slots[SlotOf(|slots|, h) := None], live - {h})
  {
  }

  /** A slot is taken exactly by a live handle that falls into it. */
  predicate Taken<T>(live: map<Handle, T>, n: nat, i: nat)
    requires n > 0
  {
    exists g :: g in live && SlotOf(n, g) == i
  }

  lemma TakenExactly<T>(slots: seq<Option<Entry<T>>>, live: map<Handle, T>, i: nat)
    requires Holds(slots, live) && i < |slots|
    ensures slots[i].Some? <==> Taken(live, |slots|, i)
  {
    if slots[i].Some? {
      assert slots[i].value.handle in live;
    }
  }

  /** Every slot of a table of that size is taken. */
  ghost predicate Crowded<T>(live: map<Handle, T>, n: nat)
    requires n > 0
  {
    forall i :: 0 <= i < n ==> Taken(live, n, i)
  }

  /** From `next` on no handle that has a successor falls into a free slot, and the last one is among
      those that are tried. */
  ghost predicate Spent<T>(live: map<Handle, T>, n: nat, next: Handle)
    requires n > 0
  {
    next + n > U64_MAX && forall h :: next <= h < U64_MAX ==> Taken(live, n, SlotOf(n, h))
  }

  /** The table at hand is spent, or it is full and the one twice its size is. */
  ghost predicate RunsOut<T>(live: map<Handle, T>, n: nat, next: Handle)
    requires n > 0
  {
    Spent(live, n, next) || (Crowded(live, n) && 2 * n <= U32_MAX && Spent(live, 2 * n, next))
  }

  lemma FullIsCrowded<T>(slots: seq<Option<Entry<T>>>, live: map<Handle, T>)
    requires Holds(slots, live)
    ensures Full(slots) <==> Crowded(live, |slots|)
  {
    forall i | 0 <= i < |slots| ensures slots[i].Some? <==> Taken(live, |slots|, i) {
      TakenExactly(slots, live, i);
    }
  }

  class HandleStorage<T> {
    var slots: array<Option<Entry<T>>>
    var names: map<string, Handle>
    var next: Handle
    ghost var live: map<Handle, T>

    ghost predicate Valid()
      reads this, slots
    {
      && slots.Length >= DEFAULT_SLOT_SIZE && PowerOfTwo(slots.Length)
      && Holds(slots[..], live)
      && (forall h :: h in live ==> 1 <= h < next)
      && 1 <= next <= U64_MAX
      && (forall n :: n in names ==> names[n] in live)
    }

    constructor ()
      ensures Valid() && fresh(slots) && live == map[] && names == map[] && next == 1
    {
      slots := new Option<Entry<T>>[DEFAULT_SLOT_SIZE](_ => None);
      names, next, live := map[], 1, map[];
    }

    /** `grow`: every entry moves to its slot in a table twice as long. */
    method Grow()
      requires Valid()
      modifies this`slots
      ensures Valid() && fresh(slots) && slots.Length == 2 * old(slots.Length) && !Full(slots[..])
    {
      var size := 2 * slots.Length;
      var larger := new Option<Entry<T>>[size](_ => None);
      ghost var before := slots[..];
      for k := 0 to slots.Length
        invariant slots[..] == before && Moved(before, k, larger[..])
        invariant fresh(larger)
      {
        MoveOne(before, k, larger[..]);
        if slots[k].Some? {
          var hash := Hash(size, slots[k].value.handle);
          ghost var after := larger[..];
          larger[hash] := slots[k];
          assert larger[..] == after[hash := before[k]];
        }
      }
      MovedHolds(before, larger[..], live);
      slots := larger;
    }

    /** One round of `register_with`: try the handles from `next` on, one for each slot. */
    method Probe() returns (r: Option<Handle>, exhausted: bool)
      requires Valid()
      ensures r.Some? ==> !exhausted && next <= r.value < U64_MAX && slots[..][SlotOf(slots.Length, r.value)].None?
      ensures r.Some? ==> forall h :: next <= h < r.value ==> slots[..][SlotOf(slots.Length, h)].Some?
      ensures exhausted ==> r.None?
      ensures exhausted <==> Spent(live, slots.Length, next)
      ensures r.None? && !exhausted ==> Full(slots[..])
    {
      forall i | 0 <= i < slots.Length ensures slots[..][i].Some? <==> Taken(live, slots.Length, i) {
        TakenExactly(slots[..], live, i);
      }
      var handle := next;
      for k := 0 to slots.Length
        invariant handle == next + k <= U64_MAX
        invariant forall h :: next <= h < handle ==> slots[..][SlotOf(slots.Length, h)].Some?
      {
        var entry := slots[Hash(slots.Length, handle)];
        assert slots[..][SlotOf(slots.Length, handle)] == entry;
        if handle == U64_MAX {
          // no successor, whether the slot is free or not
          return None, true;
        }
        if entry.None? {
          return Some(handle), false;
        }
        handle := handle + 1;
      }
      ProbedAll(slots[..], next);
      return None, false;
    }

    /** `register_with`: the first handle from `next` on that falls into a free slot, growing the
        table once if there is none. Handles only go up, so none is ever given twice. */
    method RegisterWith(make: Handle -> T) returns (r: Registered<T>)
      requires Valid()
      modifies this, slots
      ensures Valid() && names == old(names)
      ensures r.Registered? ==> old(next) <= r.handle < U64_MAX && next == r.handle + 1 && r.service == make(r.handle)
      ensures r.Registered? ==> forall h :: old(next) <= h <= r.handle ==> slots[..][SlotOf(slots.Length, h)].Some?
      ensures r.Registered? ==> r.handle !in old(live) && live == old(live)[r.handle := r.service]
      ensures r.OutOfHandles? <==> RunsOut(old(live), old(slots.Length), old(next))
      ensures r.OutOfSlots? <==>
        !Spent(old(live), old(slots.Length), old(next)) && Crowded(old(live), old(slots.Length))
        && 2 * old(slots.Length) > U32_MAX
      ensures !r.Registered? ==> live == old(live) && next == old(next)
      ensures
        || slots.Length == old(slots.Length)
        || (slots.Length == 2 * old(slots.Length) && old(Full(slots[..])) && fresh(slots))
    {
      FullIsCrowded(slots[..], live);
      var grown := false;
      while true
        invariant Valid() && live == old(live) && names == old(names) && next == old(next)
        invariant !grown ==> slots == old(slots) && slots[..] == old(slots[..])
        invariant grown ==>
          && fresh(slots) && slots.Length == 2 * old(slots.Length) && !Full(slots[..])
          && old(Full(slots[..])) && 2 * old(slots.Length) <= U32_MAX && !Spent(live, old(slots.Length), next)
        decreases !grown
      {
        var h, exhausted := Probe();
        if exhausted {
          return OutOfHandles;
        }
        if h.Some? {
          var service := make(h.value);
          Insert(h.value, service);
          return Registered(h.value, service);
        }
        if 2 * slots.Length > U32_MAX {
          return OutOfSlots;
        }
        Grow();
        grown := true;
      }
    }

    method Insert(h: Handle, service: T)
      requires Valid() && next <= h < U64_MAX && slots[..][SlotOf(slots.Length, h)].None?
      modifies this`live, this`next, slots
      ensures Valid() && next == h + 1 && h !in old(live) && live == old(live)[h := service]
      ensures forall i :: 0 <= i < slots.Length ==>
        slots[i] == if i == SlotOf(slots.Length, h) then Some(Entry(h, service)) else old(slots[i])
    {
      var hash := Hash(slots.Length, h);
      PlacedOne(slots[..], live, h, service);
      ghost var before := slots[..];
      slots[hash] := Some(Entry(h, service));
      assert slots[..] == before[hash := Some(Entry(h, service))];
      live, next := live[h := service], h + 1;
    }

    /** `grab`. */
    method Grab(h: Handle) returns (r: Option<T>)
      requires Valid()
      ensures r == if h in live then Some(live[h]) else None
    {
      var entry := slots[Hash(slots.Length, h)];
      assert slots[..][SlotOf(slots.Length, h)] == entry;
      r := if entry.Some? && entry.value.handle == h then Some(entry.value.service) else None;
    }

    /** `retire`: the service goes, and every name it had. */
    method Retire(h: Handle) returns (r: Option<T>)
      requires Valid()
      modifies this, slots
      ensures Valid() && slots == old(slots) && next == old(next)
      ensures r == if h in old(live) then Some(old(live)[h]) else None
      ensures live == old(live) - {h}
      ensures names == map n | n in old(names) && old(names)[n] != h :: old(names)[n]
    {
      r := Grab(h);
      if r.Some? {
        RemovedOne(slots[..], live, h);
        ghost var before := slots[..];
        slots[Hash(slots.Length, h)] := None;
        assert slots[..] == before[SlotOf(slots.Length, h) := None];
        names := map n | n in names && names[n] != h :: names[n];
      }
      live := live - {h};
    }

    /** `register_name`: only for a live handle, and never over an existing name. */
    method RegisterName(h: Handle, name: string) returns (ok: bool)
      requires Valid()
      modifies this`names
      ensures Valid()
      ensures ok <==> h in live && name !in old(names)
      ensures names == if ok then old(names)[name := h] else old(names)
    {
      var service := Grab(h);
      ok := service.Some? && name !in names;
      if ok {
        names := names[name := h];
      }
    }

    /** `handles`: every live handle, once. */
    method Handles() returns (r: seq<Handle>)
      requires Valid()
      ensures forall h :: h in r <==> h in live
      ensures forall i, j :: 0 <= i < j < |r| ==> r[i] != r[j]
    {
      r := [];
      for k := 0 to slots.Length
        invariant forall h :: h in r <==> h in live && SlotOf(slots.Length, h) < k
        invariant forall i, j :: 0 <= i < j < |r| ==> r[i] != r[j]
      {
        assert slots[..][k] == slots[k];
        if slots[k].Some? {
          r := r + [slots[k].value.handle];
        }
      }
    }

    method FindName(name: string) returns (r: Option<Handle>)
      requires Valid()
      ensures r.Some? <==> name in names
      ensures r.Some? ==> r.value == names[name] && r.value in live
    {
      r := if name in names then Some(names[name]) else None;
    }
  }
}
