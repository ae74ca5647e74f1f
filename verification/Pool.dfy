/** The bounded pool of reusable items, with its stack of free items and its one waiter. */
module Pools {
  import opened Options

  type POI = x: int | 0 <= x <= POI_INVALID
  const POI_INVALID: int := 0xffff_ffff_ffff_ffff

  datatype Result<+T> = Ok(value: T) | InvalidArgs | LogicError

  function Items<T(==)>(stack: seq<T>): set<T> {
    set x | x in stack
  }

  predicate NoDuplicates<T(==)>(stack: seq<T>) {
    forall i, j :: 0 <= i < j < |stack| ==> stack[i] != stack[j]
  }

  lemma {:induction false} ItemsCount<T>(stack: seq<T>)
    requires NoDuplicates(stack)
    ensures |Items(stack)| == |stack|
  {
    if stack != [] {
      var n := |stack| - 1;
      ItemsCount(stack[..n]);
      assert Items(stack) == Items(stack[..n]) + {stack[n]};
    }
  }

  lemma NextItem<T>(items: seq<T>, i: nat)
    requires NoDuplicates(items) && i < |items|
    ensures items[i] !in Items(items[..i]) && items[..i + 1] == items[..i] + [items[i]]
    ensures Items(items[..i + 1]) == Items(items[..i]) + {items[i]}
  {
  }

  lemma NoItems<T>(items: seq<T>)
    ensures Items(items[..0]) == {}
  {
  }

  /** Free and lent items together are all items: what is not on the stack is in flight. */
  lemma InFlightCount<T>(all: set<T>, stack: seq<T>)
    requires NoDuplicates(stack) && Items(stack) <= all
    ensures |all - Items(stack)| == |all| - |stack|
  {
    ItemsCount(stack);
    assert all == (all - Items(stack)) + Items(stack);
    assert (all - Items(stack)) !! Items(stack);
  }

  function Lent<T>(stack: seq<T>, all: map<T, POI>): set<T> {
    all.Keys - Items(stack)
  }

  /** What every operation keeps: the items fall into the stack and those in flight, the counter counts
      the latter, the limit holds, and somebody waits only when nothing is free. */
  ghost predicate Sound<T>(maxSize: nat, stack: seq<T>, waiting: bool, all: map<T, POI>, count: int) {
    && NoDuplicates(stack) && Items(stack) <= all.Keys
    && count == |all| - |stack|
    && (maxSize > 0 ==> |all| <= maxSize)
    && (waiting ==> stack == [] && maxSize > 0 && count == maxSize)
    && (forall x <- stack :: x in all && all[x] == POI_INVALID)
  }

  lemma SoundCount<T>(maxSize: nat, stack: seq<T>, waiting: bool, all: map<T, POI>, count: int)
    requires Sound(maxSize, stack, waiting, all, count)
    ensures count == |Lent(stack, all)| && (maxSize > 0 ==> count <= maxSize)
    ensures waiting ==> stack == [] && maxSize > 0 && count == maxSize && Lent(stack, all) == all.Keys
  {
    InFlightCount(all.Keys, stack);
    assert |all| == |all.Keys|;
  }

  lemma PushKeeps<T>(maxSize: nat, stack: seq<T>, all: map<T, POI>, count: int, x: T)
    requires Sound(maxSize, stack, false, all, count) && x in Lent(stack, all)
    ensures Sound(maxSize, stack + [x], false, all[x := POI_INVALID], count - 1)
    ensures Lent(stack + [x], all[x := POI_INVALID]) == Lent(stack, all) - {x} && all[x := POI_INVALID].Keys == all.Keys
    ensures count > 0
  {
    assert all[x := POI_INVALID].Keys == all.Keys;
    assert |all| == |all.Keys| && |all[x := POI_INVALID]| == |all.Keys|;
    assert Items(stack + [x]) == Items(stack) + {x};
    InFlightCount(all.Keys, stack);
  }

  lemma PopKeeps<T>(maxSize: nat, stack: seq<T>, all: map<T, POI>, count: int, id: POI)
    requires Sound(maxSize, stack, false, all, count) && stack != []
    ensures var n := |stack| - 1;
            var x := stack[n];
            && Sound(maxSize, stack[..n], false, all[x := id], count + 1)
            && x !in Lent(stack, all) && Lent(stack[..n], all[x := id]) == Lent(stack, all) + {x} && all[x := id].Keys == all.Keys
  {
    var n := |stack| - 1;
    var x := stack[n];
    assert x in stack;
    assert all[x := id].Keys == all.Keys;
    assert |all| == |all.Keys| && |all[x := id]| == |all.Keys|;
    assert Items(stack) == Items(stack[..n]) + {x};
    assert forall y <- stack[..n] :: y in stack && y != x;
  }

  lemma CreateKeeps<T>(maxSize: nat, all: map<T, POI>, count: int, x: T, id: POI)
    requires Sound(maxSize, [], false, all, count) && x !in all && (maxSize == 0 || count < maxSize)
    ensures Sound(maxSize, [], false, all[x := id], count + 1)
    ensures Lent([], all[x := id]) == Lent([], all) + {x} && x !in Lent([], all) && all[x := id].Keys == all.Keys + {x}
  {
    assert all[x := id].Keys == all.Keys + {x};
    assert |all| == |all.Keys| && |all[x := id]| == |all[x := id].Keys|;
    var none: seq<T> := [];
    assert Items(none) == {};
  }

  lemma SubscribeKeeps<T>(maxSize: nat, stack: seq<T>, all: map<T, POI>, count: int, x: T)
    requires Sound(maxSize, stack, false, all, count) && x !in all && (maxSize > 0 ==> |all| < maxSize)
    ensures Sound(maxSize, stack, false, all[x := 0], count + 1) && x in Lent(stack, all[x := 0])
    ensures Lent(stack, all[x := 0]) - {x} == Lent(stack, all) && all[x := 0].Keys == all.Keys + {x}
  {
    assert all[x := 0].Keys == all.Keys + {x};
    assert |all| == |all.Keys| && |all[x := 0]| == |all[x := 0].Keys|;
    assert forall y <- stack :: y in all;
  }

  lemma SoundWaiting<T>(maxSize: nat, stack: seq<T>, all: map<T, POI>, count: int)
    requires Sound(maxSize, stack, false, all, count) && stack == [] && maxSize > 0 && count == maxSize
    ensures Sound(maxSize, stack, true, all, count)
  {
  }

  /** A waiter of type `W` stands for the callback that is to get an item. */
  class Pool<T(==), W> {
    const maxSize: nat
    var stack: seq<T>
    var waiter: Option<W>
    var allItems: map<T, POI>
    var inFlightCount: nat

    ghost function InFlight(): set<T>
      reads this
    {
      Lent(stack, allItems)
    }

    ghost predicate Valid()
      reads this
    {
      Sound(maxSize, stack, waiter.Some?, allItems, inFlightCount)
    }

    constructor (maxSize: nat)
      ensures Valid() && this.maxSize == maxSize && stack == [] && waiter.None? && allItems == map[] && InFlight() == {}
    {
      this.maxSize, stack, waiter, allItems, inFlightCount := maxSize, [], None, map[], 0;
    }

    /** `created` are the items that `create` gives, in order. */
    static method New(maxSize: nat, eager: bool, created: seq<T>) returns (r: Result<Pool<T, W>>)
      requires eager ==> |created| == maxSize && NoDuplicates(created)
      ensures r.InvalidArgs? <==> maxSize == 0 && eager
      ensures !r.LogicError?
      ensures r.Ok? ==> fresh(r.value) && r.value.Valid() && r.value.maxSize == maxSize && r.value.waiter.None?
      ensures r.Ok? ==> r.value.stack == (if eager then created else []) && r.value.InFlight() == {}
    {
      hide Sound, Lent, Items, NoDuplicates;
      if maxSize == 0 && eager { return InvalidArgs; }
      var pool := new Pool(maxSize);
      if eager {
        assert Items(created[..0]) == {} by { NoItems(created); }
        var i := 0;
        while i < maxSize
          invariant 0 <= i <= maxSize && pool.Valid() && pool.maxSize == maxSize && pool.waiter.None?
          invariant fresh(pool) && pool.stack == created[..i] && pool.InFlight() == {} && |pool.allItems| == i
          invariant pool.allItems.Keys == Items(created[..i])
        {
          NextItem(created, i);
          pool.Add(created[i]);
          i := i + 1;
        }
        assert created[..i] == created;
      }
      return Ok(pool);
    }

    method Add(item: T)
      requires Valid() && item !in allItems && waiter.None? && (maxSize > 0 ==> |allItems| < maxSize)
      modifies this
      ensures Valid() && stack == old(stack) + [item] && waiter.None? && allItems.Keys == old(allItems.Keys) + {item}
      ensures InFlight() == old(InFlight()) && |allItems| == |old(allItems)| + 1
    {
      hide Sound;
      SubscribeKeeps(maxSize, stack, allItems, inFlightCount, item);
      allItems, inFlightCount := allItems[item := 0], inFlightCount + 1;
      var _ := Insert(item);
    }

    /** Puts an item that is in flight onto the stack, or hands it to the waiter. */
    method Insert(item: T) returns (served: Option<W>)
      requires Valid() && item in InFlight()
      modifies this
      ensures Valid() && served == old(waiter) && waiter.None? && allItems.Keys == old(allItems.Keys)
      ensures served.Some? ==> stack == [] && InFlight() == old(InFlight()) && allItems == old(allItems)
      ensures served.None? ==> stack == old(stack) + [item] && InFlight() == old(InFlight()) - {item}
    {
      SoundCount(maxSize, stack, waiter.Some?, allItems, inFlightCount);
      served := waiter;
      if waiter.Some? {
        waiter := None;
        return;
      }
      PushKeeps(maxSize, stack, allItems, inFlightCount, item);
      stack := stack + [item];
      allItems := allItems[item := POI_INVALID];
      inFlightCount := inFlightCount - 1;
    }

    /** The last item that came back, or a new one if the limit allows; `created` is what `create` would give. */
    method TryBorrow(id: POI, created: T) returns (p: Option<T>)
      requires Valid() && created !in allItems
      modifies this
      ensures Valid() && waiter == old(waiter)
      ensures p.None? <==> old(stack == [] && maxSize > 0 && |InFlight()| == maxSize)
      ensures old(stack != []) ==> p == Some(old(stack)[|old(stack)| - 1]) && stack == old(stack)[..|old(stack)| - 1] && allItems.Keys == old(allItems.Keys)
      ensures old(stack == []) && p.Some? ==> p == Some(created) && stack == [] && allItems.Keys == old(allItems.Keys) + {created}
      ensures p.Some? ==> waiter.None? && p.value !in old(InFlight()) && InFlight() == old(InFlight()) + {p.value} && p.value in allItems && allItems[p.value] == id
      ensures p.None? ==> stack == old(stack) && allItems == old(allItems) && inFlightCount == old(inFlightCount)
    {
      hide Sound, Lent;
      SoundCount(maxSize, stack, waiter.Some?, allItems, inFlightCount);
      p := None;
      if stack != [] {
        PopKeeps(maxSize, stack, allItems, inFlightCount, id);
        var n := |stack| - 1;
        p := Some(stack[n]);
        inFlightCount := inFlightCount + 1;
        allItems := allItems[stack[n] := id];
        stack := stack[..n];
      } else if maxSize == 0 || inFlightCount < maxSize {
        CreateKeeps(maxSize, allItems, inFlightCount, created, id);
        p := Some(created);
        inFlightCount := inFlightCount + 1;
        allItems := allItems[created := id];
      }
    }

    /** Lends an item now or never. */
    method Borrow(id: POI, created: T) returns (p: Option<T>)
      requires Valid() && created !in allItems
      modifies this
      ensures Valid() && waiter == old(waiter)
      ensures maxSize == 0 ==> p.Some?
      ensures p.None? <==> old(stack == [] && maxSize > 0 && |InFlight()| == maxSize)
      ensures p.Some? ==> p.value !in old(InFlight()) && InFlight() == old(InFlight()) + {p.value}
      ensures p.None? ==> InFlight() == old(InFlight())
    {
      p := TryBorrow(id, created);
    }

    /** Lends an item now, or to `callback` as soon as one comes back. */
    method BorrowOrWait(callback: W, id: POI, created: T) returns (r: Result<Option<T>>)
      requires Valid() && created !in allItems
      modifies this
      ensures Valid() && !r.InvalidArgs?
      ensures r.LogicError? <==> old(waiter.Some?)
      ensures r.LogicError? ==> waiter == old(waiter) && InFlight() == old(InFlight())
      ensures r == Ok(None) ==> waiter == Some(callback) && InFlight() == old(InFlight()) && stack == []
      ensures r.Ok? && r.value.Some? ==> waiter.None? && r.value.value !in old(InFlight()) && InFlight() == old(InFlight()) + {r.value.value}
      ensures r.Ok? && r.value.Some? && old(stack) != [] ==> stack + [r.value.value] == old(stack)
    {
      hide Sound, Lent, NoDuplicates;
      SoundCount(maxSize, stack, waiter.Some?, allItems, inFlightCount);
      var p := TryBorrow(id, created);
      if p.None? {
        if waiter.Some? { return LogicError; }
        SoundWaiting(maxSize, stack, allItems, inFlightCount);
        waiter := Some(callback);
      }
      return Ok(p);
    }

    /** Takes an item back. With a waiter, the item stays in flight and goes to the waiter, who is then
        gone; without one it is the next item to be lent. */
    method PutBack(p: T) returns (served: Option<W>)
      requires Valid() && p in InFlight()
      modifies this
      ensures Valid() && served == old(waiter) && waiter.None?
      ensures served.Some? ==> stack == [] && InFlight() == old(InFlight())
      ensures served.None? ==> stack == old(stack) + [p] && InFlight() == old(InFlight()) - {p}
    {
      hide Sound, Lent;
      served := Insert(p);
    }
  }
}
