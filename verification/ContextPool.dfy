/** The contexts that sessions run on: a bounded pool with a round-robin cursor, contexts that can be
    deactivated and reused, and the fairness of the scheduler. */
module ContextPools {

  /** A context: `refs` sessions run on it, and `holds` claims keep it from being deactivated. */
  datatype Context = Context(active: bool, refs: nat, holds: nat, threads: nat)

  datatype Outcome = Done | Busy | BadIndex | NotActive | LastActive | TooMany | BadThreads

  // The order of service.

  /** The active contexts from `lo` up to `hi`. */
  function Actives(active: seq<bool>, lo: nat, hi: nat): seq<nat>
    requires lo <= hi <= |active|
    decreases hi - lo
  {
    if lo == hi then [] else (if active[lo] then [lo] else []) + Actives(active, lo + 1, hi)
  }

  /** The active contexts in the order in which they come up from the cursor. */
  function Cycle(active: seq<bool>, next: nat): seq<nat>
    requires next <= |active|
  {
    Actives(active, next, |active|) + Actives(active, 0, next)
  }

  function After(k: nat, n: nat): nat {
    if k + 1 == n then 0 else k + 1
  }

  /** The contexts that `m` calls in a row return while no context changes. */
  function Picks(active: seq<bool>, next: nat, m: nat): (ks: seq<nat>)
    requires next <= |active| && (m > 0 ==> Cycle(active, next) != [])
    decreases m
  {
    if m == 0 then []
    else
      var k := Cycle(active, next)[0];
      Rotates(active, next);
      [k] + Picks(active, After(k, |active|), m - 1)
  }

  lemma {:induction false} ActivesSplit(active: seq<bool>, lo: nat, mid: nat, hi: nat)
    requires lo <= mid <= hi <= |active|
    ensures Actives(active, lo, hi) == Actives(active, lo, mid) + Actives(active, mid, hi)
    decreases mid - lo
  {
    if lo < mid { ActivesSplit(active, lo + 1, mid, hi); }
  }

  lemma {:induction false} ActivesFirst(active: seq<bool>, lo: nat, hi: nat)
    requires lo <= hi <= |active| && Actives(active, lo, hi) != []
    ensures var k := Actives(active, lo, hi)[0];
            && lo <= k < hi && active[k] && Actives(active, lo, k) == []
            && Actives(active, lo, hi) == [k] + Actives(active, k + 1, hi)
    decreases hi - lo
  {
    if !active[lo] { ActivesFirst(active, lo + 1, hi); }
  }

  lemma {:induction false} ActivesExact(active: seq<bool>, lo: nat, hi: nat)
    requires lo <= hi <= |active|
    ensures forall k :: k in Actives(active, lo, hi) <==> lo <= k < hi && active[k]
    ensures forall i, j :: 0 <= i < j < |Actives(active, lo, hi)| ==> Actives(active, lo, hi)[i] < Actives(active, lo, hi)[j]
    decreases hi - lo
  {
    if lo < hi {
      ActivesExact(active, lo + 1, hi);
      var s, t := Actives(active, lo, hi), Actives(active, lo + 1, hi);
      forall i, j | 0 <= i < j < |s|
        ensures s[i] < s[j]
      {
        if active[lo] {
          assert s[j] == t[j - 1] && t[j - 1] in t;
        }
      }
    }
  }

  lemma {:induction false} ActivesOne(active: seq<bool>, k: nat)
    requires k < |active|
    ensures Actives(active, k, k + 1) == if active[k] then [k] else []
  {
    assert Actives(active, k + 1, k + 1) == [];
  }

  /** After a call the order of service is the same, with the context just returned moved to the end. */
  lemma Rotates(active: seq<bool>, next: nat)
    requires next <= |active| && Cycle(active, next) != []
    ensures var k := Cycle(active, next)[0];
            && k < |active| && active[k] && Cycle(active, After(k, |active|)) == Cycle(active, next)[1..] + [k]
  {
    hide Actives;
    var n := |active|;
    var k := Cycle(active, next)[0];
    ActivesEmpty(active);
    if Actives(active, next, n) != [] {
      ActivesFirst(active, next, n);
      ActivesOne(active, k);
      ActivesSplit(active, next, k, k + 1);
      ActivesSplit(active, 0, next, k + 1);
      assert Cycle(active, next)[1..] == Actives(active, k + 1, n) + Actives(active, 0, next);
    } else {
      ActivesFirst(active, 0, next);
      ActivesOne(active, k);
      ActivesSplit(active, 0, k, k + 1);
      ActivesSplit(active, k + 1, next, n);
      assert Cycle(active, next)[1..] == Actives(active, k + 1, next);
    }
  }

  lemma ActivesEmpty(active: seq<bool>)
    ensures forall k :: 0 <= k <= |active| ==> Actives(active, k, k) == []
  {
  }

  lemma {:induction false} PicksFollowCycle(active: seq<bool>, next: nat, m: nat)
    requires next <= |active| && m <= |Cycle(active, next)|
    ensures Picks(active, next, m) == Cycle(active, next)[..m]
    decreases m
  {
    hide Actives, Cycle;
    if m > 0 {
      var c := Cycle(active, next);
      Rotates(active, next);
      PicksFollowCycle(active, After(c[0], |active|), m - 1);
    }
  }

  function Flags(contexts: seq<Context>): seq<bool> {
    seq(|contexts|, i requires 0 <= i < |contexts| => contexts[i].active)
  }

  /** Round-robin fairness: as many calls in a row as there are active contexts return each of them exactly
      once, whatever the cursor. */
  lemma Fair(active: seq<bool>, next: nat)
    requires next <= |active| && Cycle(active, next) != []
    ensures var ks := Picks(active, next, |Cycle(active, next)|);
            && (forall k :: k in ks <==> 0 <= k < |active| && active[k])
            && (forall i, j :: 0 <= i < j < |ks| ==> ks[i] != ks[j])
    ensures |Cycle(active, next)| == |set k | 0 <= k < |active| && active[k]|
  {
    hide Actives, Picks;
    var c := Cycle(active, next);
    PicksFollowCycle(active, next, |c|);
    assert Picks(active, next, |c|) == c;
    CycleExact(active, next);
    DistinctCount(c, set k | 0 <= k < |active| && active[k]);
  }

  lemma CycleExact(active: seq<bool>, next: nat)
    requires next <= |active|
    ensures forall k :: k in Cycle(active, next) <==> 0 <= k < |active| && active[k]
    ensures forall i, j :: 0 <= i < j < |Cycle(active, next)| ==> Cycle(active, next)[i] != Cycle(active, next)[j]
  {
    hide Actives;
    var a, b := Actives(active, next, |active|), Actives(active, 0, next);
    ActivesExact(active, next, |active|);
    ActivesExact(active, 0, next);
    var c := Cycle(active, next);
    assert forall k :: k in c <==> k in a || k in b;
    forall i, j | 0 <= i < j < |c|
      ensures c[i] != c[j]
    {
      if i < |a| <= j {
        assert c[i] in a && c[j] in b;
      }
    }
  }

  lemma {:induction false} DistinctCount(s: seq<nat>, all: set<nat>)
    requires forall i, j :: 0 <= i < j < |s| ==> s[i] != s[j]
    requires forall k :: k in s <==> k in all
    ensures |s| == |all|
  {
    if s == [] {
      assert all == {};
    } else {
      assert s[0] in s;
      DistinctCount(s[1..], all - {s[0]});
    }
  }

  /** How far the cursor has to go to `k`. */
  function Ahead(k: nat, next: nat, n: nat): nat
    requires k < n && next < n
  {
    if next <= k then k - next else k + n - next
  }

  lemma SkipsInactive(active: seq<bool>, next: nat)
    requires next < |active|
    ensures active[next] ==> Cycle(active, next) != [] && Cycle(active, next)[0] == next
    ensures !active[next] ==> Cycle(active, After(next, |active|)) == Cycle(active, next)
    ensures !active[next] && Cycle(active, next) != [] ==> Cycle(active, next)[0] != next
  {
    var n := |active|;
    ActivesSplit(active, next, next + 1, n);
    ActivesSplit(active, 0, next, next + 1);
    ActivesOne(active, next);
    ActivesEmpty(active);
    if Cycle(active, next) != [] { Rotates(active, next); }
  }

  /** Between the cursor and `k`, in the order of the cursor. */
  predicate Passed(next: nat, k: nat, j: nat) {
    if next <= k then next <= j < k else next <= j || j < k
  }

  /** The first in the order of service is the first active context that the cursor comes to. */
  lemma FirstInTurn(active: seq<bool>, next: nat)
    requires next < |active| && Cycle(active, next) != []
    ensures var k := Cycle(active, next)[0];
            k < |active| && active[k] && forall j :: 0 <= j < |active| && Passed(next, k, j) ==> !active[j]
  {
    hide Actives;
    var n := |active|;
    ActivesExact(active, next, n);
    ActivesExact(active, 0, next);
    if Actives(active, next, n) != [] {
      ActivesFirst(active, next, n);
      ActivesExact(active, next, Cycle(active, next)[0]);
    } else {
      ActivesFirst(active, 0, next);
      ActivesExact(active, 0, Cycle(active, next)[0]);
    }
  }

  // The pool.

  predicate Reusable(c: Context) {
    !c.active && c.refs == 0
  }

  function FirstReusable(contexts: seq<Context>): (i: nat)
    ensures i <= |contexts| && (i < |contexts| ==> Reusable(contexts[i]))
    ensures forall k :: 0 <= k < i ==> !Reusable(contexts[k])
  {
    if contexts == [] || Reusable(contexts[0]) then 0 else 1 + FirstReusable(contexts[1..])
  }

  function CountActive(contexts: seq<Context>): nat {
    if contexts == [] then 0
    else CountActive(contexts[..|contexts| - 1]) + if contexts[|contexts| - 1].active then 1 else 0
  }

  /** The contexts after `add_context`: the first reusable one is taken up again, or there is one more. A new
      context stays even when its number of threads is refused. */
  function Added(contexts: seq<Context>, capacity: nat, threads: nat): (r: (seq<Context>, Outcome)) {
    var i := FirstReusable(contexts);
    if i < |contexts| then (contexts[i := contexts[i].(active := true, threads := threads)], Done)
    else if |contexts| >= capacity then (contexts, TooMany)
    else if 1 <= threads <= 64 then (contexts + [Context(true, 0, 0, threads)], Done)
    else (contexts + [Context(true, 0, 0, 0)], BadThreads)
  }

  /** The contexts after `deactivate_context`. */
  function Deactivated(contexts: seq<Context>, k: nat): (r: (seq<Context>, Outcome)) {
    if k >= |contexts| then (contexts, BadIndex)
    else if !contexts[k].active then (contexts, NotActive)
    else if CountActive(contexts) < 2 then (contexts, LastActive)
    else if contexts[k].holds > 0 then (contexts, Busy)
    else (contexts[k := contexts[k].(active := false)], Done)
  }

  ghost predicate HeldIsActive(contexts: seq<Context>) {
    forall k :: 0 <= k < |contexts| && contexts[k].holds > 0 ==> contexts[k].active
  }

  ghost predicate SomeActive(contexts: seq<Context>) {
    exists k :: 0 <= k < |contexts| && contexts[k].active
  }

  lemma {:induction false} CountIsPositive(contexts: seq<Context>)
    ensures CountActive(contexts) > 0 <==> SomeActive(contexts)
  {
    if contexts != [] {
      var n := |contexts| - 1;
      CountIsPositive(contexts[..n]);
      if SomeActive(contexts[..n]) {
        var k :| 0 <= k < n && contexts[..n][k].active;
        assert contexts[k].active;
      }
      if k :| 0 <= k < |contexts| && contexts[k].active {
        assert k < n ==> contexts[..n][k].active;
      }
    }
  }

  lemma {:induction false} CountAfterUpdate(contexts: seq<Context>, k: nat, c: Context)
    requires k < |contexts|
    ensures CountActive(contexts[k := c]) == CountActive(contexts) - (if contexts[k].active then 1 else 0) + (if c.active then 1 else 0)
  {
    var n := |contexts| - 1;
    if k == n {
      assert contexts[k := c][..n] == contexts[..n];
    } else {
      assert contexts[k := c][..n] == contexts[..n][k := c];
      CountAfterUpdate(contexts[..n], k, c);
    }
  }

  /** Adding a context keeps the bound and the activity of every held context, and does not touch a count of
      sessions or of holds. */
  lemma AddIsSafe(contexts: seq<Context>, capacity: nat, threads: nat)
    requires |contexts| <= capacity && HeldIsActive(contexts)
    ensures var (after, r) := Added(contexts, capacity, threads);
            && |contexts| <= |after| <= capacity && HeldIsActive(after) && SameCounts(contexts, after)
            && (SomeActive(contexts) || !r.TooMany? ==> SomeActive(after))
            && (r.TooMany? ==> after == contexts && |contexts| == capacity)
            && (forall k :: 0 <= k < |contexts| && contexts[k].active ==> after[k] == contexts[k])
  {
    var (after, r) := Added(contexts, capacity, threads);
    if SomeActive(contexts) {
      var i :| 0 <= i < |contexts| && contexts[i].active;
      assert after[i].active;
    } else if !r.TooMany? {
      var i := FirstReusable(contexts);
      assert after[i].active;
    }
  }

  /** Deactivating a context leaves another one active, never touches a held one, and changes no count. */
  lemma DeactivateIsSafe(contexts: seq<Context>, k: nat)
    requires HeldIsActive(contexts) && SomeActive(contexts)
    ensures var (after, r) := Deactivated(contexts, k);
            && |contexts| == |after| && HeldIsActive(after) && SomeActive(after) && SameCounts(contexts, after)
            && (r.Done? <==> after != contexts)
            && (forall i :: 0 <= i < |contexts| && i != k ==> after[i] == contexts[i])
            && (forall i :: 0 <= i < |contexts| && contexts[i].holds > 0 ==> after[i] == contexts[i])
  {
    var after := Deactivated(contexts, k).0;
    if after != contexts {
      CountAfterUpdate(contexts, k, contexts[k].(active := false));
      CountIsPositive(after);
    }
  }

  /** The active contexts. */
  function ActiveSet(contexts: seq<Context>): set<nat> {
    set k: nat | k < |contexts| && contexts[k].active
  }

  lemma {:induction false} CountIsSize(contexts: seq<Context>)
    ensures CountActive(contexts) == |ActiveSet(contexts)|
  {
    if contexts == [] {
      assert ActiveSet(contexts) == {};
    } else {
      var n := |contexts| - 1;
      CountIsSize(contexts[..n]);
      assert ActiveSet(contexts) == ActiveSet(contexts[..n]) + if contexts[n].active then {n} else {};
    }
  }

  predicate OtherActive(contexts: seq<Context>, k: nat) {
    exists j :: 0 <= j < |contexts| && j != k && contexts[j].active
  }

  lemma OtherCounts(contexts: seq<Context>, k: nat)
    requires k < |contexts| && contexts[k].active
    ensures CountActive(contexts) >= 2 <==> OtherActive(contexts, k)
  {
    var after := contexts[k := contexts[k].(active := false)];
    CountAfterUpdate(contexts, k, after[k]);
    CountIsPositive(after);
    if j :| 0 <= j < |contexts| && j != k && contexts[j].active {
      assert after[j].active;
    }
    if j :| 0 <= j < |after| && after[j].active {
      assert j != k && contexts[j].active;
    }
  }

  /** What `deactivate_context` answers, and when; a context is deactivated exactly if it is there, active, not the only
      active one, and not held. */
  ghost predicate DeactivatedAsAsked(contexts: seq<Context>, k: nat, after: seq<Context>, r: Outcome) {
    && (r.BadIndex? <==> k >= |contexts|)
    && (r.NotActive? <==> k < |contexts| && !contexts[k].active)
    && (r.LastActive? <==> k < |contexts| && contexts[k].active && !OtherActive(contexts, k))
    && (r.Busy? <==> k < |contexts| && contexts[k].active && OtherActive(contexts, k) && contexts[k].holds > 0)
    && (r.Done? <==> k < |contexts| && contexts[k].active && OtherActive(contexts, k) && contexts[k].holds == 0)
    && after == if r.Done? && k < |contexts| then contexts[k := contexts[k].(active := false)] else contexts
  }

  lemma DeactivateExact(contexts: seq<Context>, k: nat)
    ensures var (after, r) := Deactivated(contexts, k); DeactivatedAsAsked(contexts, k, after, r)
  {
    hide CountActive, OtherActive;
    if k < |contexts| && contexts[k].active { OtherCounts(contexts, k); }
  }

  /** What `add_context` answers, and when: the first inactive context without sessions is taken up again; without one
      there is a new context as long as there is room, which stays even when its number of threads is refused. */
  ghost predicate AddedAsAsked(contexts: seq<Context>, capacity: nat, threads: nat, after: seq<Context>, r: Outcome) {
    && (forall i :: 0 <= i < |contexts| && !contexts[i].active && contexts[i].refs == 0
                    && (forall j :: 0 <= j < i ==> contexts[j].active || contexts[j].refs > 0) ==>
          r.Done? && after == contexts[i := contexts[i].(active := true, threads := threads)])
    && ((forall i :: 0 <= i < |contexts| ==> contexts[i].active || contexts[i].refs > 0) ==>
          if |contexts| >= capacity then r.TooMany? && after == contexts
          else if 1 <= threads <= 64 then r.Done? && after == contexts + [Context(true, 0, 0, threads)]
          else r.BadThreads? && after == contexts + [Context(true, 0, 0, 0)])
  }

  lemma AddExact(contexts: seq<Context>, capacity: nat, threads: nat)
    ensures var (after, r) := Added(contexts, capacity, threads); AddedAsAsked(contexts, capacity, threads, after, r)
  {
    var n := FirstReusable(contexts);
    assert n < |contexts| ==> Reusable(contexts[n]);
    forall i | 0 <= i < |contexts| && Reusable(contexts[i]) && (forall j :: 0 <= j < i ==> !Reusable(contexts[j]))
      ensures i == n
    {
    }
  }

  /** The counts of the contexts that were there are unchanged, and those of new ones are zero. */
  ghost predicate SameCounts(contexts: seq<Context>, after: seq<Context>) {
    && |contexts| <= |after|
    && (forall k :: 0 <= k < |contexts| ==> after[k].refs == contexts[k].refs && after[k].holds == contexts[k].holds)
    && (forall k :: |contexts| <= k < |after| ==> after[k].refs == 0 && after[k].holds == 0)
  }

  lemma OrderIsSome(contexts: seq<Context>, next: nat)
    requires next < |contexts| && SomeActive(contexts)
    ensures Cycle(Flags(contexts), next) != [] && Cycle(Flags(contexts), next)[0] < |contexts|
  {
    hide Cycle;
    CycleExact(Flags(contexts), next);
    var i :| 0 <= i < |contexts| && contexts[i].active;
    assert Flags(contexts)[i] && i in Cycle(Flags(contexts), next);
    assert Cycle(Flags(contexts), next)[0] in Cycle(Flags(contexts), next);
  }

  class LSContextPool {
    var contexts: seq<Context>
    var next: nat
    const capacity: nat

    /** The cursor is on a context, if there is one; a held context is active; the reserved room is enough. */
    ghost predicate Valid()
      reads this
    {
      && |contexts| <= capacity && (contexts == [] ==> next == 0) && (contexts != [] ==> next < |contexts|)
      && HeldIsActive(contexts)
    }

    constructor (capacity: nat)
      ensures Valid() && contexts == [] && this.capacity == capacity
    {
      this.capacity, contexts, next := capacity, [], 0;
    }

    /** The next active context, in the order of service, with one more hold. The search ends within one
        round of the contexts. */
    method GetContextRoundRobin() returns (k: nat, ghost steps: nat)
      requires Valid() && SomeActive(contexts)
      modifies this
      ensures Valid() && steps <= |contexts|
      ensures Cycle(Flags(old(contexts)), old(next)) != [] && k == Cycle(Flags(old(contexts)), old(next))[0]
      ensures k < |old(contexts)| && old(contexts)[k].active
      ensures forall j :: 0 <= j < |old(contexts)| && Passed(old(next), k, j) ==> !old(contexts)[j].active
      ensures contexts == old(contexts)[k := old(contexts)[k].(holds := old(contexts)[k].holds + 1)]
      ensures Flags(contexts) == Flags(old(contexts)) && next == After(k, |contexts|)
    {
      hide Actives, Cycle, Passed;
      ghost var flags := Flags(contexts);
      steps := 0;
      OrderIsSome(contexts, next);
      ghost var order := Cycle(flags, next);
      FirstInTurn(flags, next);
      while true
        invariant Valid() && contexts == old(contexts) && next < |contexts| == |flags|
        invariant Cycle(flags, next) == order
        invariant steps + Ahead(order[0], next, |contexts|) < |contexts|
        decreases Ahead(order[0], next, |contexts|)
      {
        SkipsInactive(flags, next);
        k := next;
        steps := steps + 1;
        next := next + 1;
        if next == |contexts| { next := 0; }
        if contexts[k].active {
          contexts := contexts[k := contexts[k].(holds := contexts[k].holds + 1)];
          assert Flags(contexts) == flags;
          break;
        }
      }
    }

    method AddContext(threads: nat) returns (r: Outcome)
      requires Valid()
      modifies this
      ensures (contexts, r) == Added(old(contexts), capacity, threads) && AddedAsAsked(old(contexts), capacity, threads, contexts, r)
      ensures Valid() && SameCounts(old(contexts), contexts) && next == old(next)
      ensures old(SomeActive(contexts)) || !r.TooMany? ==> SomeActive(contexts)
    {
      hide AddedAsAsked, SomeActive;
      AddIsSafe(contexts, capacity, threads);
      AddExact(contexts, capacity, threads);
      var i := 0;
      while i < |contexts|
        invariant 0 <= i <= |contexts| && contexts == old(contexts) && next == old(next)
        invariant forall k :: 0 <= k < i ==> !Reusable(contexts[k])
      {
        if Reusable(contexts[i]) {
          contexts := contexts[i := contexts[i].(active := true, threads := threads)];
          return Done;
        }
        i := i + 1;
      }
      if |contexts| == capacity { return TooMany; }
      contexts := contexts + [Context(true, 0, 0, 0)];
      if threads < 1 || threads > 64 { return BadThreads; }
      contexts := contexts[|contexts| - 1 := contexts[|contexts| - 1].(threads := threads)];
      assert contexts == old(contexts) + [Context(true, 0, 0, threads)];
      return Done;
    }

    method ActiveContextsCount() returns (count: nat)
      ensures count == CountActive(contexts) == |ActiveSet(contexts)|
    {
      CountIsSize(contexts);
      hide ActiveSet;
      count := 0;
      var i := 0;
      while i < |contexts|
        invariant 0 <= i <= |contexts| && count == CountActive(contexts[..i])
      {
        assert contexts[..i + 1][..i] == contexts[..i];
        if contexts[i].active { count := count + 1; }
        i := i + 1;
      }
      assert contexts[..i] == contexts;
    }

    method DeactivateContext(k: nat) returns (r: Outcome)
      requires Valid() && SomeActive(contexts)
      modifies this
      ensures (contexts, r) == Deactivated(old(contexts), k) && DeactivatedAsAsked(old(contexts), k, contexts, r)
      ensures Valid() && SomeActive(contexts) && SameCounts(old(contexts), contexts) && next == old(next)
    {
      hide DeactivatedAsAsked;
      DeactivateIsSafe(contexts, k);
      DeactivateExact(contexts, k);
      if k >= |contexts| { return BadIndex; }
      if !contexts[k].active { return NotActive; }
      var count := ActiveContextsCount();
      if count < 2 { return LastActive; }
      if contexts[k].holds > 0 { return Busy; }
      contexts := contexts[k := contexts[k].(active := false)];
      return Done;
    }
  }
}
