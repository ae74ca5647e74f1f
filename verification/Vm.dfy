/** The lock manager of the VScript machine: interleaved LOCK, UNLOCK and clean-up of many sessions. */
module Vm {
  import opened Options

  type SessionId = int
  type Num = int

  datatype Resource = Resource(taken: bool, holder: SessionId)

  /** What a session is at; it does one thing at a time. `Locking` and `Unlocking` have looked their resource up;
      `Cleaning` has `todo` yet to visit. */
  datatype Pc = Idle | Locking(n: Num) | Unlocking(n: Num) | Cleaning(todo: set<Num>)

  /** `sweeper` has the map's mutex for itself. `held` is history: the pairs of a session and a resource whose
      LOCK has succeeded and has not been undone by the session's own UNLOCK or clean-up. */
  datatype State = State(
    resources: map<Num, Resource>, pcs: map<SessionId, Pc>, sweeper: Option<SessionId>, held: set<(SessionId, Num)>)

  datatype Action =
    | BeginLock(s: SessionId, n: Num, junk: SessionId) | Take(s: SessionId) | Cancel(s: SessionId)
    | BeginUnlock(s: SessionId, n: Num, junk: SessionId) | Drop(s: SessionId)
    | BeginCleanup(s: SessionId) | Visit(s: SessionId, n: Num) | EndCleanup(s: SessionId)

  function PcOf(m: State, s: SessionId): Pc {
    if s in m.pcs then m.pcs[s] else Idle
  }

  predicate Enabled(m: State, a: Action) {
    match a
    case BeginLock(s, _, _) => PcOf(m, s).Idle? && m.sweeper.None?
    case Take(s) => PcOf(m, s).Locking? && PcOf(m, s).n in m.resources && !m.resources[PcOf(m, s).n].taken
    case Cancel(s) => PcOf(m, s).Locking?
    case BeginUnlock(s, _, _) => PcOf(m, s).Idle? && m.sweeper.None?
    case Drop(s) => PcOf(m, s).Unlocking? && PcOf(m, s).n in m.resources
    case BeginCleanup(s) => PcOf(m, s).Idle? && m.sweeper.None?
    case Visit(s, n) => PcOf(m, s).Cleaning? && n in PcOf(m, s).todo && n in m.resources
    case EndCleanup(s) => PcOf(m, s).Cleaning? && PcOf(m, s).todo == {}
  }

  /** A resource that is looked up for the first time is made, free, and with no holder to speak of. */
  function LookedUp(m: State, n: Num, junk: SessionId): map<Num, Resource> {
    if n in m.resources then m.resources else m.resources[n := Resource(false, junk)]
  }

  function At(m: State, s: SessionId, pc: Pc): State {
    m.(pcs := m.pcs[s := pc])
  }

  function Next(m: State, a: Action): State
    requires Enabled(m, a)
  {
    match a
    case BeginLock(s, n, junk) => At(m, s, Locking(n)).(resources := LookedUp(m, n, junk))
    case Take(s) =>
      var n := PcOf(m, s).n;
      At(m, s, Idle).(resources := m.resources[n := Resource(true, s)], held := m.held + {(s, n)})
    case Cancel(s) => At(m, s, Idle)
    case BeginUnlock(s, n, junk) => At(m, s, Unlocking(n)).(resources := LookedUp(m, n, junk))
    case Drop(s) =>
      var n := PcOf(m, s).n;
      At(m, s, Idle).(resources := m.resources[n := m.resources[n].(taken := false)], held := m.held - {(s, n)})
    case BeginCleanup(s) => At(m, s, Cleaning(m.resources.Keys)).(sweeper := Some(s))
    case Visit(s, n) =>
      var q := At(m, s, Cleaning(PcOf(m, s).todo - {n}));
      if m.resources[n].holder == s
      then q.(resources := m.resources[n := m.resources[n].(taken := false)], held := m.held - {(s, n)})
      else q
    case EndCleanup(s) => At(m, s, Idle).(sweeper := None)
  }

  function Init(): State {
    State(map[], map[], None, {})
  }

  /** The discipline: UNLOCK is issued only by the session that holds the resource. */
  predicate Disciplined(m: State, a: Action) {
    a.BeginUnlock? ==> (a.s, a.n) in m.held
  }

  predicate Has(resources: map<Num, Resource>, s: SessionId, n: Num) {
    n in resources && resources[n].taken && resources[n].holder == s
  }

  predicate Recorded(m: State, s: SessionId, n: Num) {
    Has(m.resources, s, n)
  }

  /** What a resource says of its holder is so. */
  ghost predicate Truthful(m: State) {
    forall s, n :: (s, n) in m.held <==> Recorded(m, s, n)
  }

  predicate PcOk(m: State, s: SessionId) {
    match PcOf(m, s)
    case Idle => true
    case Locking(n) => n in m.resources
    case Unlocking(n) => n in m.resources
    case Cleaning(todo) => m.sweeper == Some(s) && todo <= m.resources.Keys
  }

  /** What a clean-up has visited, its session does not hold. */
  predicate Swept(m: State, s: SessionId, n: Num) {
    PcOf(m, s).Cleaning? && (s, n) in m.held ==> n in PcOf(m, s).todo
  }

  ghost predicate Inv(m: State) {
    && Truthful(m)
    && (forall s :: PcOk(m, s))
    && (forall s, n :: Swept(m, s, n))
  }

  ghost predicate Exclusive(m: State) {
    forall s, t, n :: (s, n) in m.held && (t, n) in m.held ==> s == t
  }

  lemma TruthfulIsExclusive(m: State)
    requires Truthful(m)
    ensures Exclusive(m)
  {
    forall s, t, n | (s, n) in m.held && (t, n) in m.held
      ensures s == t
    {
      assert Recorded(m, s, n) && Recorded(m, t, n);
    }
  }

  /** An UNLOCK takes effect while no other session holds the resource. */
  ghost predicate Harmless(m: State, a: Action) {
    a.Drop? && PcOf(m, a.s).Unlocking? ==> forall t :: t != a.s ==> (t, PcOf(m, a.s).n) !in m.held
  }

  lemma TruthfulNext(m: State, a: Action)
    requires Inv(m) && Enabled(m, a) && Harmless(m, a)
    ensures Truthful(Next(m, a))
  {
    var t := Next(m, a);
    assert PcOk(m, a.s);
    if a.Drop? {
      UnlockExact(m, a.s);
    } else {
      forall s, n
        ensures (s, n) in t.held <==> Recorded(t, s, n)
      {
        assert (s, n) in m.held <==> Recorded(m, s, n);
      }
    }
  }

  lemma PcsNext(m: State, a: Action)
    requires Inv(m) && Enabled(m, a)
    ensures forall s :: PcOk(Next(m, a), s)
  {
    var t := Next(m, a);
    assert PcOk(m, a.s);
    forall s
      ensures PcOk(t, s)
    {
      assert PcOk(m, s);
    }
  }

  lemma SweptNext(m: State, a: Action)
    requires Inv(m) && Enabled(m, a)
    ensures forall s, n :: Swept(Next(m, a), s, n)
  {
    var t := Next(m, a);
    assert PcOk(m, a.s);
    forall s, n
      ensures Swept(t, s, n)
    {
      assert Swept(m, s, n);
      assert (s, n) in m.held <==> Recorded(m, s, n);
    }
  }

  lemma NextKeepsInv(m: State, a: Action)
    requires Inv(m) && Enabled(m, a) && Harmless(m, a)
    ensures Inv(Next(m, a))
  {
    hide Next, Truthful, PcOk, Swept, Harmless;
    TruthfulNext(m, a);
    PcsNext(m, a);
    SweptNext(m, a);
  }

  function Reached(actions: seq<Action>): Option<State> {
    if actions == [] then Some(Init())
    else
      var n := |actions| - 1;
      var m := Reached(actions[..n]);
      if m.Some? && Enabled(m.value, actions[n]) then Some(Next(m.value, actions[n])) else None
  }

  predicate AllDisciplined(actions: seq<Action>) {
    actions == []
    || (var n := |actions| - 1;
        AllDisciplined(actions[..n]) && (Reached(actions[..n]).Some? ==> Disciplined(Reached(actions[..n]).value, actions[n])))
  }

  ghost predicate AllHarmless(actions: seq<Action>) {
    forall n :: 0 <= n < |actions| ==> HarmlessAt(actions, n)
  }

  ghost predicate HarmlessAt(actions: seq<Action>, n: nat)
    requires n < |actions|
  {
    Reached(actions[..n]).Some? ==> Harmless(Reached(actions[..n]).value, actions[n])
  }

  lemma {:induction false} PrefixReached(actions: seq<Action>, n: nat)
    requires Reached(actions).Some? && n <= |actions|
    ensures Reached(actions[..n]).Some?
    ensures n < |actions| ==>
              var m := Reached(actions[..n]).value;
              Enabled(m, actions[n]) && Reached(actions[..n + 1]) == Some(Next(m, actions[n]))
    decreases |actions|
  {
    hide Next, Enabled;
    if n == |actions| {
      assert actions[..n] == actions;
    } else if n == |actions| - 1 {
      assert actions[..n + 1] == actions;
    } else {
      var k := |actions| - 1;
      assert actions[..k][..n] == actions[..n] && actions[..k][..n + 1] == actions[..n + 1];
      PrefixReached(actions[..k], n);
    }
  }

  lemma {:induction false} RunKeepsInv(actions: seq<Action>, n: nat)
    requires Reached(actions).Some? && AllHarmless(actions) && n <= |actions|
    ensures Reached(actions[..n]).Some? && Inv(Reached(actions[..n]).value)
    decreases n
  {
    hide Next, Inv, Enabled, Harmless, Reached;
    PrefixReached(actions, n);
    if n == 0 {
      assert actions[..0] == [];
      InitInv();
    } else {
      RunKeepsInv(actions, n - 1);
      PrefixReached(actions, n - 1);
      assert HarmlessAt(actions, n - 1);
      NextKeepsInv(Reached(actions[..n - 1]).value, actions[n - 1]);
    }
  }

  lemma InitInv()
    ensures Reached([]) == Some(Init()) && Inv(Init())
  {
  }

  /** The record of holders, exactly: it is truthful throughout a run if and only if every UNLOCK in it takes effect while
      no other session holds the resource, for `unlock` does not ask who calls it. */
  lemma RecordExact(actions: seq<Action>)
    requires Reached(actions).Some?
    ensures (forall n :: 0 <= n <= |actions| ==> TruthfulAt(actions, n)) <==> AllHarmless(actions)
  {
    hide Next, Inv, Enabled, Harmless, Reached, Truthful;
    if AllHarmless(actions) {
      forall n | 0 <= n <= |actions|
        ensures TruthfulAt(actions, n)
      {
        RunKeepsInv(actions, n);
        InvIsTruthful(Reached(actions[..n]).value);
      }
    }
    if forall n :: 0 <= n <= |actions| ==> TruthfulAt(actions, n) {
      forall n | 0 <= n < |actions|
        ensures HarmlessAt(actions, n)
      {
        PrefixReached(actions, n);
        assert TruthfulAt(actions, n) && TruthfulAt(actions, n + 1);
        TruthfulNeedsHarmless(Reached(actions[..n]).value, actions[n]);
      }
    }
  }

  ghost predicate TruthfulAt(actions: seq<Action>, n: nat)
    requires n <= |actions|
  {
    Reached(actions[..n]).Some? ==> Truthful(Reached(actions[..n]).value)
  }

  lemma InvIsTruthful(m: State)
    requires Inv(m)
    ensures Truthful(m)
  {
  }

  lemma TruthfulNeedsHarmless(m: State, a: Action)
    requires Truthful(m) && Enabled(m, a) && Truthful(Next(m, a))
    ensures Harmless(m, a)
  {
    hide Truthful;
    if a.Drop? { UnlockExact(m, a.s); }
  }

  /** The unlocking sessions hold what they unlock. */
  ghost predicate Holding(m: State) {
    forall s :: HoldsOwn(m, s)
  }

  predicate HoldsOwn(m: State, s: SessionId) {
    PcOf(m, s).Unlocking? ==> (s, PcOf(m, s).n) in m.held
  }

  lemma HoldingNext(m: State, a: Action)
    requires Inv(m) && Holding(m) && Enabled(m, a) && Disciplined(m, a)
    ensures Holding(Next(m, a)) && Harmless(m, a)
  {
    TruthfulIsExclusive(m);
    assert PcOk(m, a.s) && HoldsOwn(m, a.s);
    forall s
      ensures HoldsOwn(Next(m, a), s)
    {
      assert HoldsOwn(m, s);
    }
  }

  /** It is enough that UNLOCK is issued only by the holder. */
  lemma {:induction false} DisciplineIsHarmless(actions: seq<Action>)
    requires Reached(actions).Some? && AllDisciplined(actions)
    ensures AllHarmless(actions) && Holding(Reached(actions).value)
    decreases |actions|
  {
    hide Next, Inv, Enabled, Harmless, Disciplined;
    if actions != [] {
      var k := |actions| - 1;
      DisciplineIsHarmless(actions[..k]);
      RunKeepsInv(actions[..k], k);
      assert actions[..k][..k] == actions[..k];
      HoldingNext(Reached(actions[..k]).value, actions[k]);
      forall n | 0 <= n < |actions|
        ensures HarmlessAt(actions, n)
      {
        if n < k {
          assert HarmlessAt(actions[..k], n);
          assert actions[..k][..n] == actions[..n] && actions[..k][n] == actions[n];
        }
      }
    }
  }

  /** Mutual exclusion: in every interleaving in which UNLOCK is issued only by the holder, or at least takes effect while
      no other session holds the resource, at most one session holds a resource. */
  lemma MutualExclusion(actions: seq<Action>, s: SessionId, t: SessionId, n: Num)
    requires Reached(actions).Some? && (AllDisciplined(actions) || AllHarmless(actions))
    requires (s, n) in Reached(actions).value.held && (t, n) in Reached(actions).value.held
    ensures s == t
  {
    hide Reached, AllDisciplined, AllHarmless;
    if AllDisciplined(actions) { DisciplineIsHarmless(actions); }
    RunKeepsInv(actions, |actions|);
    assert actions[..|actions|] == actions;
    TruthfulIsExclusive(Reached(actions).value);
  }

  /** A finished clean-up leaves its session holding nothing, and no step of one takes a resource from another
      session. */
  lemma CleanupIsExact(actions: seq<Action>, a: Action)
    requires Reached(actions).Some? && AllHarmless(actions) && Enabled(Reached(actions).value, a)
    ensures var m := Reached(actions).value;
            && (a.EndCleanup? ==> forall n :: (a.s, n) !in m.held && !Recorded(m, a.s, n))
            && (a.Visit? || a.BeginCleanup? || a.EndCleanup? ==>
                  forall t, n :: t != a.s ==> (((t, n) in Next(m, a).held <==> (t, n) in m.held) && (Recorded(Next(m, a), t, n) <==> Recorded(m, t, n))))
  {
    hide Reached, AllHarmless;
    RunKeepsInv(actions, |actions|);
    assert actions[..|actions|] == actions;
    var m := Reached(actions).value;
    if a.EndCleanup? {
      forall n
        ensures (a.s, n) !in m.held && !Recorded(m, a.s, n)
      {
        assert Swept(m, a.s, n);
        assert (a.s, n) in m.held <==> Recorded(m, a.s, n);
      }
    }
  }

  /** Without the discipline: an UNLOCK keeps the record truthful if and only if no other session holds the
      resource, for `unlock` does not ask who calls it. */
  lemma UnlockExact(m: State, s: SessionId)
    requires Truthful(m) && Enabled(m, Drop(s))
    ensures Truthful(Next(m, Drop(s))) <==> forall t :: t != s ==> (t, PcOf(m, s).n) !in m.held
  {
    var k := PcOf(m, s).n;
    var q := Next(m, Drop(s));
    if forall t :: t != s ==> (t, k) !in m.held {
      forall t, n
        ensures (t, n) in q.held <==> Recorded(q, t, n)
      {
        assert (t, n) in m.held <==> Recorded(m, t, n);
      }
    } else {
      var t :| t != s && (t, k) in m.held;
      assert (t, k) in q.held && !Recorded(q, t, k);
    }
  }

  /** Three sessions, of which the second unlocks what the first holds: two of them hold it in the end. */
  lemma UndisciplinedUnlock() returns (actions: seq<Action>)
    ensures Reached(actions).Some? && !Exclusive(Reached(actions).value)
  {
    var a1, a2 := BeginLock(1, 0, 0), Take(1);
    var a3, a4 := BeginUnlock(2, 0, 0), Drop(2);
    var a5, a6 := BeginLock(3, 0, 0), Take(3);
    assert [a1][..0] == [] && [a1, a2][..1] == [a1] && [a1, a2, a3][..2] == [a1, a2];
    assert [a1, a2, a3, a4][..3] == [a1, a2, a3] && [a1, a2, a3, a4, a5][..4] == [a1, a2, a3, a4];
    assert [a1, a2, a3, a4, a5, a6][..5] == [a1, a2, a3, a4, a5];
    assert Reached([]) == Some(Init());
    var m1 := Next(Init(), a1);
    assert Reached([a1]) == Some(m1);
    var m2 := Next(m1, a2);
    assert Reached([a1, a2]) == Some(m2);
    var m3 := Next(m2, a3);
    assert Reached([a1, a2, a3]) == Some(m3);
    var m4 := Next(m3, a4);
    assert Reached([a1, a2, a3, a4]) == Some(m4);
    var m5 := Next(m4, a5);
    assert Reached([a1, a2, a3, a4, a5]) == Some(m5);
    actions := [a1, a2, a3, a4, a5, a6];
    var m6 := Next(m5, a6);
    assert Reached(actions) == Some(m6);
    assert (1, 0) in m6.held && (3, 0) in m6.held;
  }

  // What LOCK and UNLOCK achieve when nobody is in the way.

  /** LOCK of a resource that is free, or that nobody has named yet, takes it. */
  lemma LockTakes(m: State, s: SessionId, n: Num, junk: SessionId)
    requires PcOf(m, s).Idle? && m.sweeper.None? && (n in m.resources ==> !m.resources[n].taken)
    ensures Enabled(m, BeginLock(s, n, junk)) && Enabled(Next(m, BeginLock(s, n, junk)), Take(s))
    ensures var q := Next(Next(m, BeginLock(s, n, junk)), Take(s));
            && Has(q.resources, s, n) && q.held == m.held + {(s, n)} && PcOf(q, s).Idle? && q.sweeper.None?
            && forall k :: k != n ==> ((k in q.resources <==> k in m.resources) && (k in q.resources ==> q.resources[k] == m.resources[k]))
  {
  }

  /** LOCK of a resource that is taken waits, and can only be cancelled, which leaves everything as it was. */
  lemma LockWaits(m: State, s: SessionId, n: Num, junk: SessionId)
    requires PcOf(m, s).Idle? && m.sweeper.None? && n in m.resources && m.resources[n].taken
    ensures Enabled(m, BeginLock(s, n, junk)) && !Enabled(Next(m, BeginLock(s, n, junk)), Take(s)) && Enabled(Next(m, BeginLock(s, n, junk)), Cancel(s))
    ensures var q := Next(Next(m, BeginLock(s, n, junk)), Cancel(s));
            q.resources == m.resources && q.held == m.held && q.sweeper == m.sweeper && PcOf(q, s).Idle? && forall t :: t != s ==> PcOf(q, t) == PcOf(m, t)
  {
  }

  /** UNLOCK frees the resource, so that any session that waits for it can take it. */
  lemma UnlockFrees(m: State, s: SessionId, n: Num, junk: SessionId, t: SessionId)
    requires PcOf(m, s).Idle? && m.sweeper.None? && t != s
    ensures Enabled(m, BeginUnlock(s, n, junk)) && Enabled(Next(m, BeginUnlock(s, n, junk)), Drop(s))
    ensures var q := Next(Next(m, BeginUnlock(s, n, junk)), Drop(s));
            && n in q.resources && !q.resources[n].taken && q.held == m.held - {(s, n)} && PcOf(q, s).Idle?
            && (PcOf(m, t) == Locking(n) ==> Enabled(q, Take(t)))
            && forall k :: k != n ==> ((k in q.resources <==> k in m.resources) && (k in q.resources ==> q.resources[k] == m.resources[k]))
  {
  }

  /** While a clean-up sweeps, nobody looks up a resource; its end lets every idle session go on. */
  lemma CleanupGivesWay(m: State, s: SessionId, t: SessionId, n: Num, junk: SessionId)
    requires PcOf(m, t).Idle?
    ensures m.sweeper.Some? ==> !Enabled(m, BeginLock(t, n, junk)) && !Enabled(m, BeginUnlock(t, n, junk)) && !Enabled(m, BeginCleanup(t))
    ensures Enabled(m, EndCleanup(s)) ==>
              var q := Next(m, EndCleanup(s));
              && q.sweeper.None? && PcOf(q, s).Idle? && q.resources == m.resources && q.held == m.held
              && Enabled(q, BeginLock(t, n, junk)) && Enabled(q, BeginUnlock(t, n, junk)) && Enabled(q, BeginCleanup(t))
  {
  }

  lemma NotEmpty(ns: set<Num>)
    ensures ns == {} || exists n :: n in ns
  {
    if forall n :: n !in ns { assert ns == {}; }
  }

  // The manager as an object. Each method is what one thread does while it has the mutexes it takes; `model` is the
  // state that the actions are about.

  function Followed(m: State, actions: seq<Action>): Option<State> {
    if actions == [] then Some(m)
    else
      var n := |actions| - 1;
      var q := Followed(m, actions[..n]);
      if q.Some? && Enabled(q.value, actions[n]) then Some(Next(q.value, actions[n])) else None
  }

  lemma FollowedNone(m: State)
    ensures Followed(m, []) == Some(m)
  {
  }

  lemma FollowedSnoc(m: State, actions: seq<Action>, a: Action)
    requires Followed(m, actions).Some? && Enabled(Followed(m, actions).value, a)
    ensures Followed(m, actions + [a]) == Some(Next(Followed(m, actions).value, a))
  {
    assert (actions + [a])[..|actions|] == actions;
  }

  /** Of a resource, exactly what `s` held of it is freed. */
  ghost predicate Freed(before: map<Num, Resource>, after: map<Num, Resource>, s: SessionId, n: Num) {
    forall t :: Has(after, t, n) <==> t != s && Has(before, t, n)
  }

  lemma FreedNow(first: map<Num, Resource>, before: map<Num, Resource>, after: map<Num, Resource>, s: SessionId, n: Num)
    requires n in first && n in before && first[n] == before[n] && Freed(before, after, s, n)
    ensures Freed(first, after, s, n)
  {
    forall t
      ensures Has(after, t, n) <==> t != s && Has(first, t, n)
    {
      assert Has(first, t, n) <==> Has(before, t, n);
    }
  }

  lemma FreedBefore(first: map<Num, Resource>, before: map<Num, Resource>, after: map<Num, Resource>, s: SessionId, n: Num)
    requires n in before && n in after && before[n] == after[n] && Freed(first, before, s, n)
    ensures Freed(first, after, s, n)
  {
    forall t
      ensures Has(after, t, n) <==> t != s && Has(first, t, n)
    {
      assert Has(after, t, n) <==> Has(before, t, n);
    }
  }

  class LSVirtualMachine {
    var resources: map<Num, Resource>
    ghost var model: State

    ghost predicate Valid()
      reads this
    {
      model.resources == resources
    }

    constructor ()
      ensures Valid() && model == Init()
    {
      resources, model := map[], Init();
    }

    /** The look-up with which LOCK and UNLOCK begin. */
    method LookUp(s: SessionId, n: Num, junk: SessionId, unlocking: bool)
      requires Valid() && PcOf(model, s).Idle? && model.sweeper.None?
      modifies this
      ensures Valid() && model == Next(old(model), if unlocking then BeginUnlock(s, n, junk) else BeginLock(s, n, junk))
      ensures n in resources && PcOf(model, s) == (if unlocking then Unlocking(n) else Locking(n))
    {
      if n !in resources { resources := resources[n := Resource(false, junk)]; }
      model := Next(model, if unlocking then BeginUnlock(s, n, junk) else BeginLock(s, n, junk));
    }

    /** One round of the wait loop of LOCK. */
    method TryLock(s: SessionId, n: Num) returns (available: bool)
      requires Valid() && PcOf(model, s) == Locking(n) && n in resources
      modifies this
      ensures Valid() && (available <==> !old(resources)[n].taken)
      ensures model == if available then Next(old(model), Take(s)) else old(model)
      ensures available ==> Has(resources, s, n)
    {
      available := !resources[n].taken;
      if available {
        resources := resources[n := Resource(true, s)];
        model := Next(model, Take(s));
      }
    }

    /** The wait loop has seen a request to cancel. */
    method GiveUp(s: SessionId)
      requires Valid() && PcOf(model, s).Locking?
      modifies this`model
      ensures Valid() && model == Next(old(model), Cancel(s))
    {
      model := Next(model, Cancel(s));
    }

    method Unlock(s: SessionId, n: Num)
      requires Valid() && PcOf(model, s) == Unlocking(n) && n in resources
      modifies this
      ensures Valid() && model == Next(old(model), Drop(s))
      ensures forall k, t :: Has(resources, t, k) <==> k != n && Has(old(resources), t, k)
    {
      resources := resources[n := resources[n].(taken := false)];
      model := Next(model, Drop(s));
    }

    method VisitOne(s: SessionId, n: Num)
      requires Valid() && PcOf(model, s).Cleaning? && n in PcOf(model, s).todo && n in resources
      modifies this
      ensures Valid() && model == Next(old(model), Visit(s, n)) && resources.Keys == old(resources).Keys
      ensures Freed(old(resources), resources, s, n) && forall k :: k in resources && k != n ==> resources[k] == old(resources)[k]
    {
      if resources[n].holder == s { resources := resources[n := resources[n].(taken := false)]; }
      model := Next(model, Visit(s, n));
    }

    /** The sweep frees what `s` holds and nothing else, by one visit to each resource. */
    method Cleanup(s: SessionId) returns (ghost actions: seq<Action>)
      requires Valid() && PcOf(model, s).Idle? && model.sweeper.None?
      modifies this
      ensures Valid() && Followed(old(model), actions) == Some(model) && forall a <- actions :: a.s == s
      ensures resources.Keys == old(resources).Keys
      ensures forall n, t :: Has(resources, t, n) <==> t != s && Has(old(resources), t, n)
    {
      hide Followed;
      var todo := resources.Keys;
      FollowedNone(model);
      FollowedSnoc(model, [], BeginCleanup(s));
      actions := [] + [BeginCleanup(s)];
      model := Next(model, BeginCleanup(s));
      while todo != {}
        invariant Valid() && PcOf(model, s) == Cleaning(todo) && Followed(old(model), actions) == Some(model)
        invariant forall a <- actions :: a.s == s
        invariant resources.Keys == old(resources).Keys && todo <= resources.Keys
        invariant forall n :: n in todo ==> resources[n] == old(resources)[n]
        invariant forall n :: n in resources && n !in todo ==> Freed(old(resources), resources, s, n)
        decreases |todo|
      {
        NotEmpty(todo);
        var n :| n in todo;
        FollowedSnoc(old(model), actions, Visit(s, n));
        actions := actions + [Visit(s, n)];
        ghost var before := resources;
        VisitOne(s, n);
        todo := todo - {n};
        forall k | k in resources && k !in todo
          ensures Freed(old(resources), resources, s, k)
        {
          if k == n { FreedNow(old(resources), before, resources, s, n); } else { FreedBefore(old(resources), before, resources, s, k); }
        }
      }
      assert forall n :: n in resources ==> Freed(old(resources), resources, s, n);
      FollowedSnoc(old(model), actions, EndCleanup(s));
      actions := actions + [EndCleanup(s)];
      model := Next(model, EndCleanup(s));
    }
  }
}
