/** The life of connections: the accept chain of the server, the sessions of the pool and their closing, and
    the reconfiguration of contexts, as one transition system over interleaved atomic actions. */
module Lifecycle {
  import opened Options
  import opened ContextPools

  type SessionId = nat

  /** Where the accept chain is. From `Accepting` on it holds context `k`. */
  datatype Phase =
    | Choosing
    | Accepting(k: nat)
    | Borrowed(k: nat, id: SessionId)
    | Counted(k: nat, id: SessionId)
    | Ready(k: nat, id: SessionId)
    | Refused(k: nat)

  /** How far the thread is that runs `finalize` under the once flag of a session: about to deref the context,
      about to put the session back, or about to set the flag. Anyone but `Nobody` has the flag's mutex. */
  datatype Closer = Nobody | Derefing | Returning | Returned

  /** `wasSetUp`: the session has been set up before, so that its handlers may be about. */
  datatype Session = Session(context: Option<nat>, invoked: bool, closer: Closer, wasSetUp: bool)

  datatype State = State(
    contexts: seq<Context>, next: nat, phase: Phase,
    sessions: map<SessionId, Session>, free: set<SessionId>, inFlight: nat)

  /** `shared`: the acceptor runs on the first worker context, which it holds for good. */
  datatype Config = Config(capacity: nat, maxSessions: nat, shared: bool)

  datatype Action =
    | Choose | AcceptError | BorrowFails | BorrowFree(id: SessionId) | BorrowNew(id: SessionId, junk: bool)
    | Ref | ResetOnce | Start | Unhold
    | Close(id: SessionId) | Deref(id: SessionId) | PutBack(id: SessionId) | SetInvoked(id: SessionId)
    | AddContext(threads: nat) | DeactivateContext(index: nat)

  /** Taking one from a `size_t`. */
  function Less(n: nat): nat {
    if n == 0 then 0xffff_ffff_ffff_ffff else n - 1
  }

  function Init(n: nat, shared: bool, threads: nat, idle: map<SessionId, Session>): State {
    var unused := Context(true, 0, 0, threads);
    var contexts := seq(n, i => if shared && i == 0 then unused.(holds := 1) else unused);
    State(contexts, if shared then After(0, n) else 0, Choosing, idle, idle.Keys, 0)
  }

  predicate Full(c: Config, s: State) {
    s.free == {} && c.maxSessions > 0 && s.inFlight >= c.maxSessions
  }

  ghost predicate Enabled(c: Config, s: State, a: Action) {
    match a
    case Choose => s.phase.Choosing? && s.next < |s.contexts| && SomeActive(s.contexts)
    case AcceptError => s.phase.Accepting?
    case BorrowFails => s.phase.Accepting? && Full(c, s)
    case BorrowFree(id) => s.phase.Accepting? && id in s.free
    case BorrowNew(id, _) => s.phase.Accepting? && s.free == {} && !Full(c, s) && id !in s.sessions
    case Ref => s.phase.Borrowed? && s.phase.k < |s.contexts| && s.phase.id in s.sessions
    case ResetOnce => s.phase.Counted? && s.phase.id in s.sessions && s.sessions[s.phase.id].closer.Nobody?
    case Start =>
      s.phase.Ready? && s.phase.id in s.sessions && s.sessions[s.phase.id].context.Some?
      && s.sessions[s.phase.id].context.value < |s.contexts|
    case Unhold => s.phase.Refused? && s.phase.k < |s.contexts|
    case Close(id) => id in s.sessions && s.sessions[id].wasSetUp && s.sessions[id].closer.Nobody?
    case Deref(id) =>
      id in s.sessions && s.sessions[id].closer.Derefing? && s.sessions[id].context.Some?
      && s.sessions[id].context.value < |s.contexts|
    case PutBack(id) => id in s.sessions && s.sessions[id].closer.Returning?
    case SetInvoked(id) => id in s.sessions && s.sessions[id].closer.Returned?
    case AddContext(_) => true
    case DeactivateContext(_) => true
  }

  function WithHolds(contexts: seq<Context>, k: nat, n: nat): seq<Context>
    requires k < |contexts|
  {
    contexts[k := contexts[k].(holds := n)]
  }

  function WithRefs(contexts: seq<Context>, k: nat, n: nat): seq<Context>
    requires k < |contexts|
  {
    contexts[k := contexts[k].(refs := n)]
  }

  function Update(s: State, id: SessionId, x: Session): State {
    s.(sessions := s.sessions[id := x])
  }

  ghost function Next(c: Config, s: State, a: Action): State
    requires Enabled(c, s, a)
  {
    match a
    case Choose => Chosen(s)
    case AcceptError => s.(phase := Refused(s.phase.k))
    case BorrowFails => s.(phase := Refused(s.phase.k))
    case BorrowFree(id) => s.(free := s.free - {id}, inFlight := s.inFlight + 1, phase := Borrowed(s.phase.k, id))
    case BorrowNew(id, junk) =>
      Update(s, id, Session(None, junk, Nobody, false)).(inFlight := s.inFlight + 1, phase := Borrowed(s.phase.k, id))
    case Ref =>
      var k, id := s.phase.k, s.phase.id;
      Update(s, id, s.sessions[id].(context := Some(k)))
      .(contexts := WithRefs(s.contexts, k, s.contexts[k].refs + 1), phase := Counted(k, id))
    case ResetOnce =>
      var id := s.phase.id;
      Update(s, id, s.sessions[id].(invoked := false, wasSetUp := true)).(phase := Ready(s.phase.k, id))
    case Start =>
      var k := s.sessions[s.phase.id].context.value;
      s.(contexts := WithHolds(s.contexts, k, Less(s.contexts[k].holds)), phase := Choosing)
    case Unhold =>
      var k := s.phase.k;
      s.(contexts := WithHolds(s.contexts, k, Less(s.contexts[k].holds)), phase := Choosing)
    case Close(id) => if s.sessions[id].invoked then s else Update(s, id, s.sessions[id].(closer := Derefing))
    case Deref(id) =>
      var k := s.sessions[id].context.value;
      Update(s, id, s.sessions[id].(closer := Returning)).(contexts := WithRefs(s.contexts, k, Less(s.contexts[k].refs)))
    case PutBack(id) =>
      Update(s, id, s.sessions[id].(closer := Returned)).(free := s.free + {id}, inFlight := Less(s.inFlight))
    case SetInvoked(id) => Update(s, id, s.sessions[id].(closer := Nobody, invoked := true))
    case AddContext(threads) => s.(contexts := Added(s.contexts, c.capacity, threads).0)
    case DeactivateContext(k) => s.(contexts := Deactivated(s.contexts, k).0)
  }

  function Chosen(s: State): State
    requires s.next < |s.contexts|
  {
    var order := Cycle(Flags(s.contexts), s.next);
    if order == [] || order[0] >= |s.contexts| then s
    else
      var k := order[0];
      s.(contexts := WithHolds(s.contexts, k, s.contexts[k].holds + 1), next := After(k, |s.contexts|), phase := Accepting(k))
  }

  // What every step keeps.

  predicate Chain(s: State, id: SessionId) {
    (s.phase.Borrowed? || s.phase.Counted?) && s.phase.id == id
  }

  predicate Fetched(s: State, id: SessionId) {
    s.phase.Borrowed? && s.phase.id == id
  }

  /** The session is counted by its context: set up and not yet finalised. */
  predicate Mounted(s: State, id: SessionId)
    requires id in s.sessions
  {
    id !in s.free && !Fetched(s, id) && !s.sessions[id].closer.Returning?
  }

  function On(s: State, k: nat): set<SessionId> {
    set id | id in s.sessions && Mounted(s, id) && s.sessions[id].context == Some(k)
  }

  predicate Holds(s: State, k: nat) {
    !s.phase.Choosing? && s.phase.k == k
  }

  ghost predicate ContextsOk(c: Config, s: State) {
    && |s.contexts| <= c.capacity && s.next < |s.contexts|
    && HeldIsActive(s.contexts) && SomeActive(s.contexts)
    && (!s.phase.Choosing? ==> s.phase.k < |s.contexts|)
    && forall k :: 0 <= k < |s.contexts| ==> s.contexts[k].holds == (if Holds(s, k) then 1 else 0) + (if c.shared && k == 0 then 1 else 0)
  }

  ghost predicate RefsOk(s: State) {
    forall k :: 0 <= k < |s.contexts| ==> s.contexts[k].refs == |On(s, k)|
  }

  ghost predicate PoolOk(c: Config, s: State) {
    && s.free <= s.sessions.Keys && s.inFlight == |s.sessions| - |s.free|
    && (c.maxSessions > 0 ==> |s.sessions| <= c.maxSessions)
  }

  predicate SessionOk(s: State, id: SessionId)
    requires id in s.sessions
  {
    var x := s.sessions[id];
    && (x.closer.Nobody? && (id in s.free || Chain(s, id)) ==> (x.wasSetUp ==> x.invoked))
    && (x.closer.Nobody? && !(id in s.free || Chain(s, id)) ==> x.wasSetUp && !x.invoked)
    && (x.closer.Derefing? || x.closer.Returning? ==> x.wasSetUp && !x.invoked && id !in s.free && !Chain(s, id))
    && (x.closer.Returned? ==> x.wasSetUp && !x.invoked && (id in s.free || Chain(s, id)))
    && (Mounted(s, id) ==> x.context.Some? && x.context.value < |s.contexts|)
  }

  ghost predicate SessionsOk(s: State) {
    forall id :: id in s.sessions ==> SessionOk(s, id)
  }

  predicate PhaseOk(s: State) {
    && (s.phase.Borrowed? || s.phase.Counted? || s.phase.Ready? ==> s.phase.id in s.sessions)
    && (s.phase.Borrowed? || s.phase.Counted? ==> s.phase.id !in s.free)
    && (s.phase.Counted? || s.phase.Ready? ==> s.sessions[s.phase.id].context == Some(s.phase.k))
  }

  ghost predicate Inv(c: Config, s: State) {
    ContextsOk(c, s) && RefsOk(s) && PoolOk(c, s) && SessionsOk(s) && PhaseOk(s)
  }

  /** The sessions mounted on a context are the same in both states. */
  ghost predicate SameMounted(s: State, t: State) {
    forall id ::
      && (id in s.sessions && Mounted(s, id) <==> id in t.sessions && Mounted(t, id))
      && (id in s.sessions && Mounted(s, id) ==> id in t.sessions && t.sessions[id].context == s.sessions[id].context)
  }

  lemma SameOn(s: State, t: State, k: nat)
    requires SameMounted(s, t)
    ensures On(s, k) == On(t, k)
  {
  }

  lemma SameRefs(s: State, t: State)
    requires RefsOk(s) && SameMounted(s, t) && |s.contexts| == |t.contexts|
    requires forall k :: 0 <= k < |s.contexts| ==> s.contexts[k].refs == t.contexts[k].refs
    ensures RefsOk(t)
  {
    hide On, SameMounted;
    forall k | 0 <= k < |t.contexts|
      ensures t.contexts[k].refs == |On(t, k)|
    {
      SameOn(s, t, k);
    }
  }

  lemma SameContexts(c: Config, s: State, t: State)
    requires ContextsOk(c, s) && t.next == s.next && |t.contexts| == |s.contexts|
    requires forall k :: 0 <= k < |s.contexts| ==> t.contexts[k].active == s.contexts[k].active && t.contexts[k].holds == s.contexts[k].holds
    requires t.phase.Choosing? == s.phase.Choosing? && (!s.phase.Choosing? ==> t.phase.k == s.phase.k)
    ensures ContextsOk(c, t)
  {
    var i :| 0 <= i < |s.contexts| && s.contexts[i].active;
    assert t.contexts[i].active;
  }

  /** The context that the accept chain has chosen stays held, and so stays active. */
  lemma ChainHolds(c: Config, s: State)
    requires ContextsOk(c, s) && !s.phase.Choosing?
    ensures s.phase.k < |s.contexts| && s.contexts[s.phase.k].holds > 0 && s.contexts[s.phase.k].active
  {
    assert Holds(s, s.phase.k);
  }

  lemma ChooseContexts(c: Config, s: State)
    requires ContextsOk(c, s) && s.phase.Choosing?
    ensures var t := Chosen(s);
            && ContextsOk(c, t) && t.phase.Accepting? && t.phase.k < |s.contexts| && s.contexts[t.phase.k].active
            && t == s.(contexts := WithHolds(s.contexts, t.phase.k, s.contexts[t.phase.k].holds + 1), next := t.next, phase := t.phase)
  {
    hide Cycle;
    var flags := Flags(s.contexts);
    CycleExact(flags, s.next);
    var i :| 0 <= i < |s.contexts| && s.contexts[i].active;
    assert flags[i] && i in Cycle(flags, s.next);
    assert Cycle(flags, s.next)[0] in Cycle(flags, s.next);
    assert Chosen(s).contexts[i].active;
  }

  lemma UnholdContexts(c: Config, s: State)
    requires ContextsOk(c, s) && !s.phase.Choosing?
    ensures s.phase.k < |s.contexts| && s.contexts[s.phase.k].holds > 0
    ensures ContextsOk(c, s.(contexts := WithHolds(s.contexts, s.phase.k, Less(s.contexts[s.phase.k].holds)), phase := Choosing))
  {
    var k := s.phase.k;
    assert Holds(s, k);
    var t := s.(contexts := WithHolds(s.contexts, k, Less(s.contexts[k].holds)), phase := Choosing);
    var i :| 0 <= i < |s.contexts| && s.contexts[i].active;
    assert t.contexts[i].active;
  }

  /** A step of the accept chain in which it gives no session away. */
  lemma SameSessions(s: State, t: State)
    requires SessionsOk(s) && t.sessions == s.sessions && t.free == s.free && |s.contexts| <= |t.contexts|
    requires forall i :: (Chain(s, i) <==> Chain(t, i)) && (Fetched(s, i) <==> Fetched(t, i))
    ensures SessionsOk(t)
  {
    forall i | i in t.sessions
      ensures SessionOk(t, i)
    {
      assert SessionOk(s, i);
    }
  }

  lemma ChooseKeeps(c: Config, s: State)
    requires Inv(c, s) && Enabled(c, s, Choose)
    ensures Inv(c, Next(c, s, Choose)) && Next(c, s, Choose).phase.Accepting?
  {
    hide On, ContextsOk, SomeActive, Chosen, SessionOk;
    ChooseContexts(c, s);
    var t := Next(c, s, Choose);
    SameRefs(s, t);
    SameSessions(s, t);
  }

  lemma RefuseKeeps(c: Config, s: State, a: Action)
    requires Inv(c, s) && Enabled(c, s, a) && (a.AcceptError? || a.BorrowFails?)
    ensures Inv(c, Next(c, s, a))
  {
    hide On, ContextsOk, SomeActive;
    var t := Next(c, s, a);
    SameContexts(c, s, t);
    SameRefs(s, t);
    assert forall id :: id in t.sessions ==> SessionOk(s, id) && SessionOk(t, id);
  }

  lemma BorrowFreeKeeps(c: Config, s: State, id: SessionId)
    requires Inv(c, s) && Enabled(c, s, BorrowFree(id))
    ensures Inv(c, Next(c, s, BorrowFree(id)))
  {
    hide On, ContextsOk, SomeActive;
    var t := Next(c, s, BorrowFree(id));
    SameContexts(c, s, t);
    SameRefs(s, t);
    assert forall id :: id in t.sessions ==> SessionOk(s, id) && SessionOk(t, id);
  }

  lemma BorrowNewKeeps(c: Config, s: State, id: SessionId, junk: bool)
    requires Inv(c, s) && Enabled(c, s, BorrowNew(id, junk))
    ensures Inv(c, Next(c, s, BorrowNew(id, junk)))
  {
    hide On, ContextsOk, SomeActive;
    var t := Next(c, s, BorrowNew(id, junk));
    SameContexts(c, s, t);
    SameRefs(s, t);
    assert |t.sessions| == |s.sessions| + 1;
    forall i | i in t.sessions
      ensures SessionOk(t, i)
    {
      if i != id { assert SessionOk(s, i); }
    }
  }

  lemma RefKeeps(c: Config, s: State)
    requires Inv(c, s) && Enabled(c, s, Ref)
    ensures Inv(c, Next(c, s, Ref)) && s.contexts[s.phase.k].active
  {
    hide ContextsOk, SomeActive;
    var t := Next(c, s, Ref);
    var k, id := s.phase.k, s.phase.id;
    ChainHolds(c, s);
    SameContexts(c, s, t);
    assert SessionOk(s, id);
    RefRefs(s);
    hide On;
    OtherSessions(s, t, id);
  }

  lemma RefRefs(s: State)
    requires RefsOk(s) && s.phase.Borrowed? && s.phase.k < |s.contexts| && s.phase.id in s.sessions && s.phase.id !in s.free
    requires !s.sessions[s.phase.id].closer.Returning?
    ensures var k, id := s.phase.k, s.phase.id;
            RefsOk(Update(s, id, s.sessions[id].(context := Some(k))).(contexts := WithRefs(s.contexts, k, s.contexts[k].refs + 1), phase := Counted(k, id)))
  {
    var k, id := s.phase.k, s.phase.id;
    var t := Update(s, id, s.sessions[id].(context := Some(k))).(contexts := WithRefs(s.contexts, k, s.contexts[k].refs + 1), phase := Counted(k, id));
    forall j | 0 <= j < |t.contexts|
      ensures t.contexts[j].refs == |On(t, j)|
    {
      if j == k {
        assert id !in On(s, k);
        assert On(t, k) == On(s, k) + {id};
      } else {
        assert On(t, j) == On(s, j);
      }
    }
  }

  /** A change of one session, which stays as free and as borrowed as it is, is no matter to the others. */
  lemma OtherSessions(s: State, t: State, id: SessionId)
    requires SessionsOk(s) && id in t.sessions && SessionOk(t, id) && |s.contexts| <= |t.contexts|
    requires t.sessions.Keys == s.sessions.Keys && forall i :: i in s.sessions && i != id ==> t.sessions[i] == s.sessions[i]
    requires forall i :: i != id ==> (i in s.free <==> i in t.free) && (Chain(s, i) <==> Chain(t, i))
    requires forall i :: i != id ==> (Fetched(s, i) <==> Fetched(t, i))
    ensures SessionsOk(t)
  {
    forall i | i in t.sessions
      ensures SessionOk(t, i)
    {
      if i != id { assert SessionOk(s, i); }
    }
  }

  lemma ResetKeeps(c: Config, s: State)
    requires Inv(c, s) && Enabled(c, s, ResetOnce)
    ensures Inv(c, Next(c, s, ResetOnce))
  {
    hide On, ContextsOk, SomeActive;
    var t := Next(c, s, ResetOnce);
    SameContexts(c, s, t);
    var id := s.phase.id;
    assert SessionOk(s, id);
    SameRefs(s, t);
    OtherSessions(s, t, id);
  }

  lemma UnholdKeeps(c: Config, s: State, a: Action)
    requires Inv(c, s) && Enabled(c, s, a) && (a.Start? || a.Unhold?)
    ensures Inv(c, Next(c, s, a)) && s.contexts[s.phase.k].holds > 0
  {
    hide On, ContextsOk, SomeActive, SessionOk;
    UnholdContexts(c, s);
    var t := Next(c, s, a);
    SameRefs(s, t);
    SameSessions(s, t);
  }

  lemma CloseKeeps(c: Config, s: State, id: SessionId)
    requires Inv(c, s) && Enabled(c, s, Close(id))
    ensures Inv(c, Next(c, s, Close(id)))
  {
    hide On, ContextsOk, SomeActive;
    var t := Next(c, s, Close(id));
    SameContexts(c, s, t);
    assert SessionOk(s, id);
    SameRefs(s, t);
    if t != s { OtherSessions(s, t, id); }
  }

  lemma DerefKeeps(c: Config, s: State, id: SessionId)
    requires Inv(c, s) && Enabled(c, s, Deref(id))
    ensures Inv(c, Next(c, s, Deref(id))) && s.contexts[s.sessions[id].context.value].refs > 0
  {
    hide On, ContextsOk, SomeActive;
    assert SessionOk(s, id);
    DerefRefs(s, id);
    var t := Next(c, s, Deref(id));
    SameContexts(c, s, t);
    OtherSessions(s, t, id);
  }

  lemma DerefRefs(s: State, id: SessionId)
    requires RefsOk(s) && id in s.sessions && SessionOk(s, id) && s.sessions[id].closer.Derefing?
    ensures var k := s.sessions[id].context.value;
            && k < |s.contexts| && s.contexts[k].refs > 0
            && RefsOk(Update(s, id, s.sessions[id].(closer := Returning)).(contexts := WithRefs(s.contexts, k, s.contexts[k].refs - 1)))
  {
    var k := s.sessions[id].context.value;
    assert id in On(s, k);
    var t := Update(s, id, s.sessions[id].(closer := Returning)).(contexts := WithRefs(s.contexts, k, s.contexts[k].refs - 1));
    forall j | 0 <= j < |t.contexts|
      ensures t.contexts[j].refs == |On(t, j)|
    {
      if j == k {
        assert On(t, k) == On(s, k) - {id};
      } else {
        assert On(t, j) == On(s, j);
      }
    }
  }

  lemma PutBackKeeps(c: Config, s: State, id: SessionId)
    requires Inv(c, s) && Enabled(c, s, PutBack(id))
    ensures Inv(c, Next(c, s, PutBack(id))) && id !in s.free && s.inFlight > 0
  {
    hide On, ContextsOk, SomeActive;
    var t := Next(c, s, PutBack(id));
    SameContexts(c, s, t);
    assert SessionOk(s, id);
    PutBackCounts(s.sessions, s.free, id, t.sessions[id]);
    SameRefs(s, t);
    OtherSessions(s, t, id);
  }

  lemma PutBackCounts(sessions: map<SessionId, Session>, free: set<SessionId>, id: SessionId, x: Session)
    requires free <= sessions.Keys && id in sessions && id !in free
    ensures |sessions[id := x]| == |sessions| >= |free + {id}| == |free| + 1 && sessions[id := x].Keys == sessions.Keys
  {
    assert sessions[id := x].Keys == sessions.Keys;
    assert |sessions.Keys| == |sessions| && |sessions[id := x].Keys| == |sessions[id := x]|;
    SubsetSize(free + {id}, sessions.Keys);
  }

  lemma {:induction false} SubsetSize(a: set<SessionId>, b: set<SessionId>)
    requires a <= b
    ensures |a| <= |b|
  {
    assert b == a + (b - a);
  }

  lemma SetInvokedKeeps(c: Config, s: State, id: SessionId)
    requires Inv(c, s) && Enabled(c, s, SetInvoked(id))
    ensures Inv(c, Next(c, s, SetInvoked(id)))
  {
    hide On, ContextsOk, SomeActive;
    var t := Next(c, s, SetInvoked(id));
    SameContexts(c, s, t);
    assert SessionOk(s, id);
    SameRefs(s, t);
    OtherSessions(s, t, id);
  }

  lemma ReconfigureKeeps(c: Config, s: State, a: Action)
    requires Inv(c, s) && (a.AddContext? || a.DeactivateContext?)
    ensures Inv(c, Next(c, s, a))
  {
    hide On, SessionOk, SomeActive, Added, Deactivated;
    if a.AddContext? { AddIsSafe(s.contexts, c.capacity, a.threads); } else { DeactivateIsSafe(s.contexts, a.index); }
    var t := Next(c, s, a);
    forall k | 0 <= k < |t.contexts|
      ensures t.contexts[k].refs == |On(t, k)|
    {
      SameOn(s, t, k);
      if k >= |s.contexts| { NobodyOn(s, k); }
    }
    SameSessions(s, t);
  }

  /** No session is on a context that is not there yet. */
  lemma NobodyOn(s: State, k: nat)
    requires SessionsOk(s) && k >= |s.contexts|
    ensures On(s, k) == {}
  {
    forall id | id in s.sessions && Mounted(s, id)
      ensures s.sessions[id].context != Some(k)
    {
      assert SessionOk(s, id);
    }
  }

  lemma NextKeepsInv(c: Config, s: State, a: Action)
    requires Inv(c, s) && Enabled(c, s, a)
    ensures Inv(c, Next(c, s, a))
  {
    hide Inv, Next, Enabled;
    match a
    case Choose => ChooseKeeps(c, s);
    case AcceptError => RefuseKeeps(c, s, a);
    case BorrowFails => RefuseKeeps(c, s, a);
    case BorrowFree(id) => BorrowFreeKeeps(c, s, id);
    case BorrowNew(id, junk) => BorrowNewKeeps(c, s, id, junk);
    case Ref => RefKeeps(c, s);
    case ResetOnce => ResetKeeps(c, s);
    case Start => UnholdKeeps(c, s, a);
    case Unhold => UnholdKeeps(c, s, a);
    case Close(id) => CloseKeeps(c, s, id);
    case Deref(id) => DerefKeeps(c, s, id);
    case PutBack(id) => PutBackKeeps(c, s, id);
    case SetInvoked(id) => SetInvokedKeeps(c, s, id);
    case AddContext(_) => ReconfigureKeeps(c, s, a);
    case DeactivateContext(_) => ReconfigureKeeps(c, s, a);
  }

  /** Sessions that no connection has used yet, as an eager pool makes them. */
  predicate Idle(idle: map<SessionId, Session>) {
    forall id :: id in idle ==> idle[id].context.None? && idle[id].closer.Nobody? && !idle[id].wasSetUp
  }

  lemma InitInv(c: Config, n: nat, threads: nat, idle: map<SessionId, Session>)
    requires 0 < n <= c.capacity && Idle(idle) && (c.maxSessions > 0 ==> |idle| <= c.maxSessions)
    ensures Inv(c, Init(n, c.shared, threads, idle))
  {
    var s := Init(n, c.shared, threads, idle);
    assert s.contexts[0].active;
    assert |idle.Keys| == |idle|;
    forall k | 0 <= k < n
      ensures s.contexts[k].refs == |On(s, k)|
    {
      assert On(s, k) == {};
    }
  }

  /** The actions of a run, one after the other. */
  ghost function Reached(c: Config, s: State, actions: seq<Action>): (t: Option<State>)
    decreases |actions|
  {
    if actions == [] then Some(s)
    else
      var n := |actions| - 1;
      var u := Reached(c, s, actions[..n]);
      if u.Some? && Enabled(c, u.value, actions[n]) then Some(Next(c, u.value, actions[n])) else None
  }

  lemma {:induction false} RunKeepsInv(c: Config, s: State, actions: seq<Action>)
    requires Inv(c, s) && Reached(c, s, actions).Some?
    ensures Inv(c, Reached(c, s, actions).value)
    decreases |actions|
  {
    hide Inv, Next, Enabled;
    if actions != [] {
      var n := |actions| - 1;
      RunKeepsInv(c, s, actions[..n]);
      NextKeepsInv(c, Reached(c, s, actions[..n]).value, actions[n]);
    }
  }

  /** Placement safety: in every run from the start of the server, a held context is active, some context is
      active, and there are no more contexts than allowed. */
  lemma PlacementIsSafe(c: Config, n: nat, threads: nat, idle: map<SessionId, Session>, actions: seq<Action>)
    requires 0 < n <= c.capacity && Idle(idle) && (c.maxSessions > 0 ==> |idle| <= c.maxSessions)
    requires Reached(c, Init(n, c.shared, threads, idle), actions).Some?
    ensures var s := Reached(c, Init(n, c.shared, threads, idle), actions).value;
            && HeldIsActive(s.contexts) && SomeActive(s.contexts) && |s.contexts| <= c.capacity
            && (c.shared ==> s.contexts != [] && s.contexts[0].active)
  {
    hide Reached, Init;
    InitInv(c, n, threads, idle);
    RunKeepsInv(c, Init(n, c.shared, threads, idle), actions);
  }

  /** Nothing is placed on an inactive context. */
  lemma InactiveNeverRises(c: Config, s: State, a: Action, k: nat)
    requires Inv(c, s) && Enabled(c, s, a) && k < |s.contexts| && !s.contexts[k].active
    ensures k < |Next(c, s, a).contexts| && Next(c, s, a).contexts[k].refs <= s.contexts[k].refs
  {
    hide RefsOk, PoolOk, On, Added, Deactivated, CountActive;
    if a.Ref? {
      ChainHolds(c, s);
    } else if a.AddContext? {
      AddIsSafe(s.contexts, c.capacity, a.threads);
    } else if a.DeactivateContext? {
      DeactivateIsSafe(s.contexts, a.index);
    } else if a.Choose? {
      ChooseContexts(c, s);
    } else if a.Deref? {
      DerefKeeps(c, s, a.id);
    }
  }

  /** No count goes below zero and no session is put back twice, whatever close attempts come, and however late. */
  lemma NothingUnderflows(c: Config, s: State, a: Action)
    requires Inv(c, s) && Enabled(c, s, a)
    ensures a.Deref? ==> s.contexts[s.sessions[a.id].context.value].refs > 0
    ensures a.PutBack? ==> a.id !in s.free && s.inFlight > 0
    ensures a.Unhold? ==> s.contexts[s.phase.k].holds > 0
    ensures a.Start? ==> s.sessions[s.phase.id].context == Some(s.phase.k) && s.contexts[s.phase.k].holds > 0
  {
    hide ContextsOk, RefsOk, PoolOk, SessionsOk, On;
    if a.Deref? {
      DerefKeeps(c, s, a.id);
    } else if a.PutBack? {
      PutBackKeeps(c, s, a.id);
    } else if a.Unhold? || a.Start? {
      UnholdKeeps(c, s, a);
    }
  }

  /** A close attempt on a session that is free, or that the accept chain has not made ready yet, does nothing. */
  lemma LateCloseDoesNothing(c: Config, s: State, id: SessionId)
    requires Inv(c, s) && Enabled(c, s, Close(id)) && (id in s.free || Chain(s, id))
    ensures Next(c, s, Close(id)) == s
  {
    hide ContextsOk, RefsOk, PoolOk, On;
    assert SessionOk(s, id);
  }

  /** The accept chain chooses the next active context in turn, and claims it. */
  lemma ChooseInTurn(c: Config, s: State)
    requires Inv(c, s) && Enabled(c, s, Choose)
    ensures var t := Next(c, s, Choose);
            && t.phase.Accepting? && t.phase.k < |s.contexts| && s.contexts[t.phase.k].active
            && (forall j :: 0 <= j < |s.contexts| && Passed(s.next, t.phase.k, j) ==> !s.contexts[j].active)
            && t == s.(contexts := WithHolds(s.contexts, t.phase.k, s.contexts[t.phase.k].holds + 1), phase := t.phase,
                       next := if t.phase.k + 1 == |s.contexts| then 0 else t.phase.k + 1)
  {
    hide Cycle, RefsOk, PoolOk, SessionsOk, PhaseOk, Flags;
    ChooseContexts(c, s);
    FlagsAre(s.contexts);
    var flags := Flags(s.contexts);
    CycleExact(flags, s.next);
    if Cycle(flags, s.next) != [] {
      assert Cycle(flags, s.next)[0] in Cycle(flags, s.next);
      FirstInTurn(flags, s.next);
    }
  }

  lemma FlagsAre(contexts: seq<Context>)
    ensures |Flags(contexts)| == |contexts| && forall k :: 0 <= k < |contexts| ==> Flags(contexts)[k] == contexts[k].active
  {
  }

  /** The acceptor of a server without a thread of its own has had the first turn; the first connection goes to the
      context after it, and else to the first one. */
  lemma FirstChoice(c: Config, n: nat, threads: nat, idle: map<SessionId, Session>)
    requires 0 < n <= c.capacity && Idle(idle) && (c.maxSessions > 0 ==> |idle| <= c.maxSessions)
    ensures var s := Init(n, c.shared, threads, idle);
            Enabled(c, s, Choose) && Next(c, s, Choose).phase == Accepting(if c.shared && n > 1 then 1 else 0)
  {
    hide Inv, Next;
    var s := Init(n, c.shared, threads, idle);
    InitInv(c, n, threads, idle);
    assert s.contexts[0].active;
    ChooseInTurn(c, s);
    var k := Next(c, s, Choose).phase.k;
    assert forall j :: 0 <= j < n ==> s.contexts[j].active;
    assert Passed(s.next, k, s.next) <==> k != s.next;
  }

  /** Reconfiguring does to the contexts what the pool answers, and touches no session. */
  lemma ReconfigureExact(c: Config, s: State, threads: nat, k: nat)
    ensures var t := Next(c, s, AddContext(threads));
            t == s.(contexts := t.contexts) && exists r :: AddedAsAsked(s.contexts, c.capacity, threads, t.contexts, r)
    ensures var t := Next(c, s, DeactivateContext(k));
            t == s.(contexts := t.contexts) && exists r :: DeactivatedAsAsked(s.contexts, k, t.contexts, r)
  {
    hide AddedAsAsked, DeactivatedAsAsked, Added, Deactivated;
    AddExact(s.contexts, c.capacity, threads);
    DeactivateExact(s.contexts, k);
  }

  /** A session can be borrowed, a free one or a new one, unless the pool is limited and all of its sessions are in flight. */
  lemma BorrowExact(c: Config, s: State)
    requires Inv(c, s) && s.phase.Accepting?
    ensures Enabled(c, s, BorrowFails) <==> c.maxSessions > 0 && s.inFlight == |s.sessions| == c.maxSessions
    ensures !Enabled(c, s, BorrowFails) ==>
              if s.free != {} then exists id :: Enabled(c, s, BorrowFree(id))
              else forall id, junk :: id !in s.sessions ==> Enabled(c, s, BorrowNew(id, junk))
    ensures Enabled(c, s, BorrowFails) ==> (forall id :: !Enabled(c, s, BorrowFree(id))) && forall id, junk :: !Enabled(c, s, BorrowNew(id, junk))
  {
    hide ContextsOk, RefsOk, SessionsOk, PhaseOk;
    assert |s.sessions.Keys| == |s.sessions|;
    SubsetSize(s.free, s.sessions.Keys);
    if s.free != {} {
      var id :| id in s.free;
      assert Enabled(c, s, BorrowFree(id));
      assert |s.free| > 0;
    }
  }

  // What a whole closing and a whole accept do.

  /** A session in use: on its context, and the accept chain is done with it. */
  predicate InUse(s: State, id: SessionId) {
    id in s.sessions && id !in s.free && !Chain(s, id) && s.sessions[id].closer.Nobody?
  }

  lemma InUseIsMounted(c: Config, s: State, id: SessionId)
    requires Inv(c, s) && InUse(s, id)
    ensures Mounted(s, id) && !s.sessions[id].invoked && s.sessions[id].wasSetUp && s.inFlight > 0
    ensures s.sessions[id].context.Some? && s.sessions[id].context.value < |s.contexts| && s.contexts[s.sessions[id].context.value].refs > 0
  {
    hide ContextsOk;
    assert SessionOk(s, id);
    assert id in On(s, s.sessions[id].context.value);
    SubsetSize(s.free + {id}, s.sessions.Keys);
    assert |s.sessions.Keys| == |s.sessions|;
  }

  lemma ReachedOn(c: Config, s: State, actions: seq<Action>, a: Action)
    requires Reached(c, s, actions).Some? && Enabled(c, Reached(c, s, actions).value, a)
    ensures Reached(c, s, actions + [a]) == Some(Next(c, Reached(c, s, actions).value, a))
  {
    hide Enabled, Next;
    assert (actions + [a])[..|actions|] == actions;
  }

  /** Four actions in a row. */
  lemma ReachFour(c: Config, s: State, a1: Action, s1: State, a2: Action, s2: State, a3: Action, s3: State, a4: Action, s4: State)
    requires Enabled(c, s, a1) && Next(c, s, a1) == s1 && Enabled(c, s1, a2) && Next(c, s1, a2) == s2
    requires Enabled(c, s2, a3) && Next(c, s2, a3) == s3 && Enabled(c, s3, a4) && Next(c, s3, a4) == s4
    ensures Reached(c, s, [a1, a2, a3, a4]) == Some(s4)
  {
    hide Enabled, Next;
    assert Reached(c, s, []) == Some(s);
    ReachedOn(c, s, [], a1);
    assert [] + [a1] == [a1];
    ReachedOn(c, s, [a1], a2);
    assert [a1] + [a2] == [a1, a2];
    ReachedOn(c, s, [a1, a2], a3);
    assert [a1, a2] + [a3] == [a1, a2, a3];
    ReachedOn(c, s, [a1, a2, a3], a4);
    assert [a1, a2, a3] + [a4] == [a1, a2, a3, a4];
  }

  lemma ClosingSteps(c: Config, s: State, id: SessionId)
    requires id in s.sessions && s.sessions[id].context.Some? && s.sessions[id].context.value < |s.contexts|
    ensures var x, k := s.sessions[id], s.sessions[id].context.value;
            && (x.closer.Nobody? && x.wasSetUp ==> Enabled(c, s, Close(id)))
            && (x.closer.Nobody? && x.wasSetUp && !x.invoked ==> Next(c, s, Close(id)) == Update(s, id, x.(closer := Derefing)))
            && (x.closer.Derefing? && s.contexts[k].refs > 0 ==>
                  Enabled(c, s, Deref(id))
                  && Next(c, s, Deref(id)) == Update(s, id, x.(closer := Returning)).(contexts := s.contexts[k := s.contexts[k].(refs := s.contexts[k].refs - 1)]))
            && (x.closer.Returning? && s.inFlight > 0 ==>
                  Enabled(c, s, PutBack(id))
                  && Next(c, s, PutBack(id)) == Update(s, id, x.(closer := Returned)).(free := s.free + {id}, inFlight := s.inFlight - 1))
            && (x.closer.Returned? ==> Enabled(c, s, SetInvoked(id)) && Next(c, s, SetInvoked(id)) == Update(s, id, x.(closer := Nobody, invoked := true)))
  {
  }

  /** A session in use is closed by the first attempt, step by step: its context counts one session less, there is one
      less in flight, and the session is free again, with its once flag used up. Nothing else changes. */
  lemma CloseFrees(c: Config, s: State, id: SessionId)
    requires Inv(c, s) && InUse(s, id)
    ensures var k := s.sessions[id].context.value;
            && s.sessions[id].context.Some? && k < |s.contexts| && s.contexts[k].refs > 0 && s.inFlight > 0
            && Reached(c, s, [Close(id), Deref(id), PutBack(id), SetInvoked(id)]) ==
               Some(s.(contexts := s.contexts[k := s.contexts[k].(refs := s.contexts[k].refs - 1)], inFlight := s.inFlight - 1,
                       free := s.free + {id}, sessions := s.sessions[id := s.sessions[id].(invoked := true)]))
  {
    hide Inv, Next, Enabled, Reached;
    InUseIsMounted(c, s, id);
    var x := s.sessions[id];
    var k := x.context.value;
    var s1 := Update(s, id, x.(closer := Derefing));
    var s2 := Update(s1, id, x.(closer := Returning)).(contexts := s.contexts[k := s.contexts[k].(refs := s.contexts[k].refs - 1)]);
    var s3 := Update(s2, id, x.(closer := Returned)).(free := s.free + {id}, inFlight := s.inFlight - 1);
    var s4 := Update(s3, id, x.(closer := Nobody, invoked := true));
    ClosingSteps(c, s, id);
    ClosingSteps(c, s1, id);
    ClosingSteps(c, s2, id);
    ClosingSteps(c, s3, id);
    ReachFour(c, s, Close(id), s1, Deref(id), s2, PutBack(id), s3, SetInvoked(id), s4);
    assert s4.sessions == s.sessions[id := x.(invoked := true)];
  }

  lemma AcceptSteps(c: Config, s: State)
    ensures forall id :: s.phase.Accepting? && id in s.free ==>
              Enabled(c, s, BorrowFree(id))
              && Next(c, s, BorrowFree(id)) == s.(free := s.free - {id}, inFlight := s.inFlight + 1, phase := Borrowed(s.phase.k, id))
    ensures forall id, junk :: s.phase.Accepting? && s.free == {} && !Full(c, s) && id !in s.sessions ==>
              Enabled(c, s, BorrowNew(id, junk))
              && Next(c, s, BorrowNew(id, junk)) ==
                 s.(sessions := s.sessions[id := Session(None, junk, Nobody, false)], inFlight := s.inFlight + 1, phase := Borrowed(s.phase.k, id))
    ensures s.phase.Borrowed? && s.phase.k < |s.contexts| && s.phase.id in s.sessions ==>
              var k, id := s.phase.k, s.phase.id;
              Enabled(c, s, Ref)
              && Next(c, s, Ref) == s.(sessions := s.sessions[id := s.sessions[id].(context := Some(k))],
                                       contexts := s.contexts[k := s.contexts[k].(refs := s.contexts[k].refs + 1)], phase := Counted(k, id))
    ensures s.phase.Counted? && s.phase.id in s.sessions && s.sessions[s.phase.id].closer.Nobody? ==>
              var k, id := s.phase.k, s.phase.id;
              Enabled(c, s, ResetOnce)
              && Next(c, s, ResetOnce) == s.(sessions := s.sessions[id := s.sessions[id].(invoked := false, wasSetUp := true)], phase := Ready(k, id))
    ensures s.phase.Ready? && s.phase.id in s.sessions && s.sessions[s.phase.id].context == Some(s.phase.k) && s.phase.k < |s.contexts| && s.contexts[s.phase.k].holds > 0 ==>
              var k := s.phase.k;
              Enabled(c, s, Start)
              && Next(c, s, Start) == s.(contexts := s.contexts[k := s.contexts[k].(holds := s.contexts[k].holds - 1)], phase := Choosing)
  {
  }

  /** The state after a connection was accepted into session `id` on context `k`: the context counts it and the claim
      of the accept chain is returned, and the session can be closed once. */
  function Accepted(s: State, k: nat, id: SessionId): State
    requires k < |s.contexts| && s.contexts[k].holds > 0
  {
    s.(contexts := s.contexts[k := s.contexts[k].(refs := s.contexts[k].refs + 1, holds := s.contexts[k].holds - 1)],
       sessions := s.sessions[id := Session(Some(k), false, Nobody, true)], free := s.free - {id}, inFlight := s.inFlight + 1, phase := Choosing)
  }

  /** A free session whose last closing is quite over is taken into use by the four steps of the accept chain. */
  lemma AcceptFree(c: Config, s: State, id: SessionId)
    requires Inv(c, s) && s.phase.Accepting? && id in s.free && id in s.sessions && s.sessions[id].closer.Nobody?
    ensures s.phase.k < |s.contexts| && s.contexts[s.phase.k].holds > 0
    ensures Reached(c, s, [BorrowFree(id), Ref, ResetOnce, Start]) == Some(Accepted(s, s.phase.k, id))
    ensures InUse(Accepted(s, s.phase.k, id), id)
  {
    hide Inv, Next, Enabled, Reached, Full;
    AcceptHolds(c, s);
    var k := s.phase.k;
    var s1 := s.(free := s.free - {id}, inFlight := s.inFlight + 1, phase := Borrowed(k, id));
    var x := s1.sessions[id];
    AcceptSteps(c, s);
    AcceptRest(c, s1, k, id, x);
    var s4 := Accepted(s, k, id);
    ReachFour(c, s, BorrowFree(id), s1, Ref, AfterRef(s1, k, id, x), ResetOnce, AfterReset(s1, k, id, x), Start, s4);
  }

  function AfterRef(s: State, k: nat, id: SessionId, x: Session): State
    requires k < |s.contexts|
  {
    s.(sessions := s.sessions[id := x.(context := Some(k))],
       contexts := s.contexts[k := s.contexts[k].(refs := s.contexts[k].refs + 1)], phase := Counted(k, id))
  }

  function AfterReset(s: State, k: nat, id: SessionId, x: Session): State
    requires k < |s.contexts|
  {
    s.(sessions := s.sessions[id := x.(context := Some(k), invoked := false, wasSetUp := true)],
       contexts := s.contexts[k := s.contexts[k].(refs := s.contexts[k].refs + 1)], phase := Ready(k, id))
  }

  lemma AcceptRest(c: Config, s: State, k: nat, id: SessionId, x: Session)
    requires s.phase == Borrowed(k, id) && k < |s.contexts| && s.contexts[k].holds > 0
    requires id in s.sessions && s.sessions[id] == x && x.closer.Nobody?
    ensures Enabled(c, s, Ref) && Next(c, s, Ref) == AfterRef(s, k, id, x)
    ensures Enabled(c, AfterRef(s, k, id, x), ResetOnce) && Next(c, AfterRef(s, k, id, x), ResetOnce) == AfterReset(s, k, id, x)
    ensures Enabled(c, AfterReset(s, k, id, x), Start)
    ensures Next(c, AfterReset(s, k, id, x), Start) ==
            s.(contexts := s.contexts[k := s.contexts[k].(refs := s.contexts[k].refs + 1, holds := s.contexts[k].holds - 1)],
               sessions := s.sessions[id := Session(Some(k), false, Nobody, true)], phase := Choosing)
  {
    hide Next, Enabled, Full;
    var s2 := AfterRef(s, k, id, x);
    var s3 := AfterReset(s, k, id, x);
    AcceptSteps(c, s);
    AcceptSteps(c, s2);
    assert s2.sessions[id := s2.sessions[id].(invoked := false, wasSetUp := true)] == s3.sessions;
    AcceptSteps(c, s3);
  }

  lemma AcceptHolds(c: Config, s: State)
    requires Inv(c, s) && s.phase.Accepting?
    ensures s.phase.k < |s.contexts| && s.contexts[s.phase.k].holds > 0
  {
    hide RefsOk, PoolOk, SessionsOk, SomeActive;
    ChainHolds(c, s);
  }

  /** With no session free and the limit not reached, a new one is made and taken into use. */
  lemma AcceptNew(c: Config, s: State, id: SessionId, junk: bool)
    requires Inv(c, s) && s.phase.Accepting? && s.free == {} && !Full(c, s) && id !in s.sessions
    ensures s.phase.k < |s.contexts| && s.contexts[s.phase.k].holds > 0
    ensures Reached(c, s, [BorrowNew(id, junk), Ref, ResetOnce, Start]) == Some(Accepted(s, s.phase.k, id))
    ensures InUse(Accepted(s, s.phase.k, id), id)
  {
    hide Inv, Next, Enabled, Reached, Full;
    AcceptHolds(c, s);
    var k := s.phase.k;
    var x := Session(None, junk, Nobody, false);
    var s1 := s.(sessions := s.sessions[id := x], inFlight := s.inFlight + 1, phase := Borrowed(k, id));
    AcceptSteps(c, s);
    AcceptRest(c, s1, k, id, x);
    var s4 := Accepted(s, k, id);
    assert s1.sessions[id := Session(Some(k), false, Nobody, true)] == s4.sessions && s.free - {id} == s.free;
    ReachFour(c, s, BorrowNew(id, junk), s1, Ref, AfterRef(s1, k, id, x), ResetOnce, AfterReset(s1, k, id, x), Start, s4);
  }

  /** A connection that cannot be accepted changes nothing but that the claim of the accept chain is returned. */
  lemma RefusalReturnsHold(c: Config, s: State, a: Action)
    requires Inv(c, s) && s.phase.Accepting? && (a.AcceptError? || (a.BorrowFails? && Full(c, s)))
    ensures s.phase.k < |s.contexts| && s.contexts[s.phase.k].holds > 0
    ensures Enabled(c, s, a) && Enabled(c, Next(c, s, a), Unhold)
    ensures Next(c, Next(c, s, a), Unhold) ==
            s.(contexts := s.contexts[s.phase.k := s.contexts[s.phase.k].(holds := s.contexts[s.phase.k].holds - 1)], phase := Choosing)
  {
    hide Inv;
    AcceptHolds(c, s);
  }

  /** The accept chain never gets stuck: wherever it is, its next action is possible, unless it waits for the
      thread that is closing the session's last use to leave the once flag. */
  lemma ChainGoesOn(c: Config, s: State)
    requires Inv(c, s)
    ensures s.phase.Choosing? ==> Enabled(c, s, Choose)
    ensures s.phase.Accepting? ==> Enabled(c, s, AcceptError)
    ensures s.phase.Borrowed? ==> Enabled(c, s, Ref)
    ensures s.phase.Counted? ==> Enabled(c, s, ResetOnce) || Enabled(c, s, SetInvoked(s.phase.id))
    ensures s.phase.Ready? ==> Enabled(c, s, Start)
    ensures s.phase.Refused? ==> Enabled(c, s, Unhold)
    ensures forall id :: id in s.sessions && s.sessions[id].closer.Derefing? ==> Enabled(c, s, Deref(id))
  {
    hide RefsOk, PoolOk, On;
    if s.phase.Counted? { assert SessionOk(s, s.phase.id); }
    forall id | id in s.sessions && s.sessions[id].closer.Derefing?
      ensures Enabled(c, s, Deref(id))
    {
      assert SessionOk(s, id);
    }
  }

  // Conservation.

  function SumRefs(contexts: seq<Context>): nat {
    if contexts == [] then 0 else SumRefs(contexts[..|contexts| - 1]) + contexts[|contexts| - 1].refs
  }

  function OnFirst(s: State, n: nat): set<SessionId> {
    set id | id in s.sessions && Mounted(s, id) && s.sessions[id].context.Some? && s.sessions[id].context.value < n
  }

  lemma {:induction false} SumIsMounted(s: State, n: nat)
    requires RefsOk(s) && n <= |s.contexts|
    ensures SumRefs(s.contexts[..n]) == |OnFirst(s, n)|
  {
    if n == 0 {
      assert OnFirst(s, 0) == {};
    } else {
      SumIsMounted(s, n - 1);
      assert s.contexts[..n][..n - 1] == s.contexts[..n - 1];
      assert OnFirst(s, n) == OnFirst(s, n - 1) + On(s, n - 1);
      assert OnFirst(s, n - 1) !! On(s, n - 1);
    }
  }

  function AllMounted(s: State): set<SessionId> {
    set id | id in s.sessions && Mounted(s, id)
  }

  function Leaving(s: State): set<SessionId> {
    set id | id in s.sessions && s.sessions[id].closer.Returning?
  }

  function Arriving(s: State): set<SessionId> {
    if s.phase.Borrowed? then {s.phase.id} else {}
  }

  /** Session conservation: the sessions in flight are those that the contexts count, the one borrowed but not
      yet counted, and those finalised but not yet put back. */
  lemma Conservation(c: Config, s: State)
    requires Inv(c, s)
    ensures SumRefs(s.contexts) == |AllMounted(s)|
    ensures s.inFlight == SumRefs(s.contexts) + |Arriving(s)| + |Leaving(s)|
    ensures s.inFlight == |s.sessions.Keys - s.free|
  {
    hide ContextsOk, On, SomeActive;
    var n := |s.contexts|;
    SumIsMounted(s, n);
    assert s.contexts[..n] == s.contexts;
    assert OnFirst(s, n) == AllMounted(s) by { MountedSomewhere(s); }
    InFlightSets(s);
    var lent := s.sessions.Keys - s.free;
    assert lent == AllMounted(s) + Arriving(s) + Leaving(s);
    assert s.sessions.Keys == lent + s.free && lent !! s.free;
    assert |s.sessions.Keys| == |s.sessions|;
  }

  lemma MountedSomewhere(s: State)
    requires SessionsOk(s)
    ensures OnFirst(s, |s.contexts|) == AllMounted(s)
  {
    forall id | id in s.sessions && Mounted(s, id)
      ensures s.sessions[id].context.Some? && s.sessions[id].context.value < |s.contexts|
    {
      assert SessionOk(s, id);
    }
  }

  lemma InFlightSets(s: State)
    requires SessionsOk(s) && PhaseOk(s)
    ensures s.sessions.Keys - s.free == AllMounted(s) + Arriving(s) + Leaving(s)
    ensures AllMounted(s) !! Arriving(s) && AllMounted(s) !! Leaving(s) && Arriving(s) !! Leaving(s)
  {
    forall id | id in s.sessions
      ensures s.sessions[id].closer.Returning? ==> id !in s.free && !Chain(s, id)
    {
      assert SessionOk(s, id);
    }
  }
}
