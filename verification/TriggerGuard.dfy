/** The shutdown guard, as a transition system over the atomic actions of the threads that use it. The
    mutex of the guard covers acquiring and triggering; a release happens outside it. */
module TriggerGuards {

  type GuardId = nat

  /** Who is inside the mutex, and how far. */
  datatype Holder =
    | Free
    | Acquiring(id: GuardId, at: AcquireStep)
    | Triggering(to: TriggerStep)

  /** `Tested` has read `triggered_`, `Counted` has raised the count if it was allowed to. */
  datatype AcquireStep = Entered | Tested(seen: bool) | Counted(raised: bool)

  /** `Waiting` is about to test the count; `Clear` has found it zero. */
  datatype TriggerStep = Checking | Waiting | Clear

  /** `guards` maps each live scoped guard to whether it is armed, that is, has to release the guard; `passed` are
      those that were tested and found true; `done` counts the accepts registered and the sessions started. */
  datatype State = State(triggered: bool, refCount: int, guards: map<GuardId, bool>, holder: Holder, passed: set<GuardId>, done: nat)

  datatype Action =
    | EnterAcquire(id: GuardId) | TestTriggered | Count | LeaveAcquire
    | Test(guard: GuardId) | Register(guard: GuardId) | StartSession(guard: GuardId) | Release(guard: GuardId)
    | EnterTrigger | CheckTriggered | Wake | TestCount | Store

  function Init(): State {
    State(false, 0, map[], Free, {}, 0)
  }

  predicate Enabled(s: State, a: Action) {
    match a
    case EnterAcquire(id) => s.holder.Free? && id !in s.guards
    case TestTriggered => s.holder.Acquiring? && s.holder.at.Entered?
    case Count => s.holder.Acquiring? && s.holder.at.Tested?
    case LeaveAcquire => s.holder.Acquiring? && s.holder.at.Counted?
    case Test(g) => g in s.guards
    case Register(g) => g in s.guards && g in s.passed
    case StartSession(g) => g in s.guards && g in s.passed
    case Release(g) => g in s.guards
    case EnterTrigger => s.holder.Free?
    case CheckTriggered => s.holder == Triggering(Checking)
    case Wake => s.holder.Free?
    case TestCount => s.holder == Triggering(Waiting)
    case Store => s.holder == Triggering(Clear)
  }

  /** An accept is registered and a session started only under a guard that was tested and found true.
      `Wake` is a thread that comes back from waiting on the condition variable, with the mutex; it
      tests only the count. An action that leaves `Free` has let go of the mutex. */
  function Next(s: State, a: Action): State
    requires Enabled(s, a)
  {
    match a
    case EnterAcquire(id) => s.(holder := Acquiring(id, Entered))
    case TestTriggered => s.(holder := s.holder.(at := Tested(s.triggered)))
    case Count =>
      if s.holder.at.seen then s.(holder := s.holder.(at := Counted(false)))
      else s.(refCount := s.refCount + 1, holder := s.holder.(at := Counted(true)))
    case LeaveAcquire => s.(guards := s.guards[s.holder.id := !s.triggered], holder := Free)
    case Test(g) => if TestsTrue(s, g) then s.(passed := s.passed + {g}) else s
    case Register(g) => s.(done := s.done + 1)
    case StartSession(g) => s.(done := s.done + 1)
    case Release(g) =>
      s.(refCount := if s.guards[g] then s.refCount - 1 else s.refCount, guards := s.guards - {g}, passed := s.passed - {g})
    case EnterTrigger => s.(holder := Triggering(Checking))
    case CheckTriggered => s.(holder := if s.triggered then Free else Triggering(Waiting))
    case Wake => s.(holder := Triggering(Waiting))
    case TestCount => s.(holder := if s.refCount == 0 then Triggering(Clear) else Free)
    case Store => s.(triggered := true, holder := Free)
  }

  /** What a scoped guard answers when it is tested. */
  predicate TestsTrue(s: State, g: GuardId)
    requires g in s.guards
  {
    !s.triggered
  }

  function Armed(s: State): set<GuardId> {
    set g | g in s.guards && s.guards[g]
  }

  predicate Raised(s: State) {
    s.holder.Acquiring? && s.holder.at.Counted? && s.holder.at.raised
  }

  /** The count is the number of live armed guards, together with the one being made; once triggered there
      are none, and inside the mutex what was read stays true. */
  ghost predicate Inv(s: State) {
    && s.refCount == |Armed(s)| + (if Raised(s) then 1 else 0)
    && (s.triggered ==> s.refCount == 0)
    && (s.holder.Acquiring? ==> s.holder.id !in s.guards)
    && (s.holder.Acquiring? && s.holder.at.Tested? ==> s.holder.at.seen == s.triggered)
    && (s.holder.Acquiring? && s.holder.at.Counted? ==> s.holder.at.raised == !s.triggered)
    && (s.holder == Triggering(Clear) ==> s.refCount == 0)
    && (forall g :: g in s.guards && !s.guards[g] ==> s.triggered)
    && (forall g :: g in s.passed ==> g in s.guards && s.guards[g])
  }

  lemma NextKeepsInv(s: State, a: Action)
    requires Inv(s) && Enabled(s, a)
    ensures Inv(Next(s, a)) && (s.triggered ==> Next(s, a).triggered)
  {
    var t := Next(s, a);
    match a
    case LeaveAcquire =>
      if s.triggered {
        assert Armed(t) == Armed(s);
      } else {
        assert Armed(t) == Armed(s) + {s.holder.id};
      }
    case Release(g) =>
      if s.guards[g] {
        assert g in Armed(s);
        assert Armed(t) == Armed(s) - {g};
      } else {
        assert Armed(t) == Armed(s);
      }
    case _ => assert Armed(t) == Armed(s);
  }

  // What each use of the guard achieves when nobody is in the way.

  /** Making a scoped guard: it is armed and counted, unless the guard has been triggered. */
  lemma AcquireArms(s: State, id: GuardId)
    requires Inv(s) && s.holder.Free? && id !in s.guards
    ensures Enabled(s, EnterAcquire(id))
    ensures Enabled(Next(s, EnterAcquire(id)), TestTriggered)
    ensures Enabled(Next(Next(s, EnterAcquire(id)), TestTriggered), Count)
    ensures var t := Next(Next(Next(s, EnterAcquire(id)), TestTriggered), Count);
            && Enabled(t, LeaveAcquire)
            && Next(t, LeaveAcquire) == s.(guards := s.guards[id := !s.triggered], refCount := if s.triggered then s.refCount else s.refCount + 1)
  {
  }

  /** An armed guard tests true, and then lets one register accepts and start sessions, as often as it is asked to. */
  lemma ArmedGuardServes(s: State, g: GuardId)
    requires Inv(s) && g in s.guards && s.guards[g]
    ensures Enabled(s, Test(g)) && TestsTrue(s, g)
    ensures var t := Next(s, Test(g));
            && t == s.(passed := s.passed + {g})
            && Enabled(t, Register(g)) && Next(t, Register(g)) == t.(done := s.done + 1)
            && Enabled(t, StartSession(g)) && Next(t, StartSession(g)) == t.(done := s.done + 1)
  {
    assert g in Armed(s);
  }

  /** So the very first guard of a server lets its first accept be registered. */
  lemma FirstAccept(id: GuardId)
    ensures IsRun([Init()]) && Init().done == 0 && Init().guards == map[] && Init().holder.Free?
    ensures Enabled(Init(), EnterAcquire(id))
    ensures var t := Next(Next(Next(Init(), EnterAcquire(id)), TestTriggered), Count);
            && Enabled(t, LeaveAcquire) && Enabled(Next(t, LeaveAcquire), Test(id))
            && Enabled(Next(Next(t, LeaveAcquire), Test(id)), Register(id))
            && Next(Next(Next(t, LeaveAcquire), Test(id)), Register(id)).done == 1
  {
    InitInv();
    AcquireArms(Init(), id);
  }

  /** A guard that is not armed lets nothing pass. */
  lemma UnarmedGuardRefuses(s: State, g: GuardId)
    requires Inv(s) && g in s.guards && !s.guards[g]
    ensures Enabled(s, Test(g)) && !TestsTrue(s, g) && Next(s, Test(g)) == s && !Enabled(s, Register(g)) && !Enabled(s, StartSession(g))
  {
  }

  /** The end of a scope takes the guard back, with its count if it was armed. */
  lemma ReleaseLowers(s: State, g: GuardId)
    requires Inv(s) && g in s.guards
    ensures Enabled(s, Release(g))
    ensures var t := Next(s, Release(g));
            g !in t.guards && g !in t.passed && t.refCount == s.refCount - (if s.guards[g] then 1 else 0) && t.refCount >= 0
            && t.done == s.done && t.holder == s.holder && t.triggered == s.triggered
  {
    NextKeepsInv(s, Release(g));
  }

  /** Triggering goes off at once if no armed guard is alive, and else waits, outside the mutex; a thread that comes back
      from waiting fares the same. */
  lemma TriggerGoesOff(s: State, woken: bool)
    requires Inv(s) && s.holder.Free? && !s.triggered
    ensures var s1 := if woken then Next(s, Wake) else Next(Next(s, EnterTrigger), CheckTriggered);
            && (woken ==> Enabled(s, Wake)) && (!woken ==> Enabled(s, EnterTrigger) && Enabled(Next(s, EnterTrigger), CheckTriggered))
            && Enabled(s1, TestCount)
            && (Armed(s) != {} ==> Next(s1, TestCount) == s)
            && (Armed(s) == {} ==> Enabled(Next(s1, TestCount), Store) && Next(Next(s1, TestCount), Store) == s.(triggered := true))
  {
    assert s.refCount == |Armed(s)|;
    assert Armed(s) != {} ==> |Armed(s)| > 0;
  }

  /** The states after each action of a run. */
  ghost predicate IsRun(ss: seq<State>) {
    && |ss| > 0 && ss[0] == Init()
    && forall i :: 0 <= i < |ss| - 1 ==> Follows(ss[i], ss[i + 1])
  }

  ghost predicate Follows(s: State, t: State) {
    exists a :: Enabled(s, a) && t == Next(s, a)
  }

  lemma {:induction false} RunKeepsInv(ss: seq<State>, i: nat)
    requires IsRun(ss) && i < |ss|
    ensures Inv(ss[i])
    decreases i
  {
    hide Inv, Next;
    if i == 0 {
      InitInv();
    } else {
      RunKeepsInv(ss, i - 1);
      assert Follows(ss[i - 1], ss[i - 1 + 1]);
      var a :| Enabled(ss[i - 1], a) && ss[i] == Next(ss[i - 1], a);
      NextKeepsInv(ss[i - 1], a);
    }
  }

  lemma InitInv()
    ensures Inv(Init())
  {
    assert Armed(Init()) == {};
  }

  lemma {:induction false} StaysTriggered(ss: seq<State>, i: nat, j: nat)
    requires IsRun(ss) && i <= j < |ss| && ss[i].triggered
    ensures ss[j].triggered
    decreases j
  {
    hide Inv, Next;
    if i < j {
      StaysTriggered(ss, i, j - 1);
      RunKeepsInv(ss, j - 1);
      assert Follows(ss[j - 1], ss[j - 1 + 1]);
      var a :| Enabled(ss[j - 1], a) && ss[j] == Next(ss[j - 1], a);
      NextKeepsInv(ss[j - 1], a);
    }
  }

  /** In every run the count is never negative, a scoped guard tests true exactly while it is armed, and an
      armed guard keeps the trigger from going off for as long as it lives. */
  lemma ArmedGuardsBlock(ss: seq<State>, i: nat)
    requires IsRun(ss) && i < |ss|
    ensures ss[i].refCount >= 0
    ensures forall g :: g in ss[i].guards ==> (TestsTrue(ss[i], g) <==> ss[i].guards[g])
    ensures !Raised(ss[i]) ==> ss[i].refCount == |Armed(ss[i])|
    ensures ss[i].triggered ==> Armed(ss[i]) == {}
  {
    hide IsRun;
    RunKeepsInv(ss, i);
    var s := ss[i];
    forall g | g in s.guards && s.guards[g]
      ensures !s.triggered
    {
      assert g in Armed(s);
    }
  }

  /** After `trigger` has returned, no accept is registered and no session started: no guard of any later state is armed
      or tests true, none has passed its test, and so neither action is possible. */
  lemma NothingAfterTrigger(ss: seq<State>, i: nat, j: nat, g: GuardId)
    requires IsRun(ss) && i <= j < |ss| && ss[i].triggered
    ensures !Enabled(ss[j], Register(g)) && !Enabled(ss[j], StartSession(g))
    ensures g in ss[j].guards ==> !ss[j].guards[g] && !TestsTrue(ss[j], g)
  {
    hide IsRun;
    StaysTriggered(ss, i, j);
    ArmedGuardsBlock(ss, j);
    RunKeepsInv(ss, j);
  }

  /** So the count of what was done stays what it was. */
  lemma {:induction false} DoneStays(ss: seq<State>, i: nat, j: nat)
    requires IsRun(ss) && i <= j < |ss| && ss[i].triggered
    ensures ss[j].done == ss[i].done
    decreases j
  {
    if i < j {
      DoneStays(ss, i, j - 1);
      assert Follows(ss[j - 1], ss[j - 1 + 1]);
      var a :| Enabled(ss[j - 1], a) && ss[j] == Next(ss[j - 1], a);
      hide IsRun, Next, Enabled;
      if a.Register? || a.StartSession? { NothingAfterTrigger(ss, i, j - 1, a.guard); } else { DoneBy(ss[j - 1], a); }
    }
  }

  lemma DoneBy(s: State, a: Action)
    requires Enabled(s, a) && !a.Register? && !a.StartSession?
    ensures Next(s, a).done == s.done
  {
  }
}
