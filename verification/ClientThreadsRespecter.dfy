/** The reference-count teardown protocol, as a state machine over the atomic steps of any number of
    threads: the flag check, the increment and the conditional lock of a registration, the decrement
    and the conditional unlock of a release, and the steps of the destructor. The mutex is a binary
    semaphore: the thread that unlocks it need not be the one that locked it. */
module ClientThreads {
  import opened Common

  type ThreadId = nat

  /** One id for each registration; a move hands it to another thread. */
  type ClientId = nat

  const OWNER: ThreadId := 0
  const BASE: ClientId := 0

  /** A thread inside a registration that passed the flag check, one whose increment saw zero, and one
      whose decrement reached zero. */
  datatype Busy = PastCheck(id: ClientId) | MustLock(id: ClientId) | MustUnlock

  /** Where the thread that owns the instance is in its life. */
  datatype Owner = Constructing | Running | FlagSet | BaseMoved | Waiting | Finished

  /** The first three are the object's fields. The holder of a client is the thread that has it with a
      non-null parent. The last two count the mutex operations of clients. */
  datatype State = State(
    refCount: int,
    destructing: bool,
    locked: bool,
    holder: map<ClientId, ThreadId>,
    busy: map<ThreadId, Busy>,
    owner: Owner,
    locks: nat,
    unlocks: nat)

  const INITIAL := State(0, false, false, map[], map[], Constructing, 0, 0)

  datatype Action =
    | Check(th: ThreadId, id: ClientId)
    | Increment(th: ThreadId)
    | Lock(th: ThreadId)
    | Move(id: ClientId, to: ThreadId)
    | Drop(id: ClientId)
    | Unlock(th: ThreadId)
    | SetFlag
    | MoveBase
    | DropBase
    | FinalLock

  // ---- Steps ----

  predicate Holds(s: State, th: ThreadId) {
    exists c | c in s.holder :: s.holder[c] == th
  }

  predicate IsFresh(s: State, id: ClientId) {
    && id !in s.holder
    && forall th | th in s.busy :: s.busy[th].MustUnlock? || s.busy[th].id != id
  }

  /** A registration is made by a thread that holds a client, or by the owner before it destroys the
      instance. The constructor registers the base client. */
  predicate MayRegister(s: State, th: ThreadId) {
    if s.owner.Constructing? then th == OWNER
    else (th == OWNER && s.owner.Running?) || (th != OWNER && Holds(s, th))
  }

  /** A thread runs one piece of code at a time, and the owner's own clients wait while it destroys
      the instance. */
  predicate IsFree(s: State, th: ThreadId) {
    th !in s.busy && (th == OWNER ==> s.owner.Running?)
  }

  predicate Enabled(s: State, a: Action, disciplined: bool) {
    match a
    case Check(th, id) =>
      && th !in s.busy && IsFresh(s, id) && (id == BASE <==> s.owner.Constructing?)
      && (MayRegister(s, th) || (!disciplined && !s.owner.Constructing? && th != OWNER))
    case Increment(th) => th in s.busy && s.busy[th].PastCheck?
    case Lock(th) => th in s.busy && s.busy[th].MustLock? && !s.locked
    case Move(id, to) =>
      && id != BASE && id in s.holder && IsFree(s, s.holder[id])
      && (to == OWNER ==> s.owner.Running?)
    case Drop(id) => id != BASE && id in s.holder && IsFree(s, s.holder[id])
    case Unlock(th) => th in s.busy && s.busy[th].MustUnlock?
    case SetFlag => s.owner.Running? && OWNER !in s.busy
    case MoveBase => s.owner.FlagSet?
    case DropBase => s.owner.BaseMoved?
    case FinalLock => s.owner.Waiting? && OWNER !in s.busy && !s.locked
  }

  /** The decrement, and what it obliges the thread to do. */
  function Release(s: State, id: ClientId, th: ThreadId): State {
    s.(refCount := s.refCount - 1,
       holder := s.holder - {id},
       busy := if s.refCount - 1 == 0 then s.busy[th := MustUnlock] else s.busy)
  }

  function Step(s: State, a: Action): State
    requires Enabled(s, a, false)
  {
    match a
    case Check(th, id) => if s.destructing then s else s.(busy := s.busy[th := PastCheck(id)])
    case Increment(th) =>
      var id := s.busy[th].id;
      if s.refCount == 0 then s.(refCount := 1, busy := s.busy[th := MustLock(id)])
      else s.(refCount := s.refCount + 1, busy := s.busy - {th}, holder := s.holder[id := th])
    case Lock(th) =>
      s.(locked := true, busy := s.busy - {th}, holder := s.holder[s.busy[th].id := th],
         owner := if s.owner.Constructing? then Running else s.owner, locks := s.locks + 1)
    case Move(id, to) => s.(holder := s.holder[id := to])
    case Drop(id) => Release(s, id, s.holder[id])
    case Unlock(th) => s.(locked := false, busy := s.busy - {th}, unlocks := s.unlocks + 1)
    case SetFlag => s.(destructing := true, owner := FlagSet)
    case MoveBase => s.(owner := BaseMoved)
    case DropBase => Release(s, BASE, OWNER).(owner := Waiting)
    case FinalLock => s.(locked := true, owner := Finished)
  }

  predicate Run(s: State, actions: seq<Action>, disciplined: bool)
    decreases |actions|
  {
    actions == [] ||
    (Enabled(s, actions[0], disciplined) && Enabled(s, actions[0], false)
     && Run(Step(s, actions[0]), actions[1..], disciplined))
  }

  function Exec(s: State, actions: seq<Action>, disciplined: bool): State
    requires Run(s, actions, disciplined)
    decreases |actions|
  {
    if actions == [] then s else Exec(Step(s, actions[0]), actions[1..], disciplined)
  }

  // ---- What every reachable state keeps ----

  function Registering(s: State): set<ThreadId> {
    set th | th in s.busy && s.busy[th].PastCheck?
  }

  function Locking(s: State): set<ThreadId> {
    set th | th in s.busy && s.busy[th].MustLock?
  }

  function Unlocking(s: State): set<ThreadId> {
    set th | th in s.busy && s.busy[th].MustUnlock?
  }

  predicate ConstructingInv(s: State) {
    && s.holder == map[] && !s.locked && !s.destructing && s.locks == s.unlocks == 0
    && (forall th | th in s.busy :: th == OWNER && !s.busy[th].MustUnlock? && s.busy[th].id == BASE)
    && s.refCount == |Locking(s)|
  }

  predicate ConstructedInv(s: State) {
    && s.refCount == |s.holder|
    && Locking(s) == {}
    && (BASE in s.holder <==> s.owner.Running? || s.owner.FlagSet? || s.owner.BaseMoved?)
    && (BASE in s.holder ==> s.holder[BASE] == OWNER)
    && (s.destructing <==> !s.owner.Running?)
    && (OWNER in Registering(s) ==> s.owner.Running?)
    // every thread inside a registration holds a client
    && (forall th | th in Registering(s) :: 
          Holds(s, th) && s.busy[th].id !in s.holder && s.busy[th].id != BASE)
    && (forall th, u | th in Registering(s) && u in Registering(s) && s.busy[th].id == s.busy[u].id :: th == u)
    // the mutex
    && s.locks == 1
    && s.unlocks + |Unlocking(s)| == (if s.refCount == 0 then 1 else 0)
    && (s.locked <==> s.unlocks == 0 || s.owner.Finished?)
    && (s.refCount == 0 ==> s.owner.Waiting? || s.owner.Finished?)
    && (s.owner.Finished? ==> s.unlocks == 1)
  }

  predicate Inv(s: State) {
    if s.owner.Constructing? then ConstructingInv(s) else ConstructedInv(s)
  }

  lemma StartsRight()
    ensures Inv(INITIAL)
  {
    assert Locking(INITIAL) == {};
  }

  lemma ConstructionKeeps(s: State, a: Action)
    requires s.owner.Constructing? && Inv(s) && Enabled(s, a, true)
    ensures Enabled(s, a, false) && Inv(Step(s, a))
  {
    var s' := Step(s, a);
    match a
    case Check(th, id) =>
      assert Locking(s') == Locking(s);
    case Increment(th) =>
      assert Locking(s) == {};
      assert Locking(s') == {OWNER};
    case Lock(th) =>
      assert Locking(s) == {OWNER};
      assert s'.holder == map[BASE := OWNER] && |s'.holder| == 1;
      assert s'.busy == map[] && Unlocking(s') == {};
  }

  lemma CheckKeeps(s: State, th: ThreadId, id: ClientId)
    requires ConstructedInv(s) && !s.owner.Constructing? && Enabled(s, Check(th, id), true)
    ensures Enabled(s, Check(th, id), false) && Inv(Step(s, Check(th, id)))
  {
    var s' := Step(s, Check(th, id));
    assert Unlocking(s') == Unlocking(s);
    if !s.destructing {
      assert Registering(s') == Registering(s) + {th};
      assert Holds(s, th) by {
        if th == OWNER { assert BASE in s.holder && s.holder[BASE] == OWNER; }
      }
    }
  }

  /** Every registration after construction finds a count above zero and touches no mutex. */
  lemma IncrementKeeps(s: State, th: ThreadId)
    requires ConstructedInv(s) && !s.owner.Constructing? && Enabled(s, Increment(th), true)
    ensures s.refCount > 0
    ensures Inv(Step(s, Increment(th)))
  {
    assert th in Registering(s);
    var c :| c in s.holder && s.holder[c] == th;
    assert |s.holder| > 0;
    var s' := Step(s, Increment(th));
    assert Unlocking(s') == Unlocking(s);
    assert Registering(s') == Registering(s) - {th};
    var id := s.busy[th].id;
    forall u | u in Registering(s') ensures Holds(s', u) && s'.busy[u].id !in s'.holder {
      var d :| d in s.holder && s.holder[d] == u;
      assert d in s'.holder && s'.holder[d] == u;
    }
  }

  lemma MoveKeeps(s: State, id: ClientId, to: ThreadId)
    requires ConstructedInv(s) && !s.owner.Constructing? && Enabled(s, Move(id, to), true)
    ensures Inv(Step(s, Move(id, to)))
  {
    var s' := Step(s, Move(id, to));
    assert s'.holder.Keys == s.holder.Keys;
    assert |s'.holder| == |s.holder|;
    forall u | u in Registering(s') ensures Holds(s', u) && s'.busy[u].id !in s'.holder {
      var d :| d in s.holder && s.holder[d] == u;
      assert d in s'.holder && s'.holder[d] == u;
    }
  }

  /** A release by a thread outside any registration, of the base client or of one it holds. */
  lemma ReleaseKeeps(s: State, id: ClientId, s': State)
    requires ConstructedInv(s) && !s.owner.Constructing? && id in s.holder && s.holder[id] !in s.busy
    requires var r := Release(s, id, s.holder[id]);
             if id == BASE then s.owner.BaseMoved? && s' == r.(owner := Waiting) else s' == r
    ensures Inv(s')
  {
    var th := s.holder[id];
    assert |s'.holder| == |s.holder| - 1;
    forall u | u in Registering(s') ensures u in Registering(s) && Holds(s', u) && s'.busy[u].id !in s'.holder {
      var d :| d in s.holder && s.holder[d] == u;
      assert d in s'.holder && s'.holder[d] == u;
    }
    if s'.refCount == 0 {
      assert Unlocking(s) == {};
      assert Unlocking(s') == {th};
      assert BASE !in s'.holder;
    } else {
      assert Unlocking(s') == Unlocking(s);
    }
  }

  lemma UnlockKeeps(s: State, th: ThreadId)
    requires ConstructedInv(s) && !s.owner.Constructing? && Enabled(s, Unlock(th), true)
    ensures Inv(Step(s, Unlock(th)))
  {
    var s' := Step(s, Unlock(th));
    assert th in Unlocking(s);
    assert Unlocking(s') == Unlocking(s) - {th};
    assert Registering(s') == Registering(s);
  }

  lemma DestructorKeeps(s: State, a: Action)
    requires ConstructedInv(s) && !s.owner.Constructing? && Enabled(s, a, true)
    requires a.SetFlag? || a.MoveBase? || a.FinalLock?
    ensures Inv(Step(s, a))
  {
    var s' := Step(s, a);
    assert Registering(s') == Registering(s) && Unlocking(s') == Unlocking(s);
  }

  lemma StepKeeps(s: State, a: Action)
    requires Inv(s) && Enabled(s, a, true)
    ensures Enabled(s, a, false) && Inv(Step(s, a))
  {
    hide ConstructedInv, ConstructingInv;
    if s.owner.Constructing? {
      ConstructionKeeps(s, a);
    } else {
      match a
      case Check(th, id) => CheckKeeps(s, th, id);
      case Increment(th) => IncrementKeeps(s, th);
      case Lock(th) => NobodyLocks(s);
      case Move(id, to) => MoveKeeps(s, id, to);
      case Drop(id) => ReleaseKeeps(s, id, Step(s, a));
      case Unlock(th) => UnlockKeeps(s, th);
      case DropBase => BaseIsHeld(s); ReleaseKeeps(s, BASE, Step(s, a));
      case _ => DestructorKeeps(s, a);
    }
  }

  lemma NobodyLocks(s: State)
    requires ConstructedInv(s)
    ensures forall th | th in s.busy :: !s.busy[th].MustLock?
  {
    assert forall th | th in s.busy && s.busy[th].MustLock? :: th in Locking(s);
  }

  lemma BaseIsHeld(s: State)
    requires ConstructedInv(s) && s.owner.BaseMoved?
    ensures BASE in s.holder && s.holder[BASE] == OWNER && OWNER !in s.busy
  {
    assert OWNER !in Registering(s) && OWNER !in Locking(s);
    assert s.refCount != 0 && Unlocking(s) == {};
    assert OWNER !in Unlocking(s);
  }

  lemma {:induction false} RunKeeps(s: State, actions: seq<Action>)
    requires Inv(s) && Run(s, actions, true)
    ensures Inv(Exec(s, actions, true))
    decreases |actions|
  {
    hide Inv, Enabled, Step;
    if actions != [] {
      StepKeeps(s, actions[0]);
      RunKeeps(Step(s, actions[0]), actions[1..]);
    }
  }

  /** A move hands one client to its new thread and nothing else changes: that thread may now register
      and, when free, release it; the old thread holds a client only if it had another. */
  lemma MoveHandsOver(s: State, id: ClientId, to: ThreadId)
    requires Enabled(s, Move(id, to), true)
    ensures var s', from := Step(s, Move(id, to)), s.holder[id];
            && Holds(s', to)
            && (from != to ==> (Holds(s', from) <==> exists c :: c in s.holder && c != id && s.holder[c] == from))
            && (forall c | c != id :: (c in s'.holder <==> c in s.holder)
                                      && (c in s.holder ==> s'.holder[c] == s.holder[c]))
            && (Enabled(s', Drop(id), true) <==> IsFree(s, to))
            && s' == s.(holder := s'.holder)
  {
    var s', from := Step(s, Move(id, to)), s.holder[id];
    assert id in s'.holder && s'.holder[id] == to;
    if from != to {
      if c :| c in s.holder && c != id && s.holder[c] == from {
        assert c in s'.holder && s'.holder[c] == from;
      }
      if Holds(s', from) {
        var c :| c in s'.holder && s'.holder[c] == from;
        assert c in s.holder && c != id;
      }
    }
  }

  // ---- Teardown ----

  /** When the destructor's lock has succeeded, no client is left and no thread is inside a
      registration or a release, and nothing can ever happen to the instance again. */
  lemma TeardownIsSafe(actions: seq<Action>)
    requires Run(INITIAL, actions, true) && Exec(INITIAL, actions, true).owner.Finished?
    ensures var s := Exec(INITIAL, actions, true);
            && s.holder == map[] && s.busy == map[] && s.refCount == 0
            && forall a :: !Enabled(s, a, true)
  {
    StartsRight();
    RunKeeps(INITIAL, actions);
    FinishedMeansAlone(Exec(INITIAL, actions, true));
  }

  lemma FinishedMeansAlone(s: State)
    requires Inv(s) && s.owner.Finished?
    ensures s.holder == map[] && s.busy == map[] && s.refCount == 0
    ensures forall a :: !Enabled(s, a, true)
  {
    assert s.refCount == 0 && s.holder.Keys == {};
    assert Unlocking(s) == {};
    forall th ensures th !in s.busy {
      assert th !in Registering(s) && th !in Locking(s) && th !in Unlocking(s);
    }
  }

  /** After construction the count is the number of clients, the base client has locked the mutex and
      no other registration ever does, the count of a thread about to register is not zero, and the
      decrements that reached zero number one if the count is zero and none otherwise. */
  lemma LockDiscipline(actions: seq<Action>)
    requires Run(INITIAL, actions, true) && !Exec(INITIAL, actions, true).owner.Constructing?
    ensures var s := Exec(INITIAL, actions, true);
            && s.refCount == |s.holder|
            && s.locks == 1
            && (forall th | th in s.busy :: !s.busy[th].MustLock?)
            && (forall th | th in s.busy && s.busy[th].PastCheck? :: s.refCount > 0)
            && s.unlocks + |Unlocking(s)| == (if s.refCount == 0 then 1 else 0)
            && (s.locked <==> s.unlocks == 0 || s.owner.Finished?)
  {
    StartsRight();
    RunKeeps(INITIAL, actions);
    var s := Exec(INITIAL, actions, true);
    NobodyLocks(s);
    forall th | th in s.busy && s.busy[th].PastCheck? ensures s.refCount > 0 {
      IncrementKeeps(s, th);
    }
  }

  // ---- The destructor's wait ends ----

  /** The steps that make headway; moves and refused registrations do not. */
  predicate IsWork(a: Action) {
    !a.Check? && !a.Move?
  }

  function Rank(o: Owner): nat {
    match o
    case Constructing => 5
    case Running => 4
    case FlagSet => 3
    case BaseMoved => 2
    case Waiting => 1
    case Finished => 0
  }

  function Measure(s: State): nat {
    3 * |Registering(s)| + 2 * |s.holder| + |Unlocking(s)| + Rank(s.owner)
  }

  /** How a step changes the measure, given what the invariant says about its thread. */
  lemma MeasureAfter(s: State, a: Action)
    requires Enabled(s, a, true) && Enabled(s, a, false) && !s.owner.Constructing?
    requires s.destructing || a.Increment? || a.Drop?
    requires forall th | th in s.busy :: !s.busy[th].MustLock?
    requires a.Increment? ==> s.refCount != 0 && s.busy[a.th].id !in s.holder
    requires a.DropBase? ==> BASE in s.holder && s.holder[BASE] == OWNER && OWNER !in s.busy
    requires a.SetFlag? ==> !s.destructing
    ensures a.Move? ==> Measure(Step(s, a)) == Measure(s)
    ensures IsWork(a) ==> Measure(Step(s, a)) < Measure(s)
    ensures |Registering(Step(s, a))| == |Registering(s)| - (if a.Increment? then 1 else 0)
  {
    hide MayRegister, IsFresh, IsFree, Holds;
    match a
    case Increment(th) => LeavingRegistration(s, Step(s, a), th);
    case Unlock(th) => LeavingRelease(s, Step(s, a), th);
    case Move(id, to) => assert Step(s, a).holder.Keys == s.holder.Keys;
    case Drop(id) => assert s.holder[id] !in s.busy by { FreeIsNotBusy(s, s.holder[id]); } ReleaseMeasure(s, id);
    case DropBase => ReleaseMeasure(s, BASE);
    case _ =>
  }

  lemma FreeIsNotBusy(s: State, th: ThreadId)
    requires IsFree(s, th)
    ensures th !in s.busy
  {
  }

  lemma LeavingRegistration(s: State, s': State, th: ThreadId)
    requires th in s.busy && s.busy[th].PastCheck? && s'.busy == s.busy - {th}
    ensures |Registering(s')| == |Registering(s)| - 1 && |Unlocking(s')| == |Unlocking(s)|
  {
    assert Registering(s') == Registering(s) - {th} && th in Registering(s);
    assert Unlocking(s') == Unlocking(s);
  }

  lemma LeavingRelease(s: State, s': State, th: ThreadId)
    requires th in s.busy && s.busy[th].MustUnlock? && s'.busy == s.busy - {th}
    ensures |Registering(s')| == |Registering(s)| && |Unlocking(s')| == |Unlocking(s)| - 1
  {
    assert Registering(s') == Registering(s);
    assert Unlocking(s') == Unlocking(s) - {th} && th in Unlocking(s);
  }

  /** Once the flag is set: a registration that starts is refused and changes nothing; one that had
      passed the flag check succeeds, and there are fewer of those left; moves keep the count; and
      every other step brings the end nearer. */
  lemma StepAfterFlag(s: State, a: Action)
    requires Inv(s) && s.destructing && Enabled(s, a, true)
    ensures Enabled(s, a, false) && Inv(Step(s, a)) && Step(s, a).destructing
    ensures a.Check? ==> Step(s, a) == s
    ensures a.Move? ==> Step(s, a).refCount == s.refCount && Measure(Step(s, a)) == Measure(s)
    ensures IsWork(a) ==> Measure(Step(s, a)) < Measure(s)
    ensures |Registering(Step(s, a))| == |Registering(s)| - (if a.Increment? then 1 else 0)
  {
    hide ConstructedInv, Measure, Registering, MayRegister, IsFresh;
    StepKeeps(s, a);
    FlagFacts(s, a);
    MeasureAfter(s, a);
  }

  lemma FlagFacts(s: State, a: Action)
    requires Inv(s) && s.destructing && Enabled(s, a, true)
    ensures !s.owner.Constructing?
    ensures forall th | th in s.busy :: !s.busy[th].MustLock?
    ensures a.Increment? ==> s.refCount != 0 && s.busy[a.th].id !in s.holder
    ensures a.DropBase? ==> BASE in s.holder && s.holder[BASE] == OWNER && OWNER !in s.busy
    ensures !a.SetFlag?
  {
    NobodyLocks(s);
    if a.Increment? {
      IncrementKeeps(s, a.th);
      assert a.th in Registering(s);
    } else if a.DropBase? {
      BaseIsHeld(s);
    }
  }

  lemma ReleaseMeasure(s: State, id: ClientId)
    requires id in s.holder && s.holder[id] !in s.busy
    ensures var r := Release(s, id, s.holder[id]);
            && |r.holder| == |s.holder| - 1
            && |Unlocking(r)| <= |Unlocking(s)| + 1
            && Registering(r) == Registering(s)
  {
    var r := Release(s, id, s.holder[id]);
    assert r.holder.Keys == s.holder.Keys - {id};
    assert Registering(r) == Registering(s);
    assert Unlocking(r) <= Unlocking(s) + {s.holder[id]};
    CardinalityBound(Unlocking(r), Unlocking(s), s.holder[id]);
  }

  lemma CardinalityBound(a: set<ThreadId>, b: set<ThreadId>, th: ThreadId)
    requires a <= b + {th}
    ensures |a| <= |b| + 1
  {
    var rest := a - {th};
    assert rest <= b;
    SubsetCardinality(rest, b);
    assert a <= rest + {th};
    assert a == if th in a then rest + {th} else rest;
  }

  lemma SubsetCardinality(a: set<ThreadId>, b: set<ThreadId>)
    requires a <= b
    ensures |a| <= |b|
  {
    assert b == a + (b - a);
  }

  function Work(actions: seq<Action>): nat {
    if actions == [] then 0 else (if IsWork(actions[0]) then 1 else 0) + Work(actions[1..])
  }

  function Increments(actions: seq<Action>): nat {
    if actions == [] then 0 else (if actions[0].Increment? then 1 else 0) + Increments(actions[1..])
  }

  /** From the moment the flag is set, no more registrations succeed than had passed the flag check,
      and the steps that make headway number at most the measure. */
  lemma {:induction false} WaitIsBounded(s: State, actions: seq<Action>)
    requires Inv(s) && s.destructing && Run(s, actions, true)
    ensures var x := Exec(s, actions, true);
            && Inv(x) && x.destructing
            && Increments(actions) + |Registering(x)| == |Registering(s)|
            && Work(actions) + Measure(x) <= Measure(s)
    decreases |actions|
  {
    hide Inv, Enabled, Step, Measure, Registering;
    if actions != [] {
      StepAfterFlag(s, actions[0]);
      WaitIsBounded(Step(s, actions[0]), actions[1..]);
    }
  }

  /** Only clients of the owner's own thread are left while it waits. */
  predicate OwnerWaitsForItself(s: State) {
    && s.owner.Waiting? && s.busy == map[] && s.holder != map[]
    && forall c | c in s.holder :: s.holder[c] == OWNER
  }

  /** While the destructor runs, some step that makes headway can be taken, unless and only unless
      the owner waits for a client of its own thread. In particular, when the last client is gone and
      the mutex unlocked, the destructor's lock succeeds. */
  lemma NoDeadlock(s: State)
    requires Inv(s) && s.destructing && !s.owner.Finished?
    ensures (exists a :: IsWork(a) && Enabled(s, a, true)) <==> !OwnerWaitsForItself(s)
    ensures s.owner.Waiting? && s.holder == map[] && s.busy == map[] ==> Enabled(s, FinalLock, true)
  {
    if s.owner.FlagSet? {
      assert IsWork(MoveBase) && Enabled(s, MoveBase, true);
    } else if s.owner.BaseMoved? {
      assert IsWork(DropBase) && Enabled(s, DropBase, true);
    } else if th :| th in s.busy {
      NobodyLocks(s);
      var a := if s.busy[th].PastCheck? then Increment(th) else Unlock(th);
      assert IsWork(a) && Enabled(s, a, true);
    } else if c :| c in s.holder && s.holder[c] != OWNER {
      assert IsWork(Drop(c)) && Enabled(s, Drop(c), true);
    } else if s.holder == map[] {
      assert Unlocking(s) == {};
      assert IsWork(FinalLock) && Enabled(s, FinalLock, true);
    } else {
      assert s.refCount > 0;
      assert OwnerWaitsForItself(s);
    }
  }

  // ---- Why registrations need a client in hand ----

  /** The instance as its constructor leaves it. */
  const BUILT := State(1, false, true, map[BASE := OWNER], map[], Running, 1, 0)

  /** The instance is gone and the thread waits for a mutex that nothing can unlock any more. */
  ghost predicate Stranded(x: State, th: ThreadId) {
    && x.owner.Finished? && th in x.busy && x.busy[th].MustLock?
    && forall a :: !Enabled(x, a, true)
  }

  /** The thread starts to register, and from then on everyone keeps to the discipline. */
  ghost predicate Strands(s: State, th: ThreadId, id: ClientId, rest: seq<Action>)
    requires Enabled(s, Check(th, id), false)
  {
    var s1 := Step(s, Check(th, id));
    Run(s1, rest, true) && Stranded(Exec(s1, rest, true), th)
  }

  /** A thread other than the owner's that starts to register can be left waiting for ever exactly when
      it holds no client and the destructor has not started. */
  lemma RegistrationNeedsAClient(s: State, th: ThreadId, id: ClientId)
    requires Inv(s) && !s.owner.Constructing? && !s.owner.Finished?
    requires th != OWNER && th !in s.busy && IsFresh(s, id) && id != BASE
    ensures Enabled(s, Check(th, id), false)
    ensures (exists rest :: Strands(s, th, id, rest)) <==> s.owner.Running? && !Holds(s, th)
  {
    hide ConstructedInv, ConstructingInv, Run, Exec;
    if s.owner.Running? && !Holds(s, th) {
      var rest := StrandingRun(s, th, id);
      assert Strands(s, th, id, rest);
    } else {
      var s1 := Step(s, Check(th, id));
      assert Inv(s1) by { RegistersSafely(s, th, id); }
      forall rest | Run(s1, rest, true) ensures !Stranded(Exec(s1, rest, true), th) {
        RunKeeps(s1, rest);
        if Exec(s1, rest, true).owner.Finished? {
          FinishedMeansAlone(Exec(s1, rest, true));
        }
      }
    }
  }

  lemma RegistersSafely(s: State, th: ThreadId, id: ClientId)
    requires Inv(s) && !s.owner.Constructing? && Enabled(s, Check(th, id), false) && th != OWNER
    requires Holds(s, th) || !s.owner.Running?
    ensures Inv(Step(s, Check(th, id)))
  {
    if Holds(s, th) {
      StepKeeps(s, Check(th, id));
    }
  }

  lemma Link(s: State, a: Action, s': State, rest: seq<Action>, x: State)
    requires Enabled(s, a, true) && Enabled(s, a, false) && Step(s, a) == s'
    requires Run(s', rest, true) && Exec(s', rest, true) == x
    ensures Run(s, [a] + rest, true) && Exec(s, [a] + rest, true) == x
  {
    assert ([a] + rest)[1..] == rest;
  }

  lemma {:induction false} RunThen(s: State, a: seq<Action>, b: seq<Action>)
    requires Run(s, a, true) && Run(Exec(s, a, true), b, true)
    ensures Run(s, a + b, true) && Exec(s, a + b, true) == Exec(Exec(s, a, true), b, true)
    decreases |a|
  {
    hide Enabled, Step;
    if a == [] {
      assert a + b == b;
    } else {
      assert (a + b)[0] == a[0] && (a + b)[1..] == a[1..] + b;
      RunThen(Step(s, a[0]), a[1..], b);
    }
  }

  /** The others finish, the owner destroys the instance, and the thread goes on. */
  lemma StrandingRun(s: State, th: ThreadId, id: ClientId) returns (rest: seq<Action>)
    requires Inv(s) && s.owner.Running? && th != OWNER && th !in s.busy && !Holds(s, th)
    requires IsFresh(s, id) && id != BASE
    ensures Strands(s, th, id, rest)
  {
    var s1 := Step(s, Check(th, id));
    assert Without(s1, th) == s;
    var leave := OthersLeave(s1, th, id);
    var destroy := DestructionStrands(th, id);
    hide Run, Exec, Step, Enabled, Inv;
    RunThen(s1, leave, destroy);
    rest := leave + destroy;
  }

  function Without(s: State, th: ThreadId): State {
    s.(busy := s.busy - {th})
  }

  /** A thread without a client is past the flag check; all else is as it should be. */
  predicate IsAside(s: State, th: ThreadId, id: ClientId) {
    && th != OWNER && id != BASE && s.owner.Running?
    && th in s.busy && s.busy[th] == PastCheck(id) && !Holds(s, th)
    && id !in s.holder
    && (forall u | u in s.busy && u != th && s.busy[u].PastCheck? :: s.busy[u].id != id)
    && Inv(Without(s, th))
  }

  /** All other threads can finish what they do and drop their clients. */
  lemma OthersLeave(s: State, th: ThreadId, id: ClientId) returns (actions: seq<Action>)
    requires IsAside(s, th, id)
    ensures Run(s, actions, true) && Exec(s, actions, true) == BUILT.(busy := map[th := PastCheck(id)])
    decreases Measure(Without(s, th))
  {
    if exists u :: u in s.busy && u != th {
      var u :| u in s.busy && u != th;
      OneRegisters(s, th, id, u);
      var rest := OthersLeave(Step(s, Increment(u)), th, id);
      Link(s, Increment(u), Step(s, Increment(u)), rest, BUILT.(busy := map[th := PastCheck(id)]));
      actions := [Increment(u)] + rest;
    } else if exists c :: c in s.holder && c != BASE {
      var c :| c in s.holder && c != BASE;
      OneDrops(s, th, id, c);
      var rest := OthersLeave(Step(s, Drop(c)), th, id);
      Link(s, Drop(c), Step(s, Drop(c)), rest, BUILT.(busy := map[th := PastCheck(id)]));
      actions := [Drop(c)] + rest;
    } else {
      NobodyElse(s, th, id);
      actions := [];
    }
  }

  lemma WhileRunning(s: State)
    requires Inv(s) && s.owner.Running?
    ensures forall u | u in s.busy :: s.busy[u].PastCheck? && s.busy[u].id !in s.holder
    ensures s.refCount == |s.holder| && BASE in s.holder && s.holder[BASE] == OWNER
    ensures s.refCount > 0 && s.locked && !s.destructing && s.locks == 1 && s.unlocks == 0
  {
    NobodyLocks(s);
    assert s.refCount > 0;
    assert Unlocking(s) == {};
    forall u | u in s.busy ensures s.busy[u].PastCheck? && s.busy[u].id !in s.holder {
      assert u !in Unlocking(s) && (s.busy[u].PastCheck? ==> u in Registering(s));
    }
  }

  lemma OneRegisters(s: State, th: ThreadId, id: ClientId, u: ThreadId)
    requires IsAside(s, th, id) && u in s.busy && u != th
    ensures Enabled(s, Increment(u), true) && Enabled(s, Increment(u), false)
    ensures IsAside(Step(s, Increment(u)), th, id)
    ensures Measure(Without(Step(s, Increment(u)), th)) < Measure(Without(s, th))
  {
    hide Inv, Measure;
    var w := Without(s, th);
    WhileRunning(w);
    assert u in w.busy && w.busy[u] == s.busy[u];
    StepKeeps(w, Increment(u));
    MeasureAfter(w, Increment(u));
    var s' := Step(s, Increment(u));
    assert Without(s', th) == Step(w, Increment(u)) by { assert (s.busy - {u}) - {th} == (s.busy - {th}) - {u}; }
  }

  lemma OneDrops(s: State, th: ThreadId, id: ClientId, c: ClientId)
    requires IsAside(s, th, id) && c in s.holder && c != BASE
    requires forall u | u in s.busy :: u == th
    ensures Enabled(s, Drop(c), true) && Enabled(s, Drop(c), false)
    ensures IsAside(Step(s, Drop(c)), th, id)
    ensures Measure(Without(Step(s, Drop(c)), th)) < Measure(Without(s, th))
  {
    hide Inv, Measure;
    var w := Without(s, th);
    WhileRunning(w);
    assert w.busy == map[];
    assert s.holder[c] != th by { assert !Holds(s, th); }
    StepKeeps(w, Drop(c));
    MeasureAfter(w, Drop(c));
    assert Step(w, Drop(c)).owner == s.owner;
    WhileRunning(Step(w, Drop(c)));
    assert Without(Step(s, Drop(c)), th) == Step(w, Drop(c));
  }

  lemma NobodyElse(s: State, th: ThreadId, id: ClientId)
    requires IsAside(s, th, id)
    requires forall u | u in s.busy :: u == th
    requires forall c | c in s.holder :: c == BASE
    ensures s == BUILT.(busy := map[th := PastCheck(id)])
  {
    WhileRunning(Without(s, th));
    assert s.holder == map[BASE := OWNER] && |s.holder| == 1;
    assert s.busy == map[th := PastCheck(id)];
  }

  /** The base client is gone, and the owner has yet to unlock. */
  function BaseGone(th: ThreadId, id: ClientId): State {
    State(0, true, true, map[], map[OWNER := MustUnlock, th := PastCheck(id)], Waiting, 1, 0)
  }

  /** The owner destroys the instance; the thread goes on, sees a count of zero and has to lock. */
  lemma DestructionStrands(th: ThreadId, id: ClientId) returns (actions: seq<Action>)
    requires th != OWNER
    ensures var s := BUILT.(busy := map[th := PastCheck(id)]);
            Run(s, actions, true) && Stranded(Exec(s, actions, true), th)
  {
    var s0 := BUILT.(busy := map[th := PastCheck(id)]);
    var s1 := s0.(destructing := true, owner := FlagSet);
    var s2 := s1.(owner := BaseMoved);
    var last := BaseGoneStrands(th, id);
    hide Run, Exec, Stranded;
    var x := Exec(BaseGone(th, id), last, true);
    assert s2.holder - {BASE} == map[];
    Link(s2, DropBase, BaseGone(th, id), last, x);
    Link(s1, MoveBase, s2, [DropBase] + last, x);
    Link(s0, SetFlag, s1, [MoveBase] + ([DropBase] + last), x);
    actions := [SetFlag] + ([MoveBase] + ([DropBase] + last));
  }

  lemma BaseGoneStrands(th: ThreadId, id: ClientId) returns (actions: seq<Action>)
    requires th != OWNER
    ensures Run(BaseGone(th, id), actions, true) && Stranded(Exec(BaseGone(th, id), actions, true), th)
  {
    var s4 := BaseGone(th, id).(locked := false, busy := map[th := PastCheck(id)], unlocks := 1);
    var s5 := s4.(locked := true, owner := Finished);
    var x := s5.(refCount := 1, busy := map[th := MustLock(id)]);
    assert BaseGone(th, id).busy - {OWNER} == s4.busy;
    NothingToDo(x, th);
    Link(s5, Increment(th), x, [], x);
    hide Run, Exec, Stranded;
    Link(s4, FinalLock, s5, [Increment(th)] + [], x);
    Link(BaseGone(th, id), Unlock(OWNER), s4, [FinalLock] + ([Increment(th)] + []), x);
    actions := [Unlock(OWNER)] + ([FinalLock] + ([Increment(th)] + []));
  }

  lemma NothingToDo(x: State, th: ThreadId)
    requires x.owner.Finished? && x.locked && x.holder == map[]
    requires th in x.busy && x.busy[th].MustLock? && x.busy.Keys == {th}
    ensures Stranded(x, th)
  {
  }

  // ---- src/client_threads_respecter.h ----

  /** How the code that a client runs ends. */
  datatype ClientCode = Returns | ThrowsAlreadyInTearDown | ThrowsOther

  /** The object. Its atomic operations are the machine's steps; who is where in the protocol is known
      only to the threads, so it is ghost here. */
  class ClientThreadsRespecter {
    var refCount: int
    var destructing: bool
    var mutexLocked: bool
    ghost var holder: map<ClientId, ThreadId>
    ghost var busy: map<ThreadId, Busy>
    ghost var owner: Owner
    ghost var locks: nat
    ghost var unlocks: nat

    ghost function View(): State
      reads this
    {
      State(refCount, destructing, mutexLocked, holder, busy, owner, locks, unlocks)
    }

    constructor ()
      ensures View() == BUILT
    {
      refCount, destructing, mutexLocked := 0, false, false;
      holder, busy, owner, locks, unlocks := map[], map[], Constructing, 0, 0;
      new;
      busy := map[OWNER := PastCheck(BASE)];
      var sawZero := FetchIncrement(OWNER);
      if sawZero {
        LockMutex(OWNER);
      }
    }

    method CheckFlag(ghost th: ThreadId, ghost id: ClientId) returns (tearingDown: bool)
      requires Enabled(View(), Check(th, id), false)
      modifies this`busy
      ensures tearingDown == destructing
      ensures View() == Step(old(View()), Check(th, id))
    {
      tearingDown := destructing;
      if !tearingDown {
        busy := busy[th := PastCheck(id)];
      }
    }

    method FetchIncrement(ghost th: ThreadId) returns (sawZero: bool)
      requires Enabled(View(), Increment(th), false)
      modifies this
      ensures sawZero == (old(refCount) == 0)
      ensures View() == Step(old(View()), Increment(th))
    {
      sawZero := refCount == 0;
      refCount := refCount + 1;
      ghost var id := busy[th].id;
      if sawZero {
        busy := busy[th := MustLock(id)];
      } else {
        busy, holder := busy - {th}, holder[id := th];
      }
    }

    method LockMutex(ghost th: ThreadId)
      requires Enabled(View(), Lock(th), false)
      modifies this
      ensures View() == Step(old(View()), Lock(th))
    {
      mutexLocked := true;
      holder := holder[busy[th].id := th];
      busy, locks := busy - {th}, locks + 1;
      owner := if owner.Constructing? then Running else owner;
    }

    /** The decrement of a client's destructor. */
    method FetchDecrement(ghost id: ClientId) returns (reachedZero: bool)
      requires Enabled(View(), Drop(id), false)
      modifies this
      ensures reachedZero == (refCount == 0)
      ensures View() == Step(old(View()), Drop(id))
    {
      refCount := refCount - 1;
      reachedZero := refCount == 0;
      ghost var th := holder[id];
      holder := holder - {id};
      if reachedZero {
        busy := busy[th := MustUnlock];
      }
    }

    method UnlockMutex(ghost th: ThreadId)
      requires Enabled(View(), Unlock(th), false)
      modifies this
      ensures View() == Step(old(View()), Unlock(th))
    {
      mutexLocked := false;
      busy, unlocks := busy - {th}, unlocks + 1;
    }

    /** A registration that no other thread interleaves with: refused during teardown, and otherwise
        one more client with one more count, without ever touching the mutex. */
    method RegisterScopedClient(ghost th: ThreadId, ghost id: ClientId) returns (refused: bool)
      requires Inv(View()) && !owner.Constructing? && Enabled(View(), Check(th, id), true)
      modifies this
      ensures Inv(View())
      ensures refused == old(destructing)
      ensures View() == if refused then old(View())
                        else old(View()).(refCount := old(refCount) + 1, holder := old(holder)[id := th])
    {
      CheckKeeps(View(), th, id);
      refused := CheckFlag(th, id);
      if refused { return; }
      IncrementKeeps(View(), th);
      StepKeeps(View(), Increment(th));
      var sawZero := FetchIncrement(th);
      if sawZero {
        // the lock of the original: only the base client's registration comes here
        assert false;
      }
      assert busy == old(busy);
    }

    /** A client's destructor that no other thread interleaves with: the last one unlocks. */
    method DestroyClient(ghost id: ClientId)
      requires Inv(View()) && !owner.Constructing? && Enabled(View(), Drop(id), true)
      modifies this
      ensures Inv(View())
      ensures refCount == old(refCount) - 1 && holder == old(holder) - {id} && busy == old(busy)
      ensures destructing == old(destructing) && owner == old(owner) && locks == old(locks)
      ensures old(refCount) == 1 ==> !mutexLocked && unlocks == old(unlocks) + 1
      ensures old(refCount) != 1 ==> mutexLocked == old(mutexLocked) && unlocks == old(unlocks)
    {
      ghost var th := holder[id];
      StepKeeps(View(), Drop(id));
      var reachedZero := FetchDecrement(id);
      if reachedZero {
        StepKeeps(View(), Unlock(th));
        UnlockMutex(th);
        assert busy == old(busy);
      }
    }

    /** Runs code with a client that is destroyed when the code ends. False is meant to say that the code
        did not run, but the exception of a refused registration is also caught when the code itself
        throws it. Any other exception of the code goes on to the caller, as None. */
    method RunClientCode(ghost th: ThreadId, ghost id: ClientId, code: ClientCode)
      returns (r: Option<bool>, ran: bool)
      requires Inv(View()) && !owner.Constructing? && Enabled(View(), Check(th, id), true)
      modifies this
      ensures View() == old(View())
      ensures ran <==> !old(destructing)
      ensures r == Some(false) <==> old(destructing) || code.ThrowsAlreadyInTearDown?
      ensures r == Some(true) <==> ran && code.Returns?
    {
      var refused := RegisterScopedClient(th, id);
      if refused {
        return Some(false), false;
      }
      assert old(owner).Running?;
      WhileRunning(old(View()));
      DestroyClient(id);
      assert holder == old(holder);
      return match code
             case Returns => Some(true)
             case ThrowsAlreadyInTearDown => Some(false)
             case ThrowsOther => None, true;
    }
  }
}
