/** The worker thread of an asynchronous listener, interleaved with everything else that runs. One
    step is one call on its private listener, one read of the terminating flag, or the increment of
    the cycle counter. */
module AsyncListener {
  import opened Common
  import opened Lex
  import opened OrderKeys
  import opened Storage
  import opened Publisher
  import opened Listener
  import opened System
  import opened Theorems

  /** Where the thread function is. */
  datatype Pc = Outer | Inner | AskReachedEnd | AskHasData | Process | Advance | Bump | Exited

  /** The handed pairs are history: what the processor was called with. */
  datatype Worker = Worker(
    t: Traits,
    id: nat,
    sys: Sys,
    pc: Pc,
    cycles: nat,
    terminating: bool,
    handed: seq<(OrderKey, Value)>)
  {
    function Ctx(): Context {
      sys.Ctx(t)
    }

    function L(): ListenerState
      requires Has(sys, t, id)
    {
      sys.streams[t].listeners[id]
    }

    /** Everything stored in the stream. */
    function Stored(): set<Key> {
      Ctx().DataKeys(sys.store)
    }
  }

  /** Others act, or the thread takes its next step, or the destructor asks it to stop. */
  datatype Event = Other(action: Action) | Tick | Terminate

  // ---- Steps ----

  function CallAt(pc: Pc): Option<Call> {
    match pc
    case AskReachedEnd => Some(ReachedEnd)
    case AskHasData => Some(HasData)
    case Process => Some(ProcessEntry)
    case Advance => Some(AdvanceToNextEntry)
    case _ => None
  }

  predicate Possible(w: Worker, e: Event) {
    match e
    case Other(a) => Allowed(w.sys, a) && LeavesAlone(a, w.t, w.id)
    case Terminate => true
    case Tick =>
      && Has(w.sys, w.t, w.id)
      && !w.pc.Exited?
      && (CallAt(w.pc).Some? ==> Allowed(w.sys, On(w.t, w.id, CallAt(w.pc).value)))
  }

  /** The pair that ProcessEntrySync hands over, unless it throws. */
  function HandedOver(c: Context, store: Store, l: ListenerState): seq<(OrderKey, Value)> {
    if HasDataSpec(c, store, l).0 && ReadableAtCursor(c, store, HasDataSpec(c, store, l).1) then
      match ProcessSpec(c, store, l, true).0
      case Ok(Some(pair)) => [pair]
      case _ => []
    else []
  }

  function TickStep(w: Worker): Worker
    requires Possible(w, Tick)
  {
    var c, store, l := w.Ctx(), w.sys.store, w.L();
    match w.pc
    case Outer => w.(pc := if w.terminating then Exited else Inner)
    case Inner => w.(pc := if w.terminating then Bump else AskReachedEnd)
    case AskReachedEnd =>
      w.(sys := Apply(w.sys, On(w.t, w.id, ReachedEnd)),
         pc := if ReachedEndSpec(c, store, l).0 then Bump else AskHasData)
    case AskHasData =>
      w.(sys := Apply(w.sys, On(w.t, w.id, HasData)),
         pc := if HasDataSpec(c, store, l).0 then Process else Bump)
    case Process =>
      w.(sys := Apply(w.sys, On(w.t, w.id, ProcessEntry)),
         handed := w.handed + HandedOver(c, store, l),
         pc := Advance)
    case Advance => w.(sys := Apply(w.sys, On(w.t, w.id, AdvanceToNextEntry)), pc := Inner)
    case Bump => w.(cycles := w.cycles + 1, pc := Outer)
  }

  function StepOf(w: Worker, e: Event): Worker
    requires Possible(w, e)
  {
    match e
    case Other(a) => w.(sys := Apply(w.sys, a))
    case Terminate => w.(terminating := true)
    case Tick => TickStep(w)
  }

  predicate Runs(w: Worker, events: seq<Event>)
    decreases |events|
  {
    events == [] || (Possible(w, events[0]) && Runs(StepOf(w, events[0]), events[1..]))
  }

  function After(w: Worker, events: seq<Event>): Worker
    requires Runs(w, events)
    decreases |events|
  {
    if events == [] then w else After(StepOf(w, events[0]), events[1..])
  }

  // ---- What every state of the worker keeps ----

  predicate HandedAre(c: Context, store: Store, handed: seq<(OrderKey, Value)>, keys: seq<Key>) {
    && |handed| == |keys|
    && forall i | 0 <= i < |keys| ::
         && keys[i] in c.DataKeys(store) && IsDataKey(c.cv, c.traits, keys[i])
         && handed[i] == EntryAt(c.cv, c.traits, store, keys[i])
  }

  /** The thread's own listener: from the start of the stream, without an end. */
  predicate IsFull(c: Context, l: ListenerState) {
    l.begin == ComposeStorageKey(c.cv, c.traits, OrderKey(0, 0)) && l.endKey.None? && !l.reachedEnd
  }

  /** The iterator is there and not done. */
  predicate IsStanding(l: ListenerState) {
    l.iter.Some? && !l.iter.value.Done()
  }

  /** The key under the iterator. */
  function Current(l: ListenerState): seq<Key> {
    if IsStanding(l) then [l.iter.value.at.value] else []
  }

  predicate WorkerInv(w: Worker) {
    && Inv(w.sys) && Has(w.sys, w.t, w.id)
    && IsFull(w.Ctx(), w.L())
    && (w.pc.AskHasData? ==> !w.L().IsStale())
    && (w.pc.Process? || w.pc.Advance? ==> IsStanding(w.L()))
    && HandedAre(w.Ctx(), w.sys.store, w.handed,
                 w.L().delivered + if w.pc.Advance? then Current(w.L()) else [])
  }

  // ---- A full listener ----

  /** It has delivered exactly the stored entries that are not ahead of it. */
  lemma DeliveredOrAhead(c: Context, store: Store, l: ListenerState)
    requires ListenerInv(c, store, l) && IsFull(c, l)
    requires forall k | k in c.DataKeys(store) :: IsDataKey(c.cv, c.traits, k)
    ensures forall k :: k in l.delivered <==> k in c.DataKeys(store) && k !in Undelivered(c, store, l)
  {
    hide ComposeStorageKey, DecomposeStorageKey, InDataRange;
    SortedIsAscendingListing(Passed(c, store, l));
    forall k | k in c.DataKeys(store) ensures !Less(k, l.begin) {
      ComposeOrder(c.cv, c.traits, DecomposeStorageKey(c.cv, c.traits, k).value, OrderKey(0, 0));
    }
    hide IsDataKey;
    Order();
  }

  lemma FullHasData(c: Context, store: Store, l: ListenerState)
    requires ListenerInv(c, store, l) && IsFull(c, l)
    ensures var (has, l') := HasDataSpec(c, store, l);
            && IsFull(c, l') && l'.delivered == l.delivered
            && (has <==> !l.IsStale() && Undelivered(c, store, l) != {})
            && (has <==> IsStanding(l'))
            && (!has ==> l'.iter.None?)
            && (has ==> Undelivered(c, store, l) != {}
                        && Current(l') == [Least(Undelivered(c, store, l))])
            && (IsStanding(l) ==> has && l' == l)
  {
    HasDataExact(c, store, l);
    LeastUnique(Undelivered(c, store, l));
  }

  lemma FullHandsOver(c: Context, store: Store, l: ListenerState)
    requires ListenerInv(c, store, l) && IsFull(c, l) && IsStanding(l)
    requires forall k | k in c.DataKeys(store) :: IsDataKey(c.cv, c.traits, k)
    ensures var m := Current(l)[0];
            && m in c.DataKeys(store)
            && HandedOver(c, store, l) == [EntryAt(c.cv, c.traits, store, m)]
  {
    hide ListenerInv, ComposeStorageKey, DecomposeStorageKey, InDataRange, HasDataSpec;
    FullHasData(c, store, l);
    ProcessExact(c, store, l, true);
  }

  lemma FullAdvance(c: Context, store: Store, l: ListenerState)
    requires ListenerInv(c, store, l) && IsFull(c, l) && IsStanding(l)
    ensures var l' := AdvanceSpec(c, store, l).1;
            IsFull(c, l') && l'.delivered == l.delivered + Current(l)
  {
    hide ListenerInv, ComposeStorageKey, InDataRange;
    FullHasData(c, store, l);
    AdvanceExact(c, store, l);
  }

  // ---- Every step keeps the invariant ----

  lemma WorkerFacts(w: Worker)
    requires WorkerInv(w)
    ensures ListenerInv(w.Ctx(), w.sys.store, w.L())
    ensures forall k | k in w.Stored() :: IsDataKey(w.sys.cv, w.t, k)
  {
    hide ListenerInv, ComposeStorageKey, HeadStorageKey, InDataRange, IsDataKey, HandedAre, IsFull;
    assert StreamInv(w.Ctx(), w.sys.store, w.sys.streams[w.t]);
    LogIsListing(w.Ctx(), w.sys.store, w.sys.streams[w.t]);
  }

  /** The listener, the store and the listener's context after one of the thread's calls. */
  lemma CallEffect(s: Sys, t: Traits, id: nat, call: Call)
    requires Allowed(s, On(t, id, call))
    ensures var s' := Apply(s, On(t, id, call));
            && Has(s', t, id) && s'.store == s.store && s'.Ctx(t) == s.Ctx(t)
            && s'.streams[t].listeners[id] == CallSpec(s.Ctx(t), s.store, s.streams[t].listeners[id], call)
  {
    hide CallSpec;
  }

  lemma TickKeeps(w: Worker)
    requires WorkerInv(w) && Possible(w, Tick)
    ensures WorkerInv(TickStep(w))
  {
    hide Inv, ListenerInv, IsFull, Undelivered, HasDataSpec, AdvanceSpec, IsDataKey, EntryAt, Apply, Allowed,
      HandedOver, Context.DataKeys;
    WorkerFacts(w);
    var c, store, l := w.Ctx(), w.sys.store, w.L();
    FullHasData(c, store, l);
    assert l.delivered + [] == l.delivered;
    if CallAt(w.pc).Some? {
      StepKeeps(w.sys, On(w.t, w.id, CallAt(w.pc).value));
      CallEffect(w.sys, w.t, w.id, CallAt(w.pc).value);
      if w.pc.Process? {
        FullHandsOver(c, store, l);
      } else if w.pc.Advance? {
        FullAdvance(c, store, l);
        var l' := AdvanceSpec(c, store, l).1;
        assert l'.delivered + [] == l'.delivered;
      }
    }
  }

  lemma OtherKeeps(w: Worker, a: Action)
    requires WorkerInv(w) && Possible(w, Other(a))
    ensures WorkerInv(StepOf(w, Other(a)))
    ensures w.Stored() <= StepOf(w, Other(a)).Stored()
    ensures StepOf(w, Other(a)).L() == w.L()
  {
    hide Inv, ListenerInv, IsFull, IsDataKey, Apply, Allowed, InDataRange;
    StepKeeps(w.sys, a);
    StepAroundListener(w.sys, a, w.t, w.id);
    StepAppendsOnly(w.sys, a, w.t);
  }

  lemma EventKeeps(w: Worker, e: Event)
    requires WorkerInv(w) && Possible(w, e)
    ensures WorkerInv(StepOf(w, e))
  {
    hide WorkerInv, TickStep;
    match e
    case Other(a) => OtherKeeps(w, a);
    case Tick => TickKeeps(w);
    case Terminate => TerminateKeeps(w);
  }

  lemma TerminateKeeps(w: Worker)
    requires WorkerInv(w)
    ensures WorkerInv(w.(terminating := true))
  {
    hide Inv, IsFull, HandedAre;
  }

  lemma {:induction false} RunsKeep(w: Worker, events: seq<Event>)
    requires WorkerInv(w) && Runs(w, events)
    ensures WorkerInv(After(w, events))
    decreases |events|
  {
    hide WorkerInv, StepOf, Possible;
    if events != [] {
      EventKeeps(w, events[0]);
      RunsKeep(StepOf(w, events[0]), events[1..]);
    }
  }

  // ---- Draining ----

  predicate AllDelivered(w: Worker, ks: set<Key>)
    requires Has(w.sys, w.t, w.id)
  {
    forall k | k in ks :: k in w.L().delivered
  }

  /** The last HasData of a pass answers false only when everything stored then has been delivered:
      asking ReachedEnd first has dropped a stale iterator. */
  lemma LastHasDataMeansDrained(w: Worker)
    requires WorkerInv(w) && Possible(w, Tick) && w.pc.AskHasData?
    requires TickStep(w).pc.Bump?
    ensures Has(TickStep(w).sys, w.t, w.id) && AllDelivered(TickStep(w), w.Stored())
    ensures TickStep(w).Stored() == w.Stored()
  {
    hide Inv, ListenerInv, IsFull, Undelivered, HasDataSpec, IsDataKey, Apply, Allowed, HandedAre;
    WorkerFacts(w);
    FullHasData(w.Ctx(), w.sys.store, w.L());
    CallEffect(w.sys, w.t, w.id, HasData);
    DeliveredOrAhead(w.Ctx(), w.sys.store, w.L());
  }

  /** Once the counter has passed n, or is at n with the increment due, these keys are delivered. */
  predicate DrainedBeyond(w: Worker, ks: set<Key>, n: nat) {
    && Has(w.sys, w.t, w.id)
    && ks <= w.Stored()
    && (!w.terminating && (w.cycles > n || (w.cycles == n && w.pc.Bump?)) ==> AllDelivered(w, ks))
  }

  lemma EventKeepsDrained(w: Worker, e: Event, ks: set<Key>, n: nat)
    requires WorkerInv(w) && Possible(w, e) && DrainedBeyond(w, ks, n)
    ensures DrainedBeyond(StepOf(w, e), ks, n)
  {
    hide Inv, ListenerInv, IsFull, Undelivered, HasDataSpec, AdvanceSpec, IsDataKey, Apply, Allowed, HandedAre,
      HandedOver, Context.DataKeys;
    if e.Other? {
      OtherKeeps(w, e.action);
    } else if e.Tick? {
      WorkerFacts(w);
      var c, store, l := w.Ctx(), w.sys.store, w.L();
      FullHasData(c, store, l);
      if CallAt(w.pc).Some? {
        CallEffect(w.sys, w.t, w.id, CallAt(w.pc).value);
        if w.pc.Advance? {
          FullAdvance(c, store, l);
        } else if w.pc.AskHasData? && TickStep(w).pc.Bump? {
          LastHasDataMeansDrained(w);
        } else if w.pc.AskReachedEnd? {
          NeverAtTheEnd(c, store, l);
        }
      }
    }
  }

  lemma NeverAtTheEnd(c: Context, store: Store, l: ListenerState)
    requires IsFull(c, l)
    ensures !ReachedEndSpec(c, store, l).0
  {
    hide ComposeStorageKey, CurrentIterator;
  }

  lemma {:induction false} RunKeepsDrained(w: Worker, events: seq<Event>, ks: set<Key>, n: nat)
    requires WorkerInv(w) && Runs(w, events) && DrainedBeyond(w, ks, n)
    ensures WorkerInv(After(w, events)) && DrainedBeyond(After(w, events), ks, n)
    decreases |events|
  {
    hide WorkerInv, StepOf, Possible, DrainedBeyond;
    if events != [] {
      EventKeeps(w, events[0]);
      EventKeepsDrained(w, events[0], ks, n);
      RunKeepsDrained(StepOf(w, events[0]), events[1..], ks, n);
    }
  }

  /** The processor was called with every one of these entries. */
  predicate AllHanded(w: Worker, ks: set<Key>) {
    forall k | k in ks ::
      && k in w.sys.store && IsDataKey(w.sys.cv, w.t, k)
      && EntryAt(w.sys.cv, w.t, w.sys.store, k) in w.handed
  }

  lemma DeliveredWereHanded(w: Worker, ks: set<Key>)
    requires WorkerInv(w) && AllDelivered(w, ks)
    ensures AllHanded(w, ks)
  {
    hide Inv, IsFull, IsDataKey, EntryAt;
    forall k | k in ks
      ensures k in w.sys.store && IsDataKey(w.sys.cv, w.t, k) && EntryAt(w.sys.cv, w.t, w.sys.store, k) in w.handed {
      var i :| 0 <= i < |w.L().delivered| && w.L().delivered[i] == k;
      var keys := w.L().delivered + if w.pc.Advance? then Current(w.L()) else [];
      assert keys[i] == k && w.handed[i] == EntryAt(w.sys.cv, w.t, w.sys.store, keys[i]);
    }
  }

  /** Everything stored when the counter is read has been handed to the processor once the counter
      has advanced by two, unless the thread was asked to stop. */
  lemma TwoCyclesSuffice(w: Worker, events: seq<Event>)
    requires WorkerInv(w) && Runs(w, events)
    requires var x := After(w, events); x.cycles >= w.cycles + 2 && !x.terminating
    ensures AllHanded(After(w, events), w.Stored())
  {
    hide WorkerInv, AllHanded;
    assert Has(w.sys, w.t, w.id) by { WorkerHas(w); }
    RunKeepsDrained(w, events, w.Stored(), w.cycles + 1);
    DeliveredWereHanded(After(w, events), w.Stored());
  }

  lemma WorkerHas(w: Worker)
    requires WorkerInv(w)
    ensures Has(w.sys, w.t, w.id)
  {
    hide Inv, HandedAre, IsFull;
  }

  /** One advance suffices when the counter is read at any point of a pass but the one between its
      last HasData and its increment, or when nothing was missing there. */
  lemma OneCycleSuffices(w: Worker, events: seq<Event>)
    requires WorkerInv(w) && Runs(w, events)
    requires var x := After(w, events); x.cycles > w.cycles && !x.terminating
    requires !w.pc.Bump? || AllDelivered(w, w.Stored())
    ensures AllHanded(After(w, events), w.Stored())
  {
    hide WorkerInv, AllHanded, AllDelivered;
    WorkerHas(w);
    RunKeepsDrained(w, events, w.Stored(), w.cycles);
    DeliveredWereHanded(After(w, events), w.Stored());
  }

  /** And in every other case it does not: the very next step of the thread advances the counter, and
      what was missing has still not been handed over. */
  lemma OneCycleFails(w: Worker)
    requires WorkerInv(w) && w.pc.Bump? && !AllDelivered(w, w.Stored())
    ensures Possible(w, Tick)
    ensures var x := After(w, [Tick]); x.cycles == w.cycles + 1 && !AllHanded(x, w.Stored())
  {
    hide Inv, IsFull, ComposeStorageKey, DecomposeStorageKey;
    assert [Tick][1..] == [] && After(w, [Tick]) == StepOf(w, Tick);
    var k :| k in w.Stored() && k !in w.L().delivered;
    WorkerFacts(w);
    assert w.L().delivered + [] == w.L().delivered;
    assert EntryAt(w.sys.cv, w.t, w.sys.store, k) !in w.handed;
  }

  // ---- The case where one advance is not enough does occur ----

  lemma {:induction false} RunsConcat(w: Worker, a: seq<Event>, b: seq<Event>)
    requires Runs(w, a) && Runs(After(w, a), b)
    ensures Runs(w, a + b) && After(w, a + b) == After(After(w, a), b)
    decreases |a|
  {
    hide StepOf, Possible;
    if a == [] {
      assert a + b == b;
    } else {
      assert (a + b)[0] == a[0] && (a + b)[1..] == a[1..] + b;
      RunsConcat(StepOf(w, a[0]), a[1..], b);
    }
  }

  function Others(actions: seq<Action>): (events: seq<Event>)
    ensures |events| == |actions|
  {
    if actions == [] then [] else [Other(actions[0])] + Others(actions[1..])
  }

  lemma {:induction false} OthersRun(w: Worker, actions: seq<Action>)
    requires Run(w.sys, actions)
    requires forall a | a in actions :: LeavesAlone(a, w.t, w.id)
    ensures Runs(w, Others(actions))
    ensures After(w, Others(actions)) == w.(sys := Exec(w.sys, actions))
    decreases |actions|
  {
    hide Allowed, Apply, LeavesAlone;
    if actions != [] {
      assert Others(actions)[1..] == Others(actions[1..]);
      OthersRun(w.(sys := Apply(w.sys, actions[0])), actions[1..]);
    }
  }

  /** A pass over a stream with nothing to deliver. */
  lemma IdlePass(w: Worker)
    requires WorkerInv(w) && w.pc.Outer? && !w.terminating && w.sys.streams[w.t].phase.Idle?
    requires AllDelivered(w, w.Stored())
    ensures Runs(w, [Tick, Tick, Tick, Tick])
    ensures var x := After(w, [Tick, Tick, Tick, Tick]);
            && x.pc.Bump? && x.cycles == w.cycles && x.terminating == w.terminating
            && x.t == w.t && x.id == w.id
            && x.sys.store == w.sys.store && x.sys.cv == w.sys.cv && x.sys.backend == w.sys.backend
            && Has(x.sys, x.t, x.id) && x.L().delivered == w.L().delivered
            && x.sys.streams[x.t] == w.sys.streams[w.t].(listeners := x.sys.streams[x.t].listeners)
  {
    hide Inv, ListenerInv, IsFull, Undelivered, HasDataSpec, IsDataKey, HandedAre, WorkerInv;
    WorkerHas(w);
    var w1 := StepOf(w, Tick);
    var w2 := StepOf(w1, Tick);
    EventKeeps(w, Tick);
    EventKeeps(w1, Tick);
    EmptyHasData(w2);
    assert Possible(w2, Tick);
    EventKeeps(w2, Tick);
    var w3 := StepOf(w2, Tick);
    assert w3.pc.AskHasData?;
    EmptyHasData(w3);
    var w4 := StepOf(w3, Tick);
    assert w4.pc.Bump?;
    assert [Tick, Tick, Tick, Tick][1..] == [Tick, Tick, Tick] && [Tick, Tick, Tick][1..] == [Tick, Tick];
    assert [Tick, Tick][1..] == [Tick] && [Tick][1..] == [];
    assert Runs(w4, []) && After(w4, []) == w4;
    assert Runs(w3, [Tick]) && After(w3, [Tick]) == w4;
    assert Runs(w2, [Tick, Tick]) && After(w2, [Tick, Tick]) == w4;
    assert Runs(w1, [Tick, Tick, Tick]) && After(w1, [Tick, Tick, Tick]) == w4;
  }

  /** With everything delivered, the thread's calls answer false and deliver nothing. */
  lemma EmptyHasData(w: Worker)
    requires WorkerInv(w) && AllDelivered(w, w.Stored())
    ensures var (has, l') := HasDataSpec(w.Ctx(), w.sys.store, w.L());
            !has && !l'.reachedEnd && l'.delivered == w.L().delivered
  {
    hide Inv, ListenerInv, HasDataSpec, IsDataKey, HandedAre, ComposeStorageKey;
    WorkerFacts(w);
    DeliveredOrAhead(w.Ctx(), w.sys.store, w.L());
    FullHasData(w.Ctx(), w.sys.store, w.L());
    assert Undelivered(w.Ctx(), w.sys.store, w.L()) == {};
  }

  /** From every state in which the thread starts a pass with nothing to deliver, one entry pushed
      between the last HasData of that pass and its increment, before the counter is read, is missed
      by a wait for a single advance. */
  lemma WaitForOneCycleCanMiss(w: Worker, entry: Entry)
    requires WorkerInv(w) && w.pc.Outer? && !w.terminating
    requires AllDelivered(w, w.Stored())
    requires Allowed(w.sys, BeginPush(w.t, entry.primary, WithEntry(entry.payload)))
    requires entry.primary >= w.sys.streams[w.t].head.primary
    requires entry.payload.Some? && entry.payload.value != []
    ensures var events := [Tick, Tick, Tick, Tick] + Others(PushSteps(w.t, entry));
            && Runs(w, events)
            && var read := After(w, events);
               && Runs(read, [Tick])
               && After(read, [Tick]).cycles == read.cycles + 1
               && !After(read, [Tick]).terminating
               && !AllHanded(After(read, [Tick]), read.Stored())
  {
    hide Inv, IsFull, HandedAre, ListenerInv, AllHanded, PushSpec, ComposeStorageKey, WorkerInv, Run, Exec;
    IdlePass(w);
    RunsKeep(w, [Tick, Tick, Tick, Tick]);
    var x := After(w, [Tick, Tick, Tick, Tick]);
    assert Inv(x.sys) by { WorkerSysInv(x); }
    PushIsItsSteps(x.sys, x.t, entry);
    PushedEntryIsLast(x.sys, x.t, entry);
    OthersRun(x, PushSteps(x.t, entry));
    RunsConcat(w, [Tick, Tick, Tick, Tick], Others(PushSteps(w.t, entry)));
    var read := After(x, Others(PushSteps(x.t, entry)));
    RunsKeep(x, Others(PushSteps(x.t, entry)));
    var (_, _, head) := PushSpec(x.sys.cv, x.t, x.sys.store, x.sys.streams[x.t].head, entry);
    var key := ComposeStorageKey(x.sys.cv, x.t, head);
    LessTrichotomy(key, key);
    WorkerFacts(x);
    DeliveredAreStored(x);
    assert key in read.Stored() && key !in read.L().delivered;
    OneCycleFails(read);
    assert [Tick][1..] == [];
  }

  lemma WorkerSysInv(w: Worker)
    requires WorkerInv(w)
    ensures Inv(w.sys)
  {
    hide Inv, HandedAre, IsFull;
  }

  lemma DeliveredAreStored(w: Worker)
    requires WorkerInv(w)
    ensures forall k | k in w.L().delivered :: k in w.Stored()
  {
    hide Inv, ListenerInv, IsDataKey, HandedAre, IsFull;
    WorkerFacts(w);
    DeliveredOrAhead(w.Ctx(), w.sys.store, w.L());
  }

  /** A thread that has just started. */
  lemma NewWorkerInv(s: Sys, t: Traits, id: nat)
    requires Inv(s) && t in s.streams && id !in s.streams[t].listeners
    ensures Allowed(s, Listen(t, id, OrderKey(0, 0), None))
    ensures WorkerInv(Worker(t, id, Apply(s, Listen(t, id, OrderKey(0, 0), None)), Outer, 0, false, []))
  {
    hide Inv, ComposeStorageKey;
    StepKeeps(s, Listen(t, id, OrderKey(0, 0), None));
  }

  // ---- The thread gets on ----

  function Ticks(events: seq<Event>): nat {
    if events == [] then 0 else (if events[0].Tick? then 1 else 0) + Ticks(events[1..])
  }

  /** The thread can take its next step unless it has exited or a push holds the lock that its call
      needs; and a push that holds the lock can take its next step. */
  lemma ThreadIsNeverStuck(w: Worker)
    requires WorkerInv(w)
    ensures Possible(w, Tick) <==>
              !w.pc.Exited? && (CallAt(w.pc).Some? ==> w.sys.streams[w.t].phase.Idle?)
    ensures !w.sys.streams[w.t].phase.Idle? ==>
              Possible(w, Other(MoveHead(w.t))) || Possible(w, Other(FinishPush(w.t)))
  {
    hide Inv, IsFull, HandedAre;
  }

  /** How many steps are left of a pass in which nothing more is found. */
  function Rank(pc: Pc): nat {
    match pc
    case Exited => 0
    case Bump => 1
    case Advance => 2
    case Process => 3
    case AskHasData => 4
    case AskReachedEnd => 5
    case Inner => 6
    case Outer => 7
  }

  /** A bound on the steps to the end of this pass if nothing more is stored. */
  function StepsLeft(w: Worker): int
    requires Has(w.sys, w.t, w.id)
  {
    5 * (|w.Stored()| - |w.L().delivered|) + Rank(w.pc)
  }

  lemma DeliveredAreCounted(w: Worker)
    requires WorkerInv(w)
    ensures |w.L().delivered| <= |w.Stored()|
    ensures StepsLeft(w) >= 0
  {
    hide Inv, IsFull, HandedAre, InDataRange;
    WorkerFacts(w);
    var c, store, l := w.Ctx(), w.sys.store, w.L();
    SortedIsAscendingListing(Passed(c, store, l));
    SubsetIsSmaller(Passed(c, store, l), w.Stored());
  }

  lemma {:induction false} SubsetIsSmaller(a: set<Key>, b: set<Key>)
    requires a <= b
    ensures |a| <= |b|
    decreases |a|
  {
    if k :| k in a {
      SubsetIsSmaller(a - {k}, b - {k});
    }
  }

  lemma TickGetsOn(w: Worker)
    requires WorkerInv(w) && Possible(w, Tick)
    ensures var x := TickStep(w);
            && Has(x.sys, x.t, x.id) && x.Stored() == w.Stored()
            && StepsLeft(x) < StepsLeft(w) + 7 * (x.cycles - w.cycles)
            && w.cycles <= x.cycles
  {
    hide Inv, ListenerInv, IsFull, Undelivered, HasDataSpec, AdvanceSpec, IsDataKey, Apply, Allowed, HandedAre,
      HandedOver, Context.DataKeys;
    WorkerFacts(w);
    FullHasData(w.Ctx(), w.sys.store, w.L());
    if CallAt(w.pc).Some? {
      CallEffect(w.sys, w.t, w.id, CallAt(w.pc).value);
      if w.pc.Advance? {
        FullAdvance(w.Ctx(), w.sys.store, w.L());
      }
    }
  }

  lemma EventGetsOn(w: Worker, e: Event)
    requires WorkerInv(w) && Possible(w, e)
    ensures var x := StepOf(w, e);
            && WorkerInv(x) && w.Stored() <= x.Stored() && w.cycles <= x.cycles
            && Ticks([e]) + StepsLeft(x)
               <= StepsLeft(w) + 5 * (|x.Stored()| - |w.Stored()|) + 7 * (x.cycles - w.cycles)
  {
    hide WorkerInv, Apply, Allowed, Context.DataKeys;
    EventKeeps(w, e);
    assert [e][1..] == [];
    match e
    case Other(a) => OtherKeeps(w, a); WorkerHas(w); WorkerHas(StepOf(w, e));
    case Tick => hide TickStep, StepsLeft; TickGetsOn(w);
    case Terminate => WorkerHas(w);
  }

  /** However the thread is interleaved with the rest, all its steps are paid for: by what was left of the
      pass, five for each entry stored since, and seven for each cycle counted. */
  lemma {:induction false} EveryStepIsPaidFor(w: Worker, events: seq<Event>)
    requires WorkerInv(w) && Runs(w, events)
    ensures var x := After(w, events);
            && WorkerInv(x) && w.Stored() <= x.Stored() && w.cycles <= x.cycles
            && Ticks(events) + StepsLeft(x)
               <= StepsLeft(w) + 5 * (|x.Stored()| - |w.Stored()|) + 7 * (x.cycles - w.cycles)
    decreases |events|
  {
    hide WorkerInv, StepOf, Possible, StepsLeft, Worker.Stored;
    if events != [] {
      EventGetsOn(w, events[0]);
      assert Ticks([events[0]]) == if events[0].Tick? then 1 else 0 by { assert [events[0]][1..] == []; }
      EveryStepIsPaidFor(StepOf(w, events[0]), events[1..]);
    }
  }

  /** So the counter has advanced, and a wait for it is over, after a bounded number of the thread's steps;
      and after seven more everything stored at the start has been handed over, unless the thread was
      asked to stop. */
  lemma HandedInTime(w: Worker, events: seq<Event>)
    requires WorkerInv(w) && Runs(w, events)
    ensures var x := After(w, events);
            && WorkerInv(x)
            && (Ticks(events) > StepsLeft(w) + 5 * (|x.Stored()| - |w.Stored()|) ==> x.cycles > w.cycles)
            && (!x.terminating && Ticks(events) > StepsLeft(w) + 5 * (|x.Stored()| - |w.Stored()|) + 7 ==>
                  AllHanded(x, w.Stored()))
  {
    EveryStepIsPaidFor(w, events);
    var x := After(w, events);
    DeliveredAreCounted(x);
    hide WorkerInv, AllHanded, StepsLeft, Worker.Stored, Runs, After;
    if !x.terminating && x.cycles >= w.cycles + 2 {
      TwoCyclesSuffice(w, events);
    }
  }

  // ---- The thread stops when asked ----

  /** How many steps are left once the thread is asked to stop. */
  function StepsToExit(pc: Pc): nat {
    match pc
    case Exited => 0
    case Outer => 1
    case Bump => 2
    case Inner => 3
    case Advance => 4
    case Process => 5
    case AskHasData => 6
    case AskReachedEnd => 7
  }

  /** The entry that may still be handed over. */
  function MayHand(pc: Pc): nat {
    if StepsToExit(pc) >= 5 then 1 else 0
  }

  /** The increment that is still to come. */
  function MustCount(pc: Pc): nat {
    if StepsToExit(pc) >= 2 then 1 else 0
  }

  lemma TickTowardsExit(w: Worker)
    requires Possible(w, Tick) && w.terminating
    ensures var x := TickStep(w);
            && x.terminating && StepsToExit(x.pc) < StepsToExit(w.pc)
            && w.handed <= x.handed && |x.handed| + MayHand(x.pc) <= |w.handed| + MayHand(w.pc)
            && x.cycles + MustCount(x.pc) == w.cycles + MustCount(w.pc)
  {
    hide Apply, Allowed, HasDataSpec, ReachedEndSpec, HandedOver;
    HandsOverAtMostOne(w.Ctx(), w.sys.store, w.L());
  }

  lemma HandsOverAtMostOne(c: Context, store: Store, l: ListenerState)
    ensures |HandedOver(c, store, l)| <= 1
  {
    hide HasDataSpec, ProcessSpec;
  }

  lemma EventTowardsExit(w: Worker, e: Event)
    requires WorkerInv(w) && Possible(w, e) && w.terminating
    ensures var x := StepOf(w, e);
            && WorkerInv(x) && x.terminating
            && Ticks([e]) + StepsToExit(x.pc) <= StepsToExit(w.pc)
            && w.handed <= x.handed && |x.handed| + MayHand(x.pc) <= |w.handed| + MayHand(w.pc)
            && x.cycles + MustCount(x.pc) == w.cycles + MustCount(w.pc)
  {
    hide WorkerInv, Apply, Allowed, TickStep, StepsToExit, MayHand, MustCount;
    EventKeeps(w, e);
    assert [e][1..] == [];
    if e.Tick? {
      TickTowardsExit(w);
    }
  }

  lemma {:induction false} RunTowardsExit(w: Worker, events: seq<Event>)
    requires WorkerInv(w) && Runs(w, events) && w.terminating
    ensures var x := After(w, events);
            && x.terminating
            && Ticks(events) + StepsToExit(x.pc) <= StepsToExit(w.pc)
            && w.handed <= x.handed && |x.handed| + MayHand(x.pc) <= |w.handed| + MayHand(w.pc)
            && x.cycles + MustCount(x.pc) == w.cycles + MustCount(w.pc)
    decreases |events|
  {
    hide WorkerInv, StepOf, Possible, StepsToExit, MayHand, MustCount;
    if events != [] {
      EventTowardsExit(w, events[0]);
      assert Ticks([events[0]]) == if events[0].Tick? then 1 else 0 by { assert [events[0]][1..] == []; }
      RunTowardsExit(StepOf(w, events[0]), events[1..]);
    }
  }

  /** Once asked to stop, the thread exits after at most seven more steps of its own, which hand over at
      most one more entry and complete the cycle it is in. */
  lemma StopsWhenAsked(w: Worker, events: seq<Event>)
    requires WorkerInv(w) && Runs(StepOf(w, Terminate), events)
    ensures var x := After(StepOf(w, Terminate), events);
            && Ticks(events) <= 7 && (Ticks(events) == 7 ==> x.pc.Exited?)
            && w.handed <= x.handed && |x.handed| <= |w.handed| + 1
            && (x.pc.Exited? ==> x.cycles == w.cycles + if w.pc.Outer? || w.pc.Exited? then 0 else 1)
  {
    hide WorkerInv, Runs, After;
    TerminateKeeps(w);
    RunTowardsExit(StepOf(w, Terminate), events);
  }

  /** It never exits on its own. */
  lemma {:induction false} ExitsOnlyWhenAsked(w: Worker, events: seq<Event>)
    requires Runs(w, events) && !w.pc.Exited?
    requires After(w, events).pc.Exited?
    ensures After(w, events).terminating
    decreases |events|
  {
    if events != [] {
      var w' := StepOf(w, events[0]);
      if w'.pc.Exited? {
        assert w'.terminating;
        StaysAsked(w', events[1..]);
      } else {
        ExitsOnlyWhenAsked(w', events[1..]);
      }
    }
  }

  lemma {:induction false} StaysAsked(w: Worker, events: seq<Event>)
    requires Runs(w, events) && w.terminating
    ensures After(w, events).terminating
    decreases |events|
  {
    if events != [] {
      StaysAsked(StepOf(w, events[0]), events[1..]);
    }
  }

  // ---- The inner loop of the thread function ----

  ghost predicate IsFullReady(listener: UnsafeListener, c: Context, store: Store)
    reads listener, listener.IteratorObjects(), listener.stream.storage.Object()
  {
    && listener.Valid() && listener.Binding() == c && listener.Stored() == store
    && ListenerInv(c, store, listener.View()) && IsFull(c, listener.View())
  }

  predicate AllDataKeys(c: Context, store: Store) {
    forall k | k in c.DataKeys(store) :: IsDataKey(c.cv, c.traits, k)
  }

  lemma OneMoreHanded(c: Context, store: Store, handed: seq<(OrderKey, Value)>, done: seq<Key>, ahead: set<Key>)
    requires HandedAre(c, store, handed, done) && ahead != {} && ahead <= c.DataKeys(store)
    requires AllDataKeys(c, store)
    ensures HandedAre(c, store, handed + [EntryAt(c.cv, c.traits, store, Least(ahead))], done + [Least(ahead)])
    ensures done + Sorted(ahead) == (done + [Least(ahead)]) + Sorted(ahead - {Least(ahead)})
  {
    hide IsDataKey, EntryAt;
  }

  lemma PassStep(c: Context, store: Store, l: ListenerState)
    requires ListenerInv(c, store, l) && IsFull(c, l) && IsStanding(l) && AllDataKeys(c, store)
    ensures Undelivered(c, store, l) != {} && Undelivered(c, store, l) <= c.DataKeys(store)
    ensures var m := Least(Undelivered(c, store, l));
            && HasDataSpec(c, store, l) == (true, l)
            && ReadableAtCursor(c, store, l)
            && ProcessSpec(c, store, l, true) == (Ok(Some(EntryAt(c.cv, c.traits, store, m))), l)
            && var (r, l') := AdvanceSpec(c, store, l);
               && r.Ok? && ListenerInv(c, store, l') && IsFull(c, l')
               && l'.delivered == l.delivered + [m]
               && Undelivered(c, store, l') == Undelivered(c, store, l) - {m}
  {
    hide ListenerInv, ComposeStorageKey, DecomposeStorageKey, InDataRange;
    FullHasData(c, store, l);
    FullAdvance(c, store, l);
    AdvanceExact(c, store, l);
    ProcessExact(c, store, l, true);
  }

  /** The test of the inner loop. Asking ReachedEnd first makes HasData's answer exact. */
  method MoreToProcess(listener: UnsafeListener) returns (more: bool)
    requires IsFullReady(listener, listener.Binding(), listener.Stored())
    modifies listener
    ensures IsFullReady(listener, old(listener.Binding()), old(listener.Stored()))
    ensures fresh(listener.IteratorObjects() - old(listener.IteratorObjects()))
    ensures listener.delivered == old(listener.delivered)
    ensures var ahead := Undelivered(listener.Binding(), listener.Stored(), listener.View());
            ahead == old(Undelivered(listener.Binding(), listener.Stored(), listener.View()))
            && (more <==> ahead != {}) && (more ==> IsStanding(listener.View()))
  {
    hide ListenerInv, IsFull, Undelivered, HasDataSpec;
    ghost var c, store := listener.Binding(), listener.Stored();
    FullHasData(c, store, listener.View());
    HasDataExact(c, store, listener.View());
    SameUndelivered(c, store, listener.View());
    NeverAtTheEnd(c, store, listener.View());
    var _ := listener.ReachedEnd();
    FullHasData(c, store, listener.View());
    HasDataExact(c, store, listener.View());
    SameUndelivered(c, store, listener.View());
    more := listener.HasData();
  }

  /** The body of the inner loop. */
  method ProcessAndAdvance(listener: UnsafeListener) returns (pair: (OrderKey, Value))
    requires IsFullReady(listener, listener.Binding(), listener.Stored()) && IsStanding(listener.View())
    requires AllDataKeys(listener.Binding(), listener.Stored())
    modifies listener, listener.IteratorObjects()
    ensures IsFullReady(listener, old(listener.Binding()), old(listener.Stored()))
    ensures fresh(listener.IteratorObjects() - old(listener.IteratorObjects()))
    ensures var c, store := listener.Binding(), listener.Stored();
            var ahead := old(Undelivered(listener.Binding(), listener.Stored(), listener.View()));
            && ahead != {} && Least(ahead) in store && IsDataKey(c.cv, c.traits, Least(ahead))
            && pair == EntryAt(c.cv, c.traits, store, Least(ahead))
            && listener.delivered == old(listener.delivered) + [Least(ahead)]
            && Undelivered(c, store, listener.View()) == ahead - {Least(ahead)}
  {
    hide ListenerInv, IsFull, Undelivered, HasDataSpec, AdvanceSpec, ProcessSpec, EntryAt, IsStanding;
    ghost var c, store := listener.Binding(), listener.Stored();
    PassStep(c, store, listener.View());
    var r := listener.ProcessEntrySync(true);
    pair := r.value.value;
    var _ := listener.AdvanceToNextEntry();
  }

  /** One pass that nothing interferes with hands over every undelivered entry once, in order, and
      leaves none. */
  method OnePass(listener: UnsafeListener) returns (handed: seq<(OrderKey, Value)>)
    requires IsFullReady(listener, listener.Binding(), listener.Stored())
    requires AllDataKeys(listener.Binding(), listener.Stored())
    modifies listener, listener.IteratorObjects()
    ensures IsFullReady(listener, old(listener.Binding()), old(listener.Stored()))
    ensures Undelivered(listener.Binding(), listener.Stored(), listener.View()) == {}
    ensures var all := old(Sorted(Undelivered(listener.Binding(), listener.Stored(), listener.View())));
            && listener.delivered == old(listener.delivered) + all
            && HandedAre(listener.Binding(), listener.Stored(), handed, all)
  {
    hide IsFullReady, AllDataKeys, Undelivered, HandedAre, EntryAt, IsStanding, IsDataKey, Sorted, Context.DataKeys,
      UnsafeListener.View;
    handed := [];
    ghost var c, store := listener.Binding(), listener.Stored();
    ghost var ahead := Undelivered(c, store, listener.View());
    ghost var all := Sorted(ahead);
    ghost var done: seq<Key> := [];
    NothingHanded(c, store);
    ReadyFacts(listener, c, store);
    var more := MoreToProcess(listener);
    while more
      invariant IsFullReady(listener, c, store) && listener.Binding() == c && listener.Stored() == store
      invariant fresh(listener.IteratorObjects() - old(listener.IteratorObjects()))
      invariant more ==> IsStanding(listener.View())
      invariant more <==> ahead != {}
      invariant ahead == Undelivered(c, store, listener.View()) && ahead <= c.DataKeys(store)
      invariant HandedAre(c, store, handed, done)
      invariant listener.delivered == old(listener.delivered) + done
      invariant done + Sorted(ahead) == all
      decreases |ahead|
    {
      OneMoreHanded(c, store, handed, done, ahead);
      var pair := ProcessAndAdvance(listener);
      handed, done, ahead := handed + [pair], done + [Least(ahead)], ahead - {Least(ahead)};
      ReadyFacts(listener, c, store);
      more := MoreToProcess(listener);
    }
    NothingLeft(done);
  }

  lemma NothingLeft(done: seq<Key>)
    ensures done + Sorted({}) == done
  {
  }

  lemma ReadyFacts(listener: UnsafeListener, c: Context, store: Store)
    requires IsFullReady(listener, c, store)
    ensures listener.Binding() == c && listener.Stored() == store
    ensures Undelivered(c, store, listener.View()) <= c.DataKeys(store)
  {
  }

  lemma NothingHanded(c: Context, store: Store)
    ensures HandedAre(c, store, [], [])
  {
  }

  lemma SameUndelivered(c: Context, store: Store, l: ListenerState)
    ensures var l' := HasDataSpec(c, store, l).1;
            Undelivered(c, store, l') == Undelivered(c, store, l)
  {
    var l' := HasDataSpec(c, store, l).1;
    assert l' == l.(iter := l'.iter, reachedEnd := l'.reachedEnd);
  }
}
