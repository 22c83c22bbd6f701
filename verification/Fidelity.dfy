/** From the arguments of the pushes of a run to what processors are called with. */
module Fidelity {
  import opened Common
  import opened Lex
  import opened OrderKeys
  import opened Storage
  import opened Publisher
  import opened Listener
  import opened System
  import opened Theorems
  import opened AsyncListener

  // ---- The log is what was pushed ----

  /** What a caller of Push knows of the entries of a log: their primary keys and texts. */
  function Pairs(log: seq<(OrderKey, Value)>): seq<(nat, Value)> {
    seq(|log|, i requires 0 <= i < |log| => (log[i].0.primary, log[i].1))
  }

  /** The accepted push under way after a step, if any. A crash drops it. */
  function UnderWay(s: Sys, a: Action, t: Traits, current: Option<Entry>): Option<Entry>
    requires Allowed(s, a)
  {
    match a
    case BeginPush(u, primary, job) =>
      if u == t && job.WithEntry? && primary >= s.streams[t].head.primary then Some(Entry(primary, job.payload))
      else current
    case FinishPush(u) => if u == t then None else current
    case Crash => None
    case _ => current
  }

  /** The push that a step lets return, unless it throws. */
  function Returned(a: Action, t: Traits, current: Option<Entry>): seq<(nat, Value)> {
    match (a, current)
    case (FinishPush(u), Some(Entry(primary, Some(text)))) => if u == t && text != [] then [(primary, text)] else []
    case _ => []
  }

  /** The pushes to a stream that returned in a run, in that order, as their callers made them. */
  function Pushed(s: Sys, actions: seq<Action>, t: Traits, current: Option<Entry>): seq<(nat, Value)>
    requires Run(s, actions)
    decreases |actions|
  {
    if actions == [] then []
    else
      Returned(actions[0], t, current)
      + Pushed(Apply(s, actions[0]), actions[1..], t, UnderWay(s, actions[0], t, current))
  }

  /** The push that holds the stream's lock. */
  function InProgress(st: StreamState): Option<Entry> {
    match st.phase
    case Idle => None
    case HeadStored(newHead, job) => if job.WithEntry? then Some(Entry(newHead.primary, job.payload)) else None
    case HeadMoved(payload) => Some(Entry(st.head.primary, payload))
  }

  lemma StepPublishes(s: Sys, a: Action, t: Traits)
    requires Inv(s) && Allowed(s, a) && t in s.streams
    ensures var st, s' := s.streams[t], Apply(s, a);
            && t in s'.streams
            && InProgress(s'.streams[t]) == UnderWay(s, a, t, InProgress(st))
            && Pairs(s'.streams[t].log) == Pairs(st.log) + Returned(a, t, InProgress(st))
  {
    hide Inv, CallSpec, NewListener, OpenHead, ComposeStorageKey, HeadStorageKey;
    if a.FinishPush? && a.t == t {
      EntryKeyIsNew(s, t);
    }
  }

  /** The log grows by exactly the entries whose pushes returned, in that order, whatever other steps
      fall between the steps of a push, and through crashes. */
  lemma {:induction false} LogIsWhatWasPushed(s: Sys, actions: seq<Action>, t: Traits)
    requires Inv(s) && Run(s, actions) && t in s.streams
    ensures var st, x := s.streams[t], Exec(s, actions);
            && t in x.streams
            && Pairs(x.streams[t].log) == Pairs(st.log) + Pushed(s, actions, t, InProgress(st))
    decreases |actions|
  {
    hide Inv, Apply, Allowed, Returned, UnderWay, InProgress;
    if actions != [] {
      StepKeeps(s, actions[0]);
      StepPublishes(s, actions[0], t);
      LogIsWhatWasPushed(Apply(s, actions[0]), actions[1..], t);
    }
  }

  // ---- What a listener hands over ----

  /** A listener from the start of the stream is before every entry. */
  lemma {:induction false} NothingBeforeTheStart(
      cv: ConfigValues, t: Traits, l: ListenerState, log: seq<(OrderKey, Value)>)
    requires l.begin == ComposeStorageKey(cv, t, OrderKey(0, 0)) && l.endKey.None?
    requires forall e | e in log :: Fits(t, e.0)
    ensures Within(l, LogKeys(cv, t, log)) == LogKeys(cv, t, log)
  {
    hide ComposeStorageKey;
    if log != [] {
      assert log[0] in log && log == [log[0]] + log[1..];
      assert LogKeys(cv, t, log) == [ComposeStorageKey(cv, t, log[0].0)] + LogKeys(cv, t, log[1..]);
      ComposeOrder(cv, t, log[0].0, OrderKey(0, 0));
      NothingBeforeTheStart(cv, t, l, log[1..]);
    }
  }

  /** What the callers of Push passed for these entries. */
  function Serialized<E>(entries: seq<E>, keyOf: E -> nat, serialize: E -> Value): seq<(nat, Value)> {
    seq(|entries|, i requires 0 <= i < |entries| => (keyOf(entries[i]), serialize(entries[i])))
  }

  /** What the deserializer makes of a pair handed to the processor. */
  function Restored<E>(pair: (OrderKey, Value), restore: (nat, Value) -> E): E {
    restore(pair.0.primary, pair.1)
  }

  predicate FromStart(c: Context, l: ListenerState) {
    l.begin == ComposeStorageKey(c.cv, c.traits, OrderKey(0, 0)) && l.endKey.None?
  }

  /** A listener from the start tails the whole log. */
  lemma TailsAll(c: Context, store: Store, st: StreamState, id: nat)
    requires StreamInv(c, store, st) && id in st.listeners && FromStart(c, st.listeners[id])
    ensures var l, ks := st.listeners[id], LogKeys(c.cv, c.traits, st.log);
            && l.delivered + Sorted(Undelivered(c, store, l)) == ks
            && forall i | 0 <= i < |ks| ::
                 && IsDataKey(c.cv, c.traits, ks[i]) && ks[i] in store
                 && EntryAt(c.cv, c.traits, store, ks[i]) == st.log[i]
  {
    hide ListenerInv, ComposeStorageKey, DecomposeStorageKey, HeadStorageKey, InDataRange, Undelivered, IsDataKey;
    var l, ks := st.listeners[id], LogKeys(c.cv, c.traits, st.log);
    DeliversTheLog(c, store, st, id);
    NothingBeforeTheStart(c.cv, c.traits, l, st.log);
    forall i | 0 <= i < |ks|
      ensures IsDataKey(c.cv, c.traits, ks[i]) && ks[i] in store
              && EntryAt(c.cv, c.traits, store, ks[i]) == st.log[i] {
      EntryOfLog(c, store, st, i);
    }
  }

  /** It has advanced past the first entries of the log, in order; ProcessEntrySync hands over the next
      one, and finds one unless there is none or the iterator is stale. */
  lemma HandsOverTheLog(c: Context, store: Store, st: StreamState, id: nat)
    requires StreamInv(c, store, st) && id in st.listeners && FromStart(c, st.listeners[id])
    ensures var l := st.listeners[id];
            var n, has := |l.delivered|, HasDataSpec(c, store, l).0;
            && n <= |st.log|
            && (forall i | 0 <= i < n ::
                  && IsDataKey(c.cv, c.traits, l.delivered[i]) && l.delivered[i] in store
                  && EntryAt(c.cv, c.traits, store, l.delivered[i]) == st.log[i])
            && (has <==> !l.IsStale() && n < |st.log|)
            && (has ==> ReadableAtCursor(c, store, HasDataSpec(c, store, l).1)
                        && ProcessSpec(c, store, l, true).0 == Ok(Some(st.log[n])))
  {
    hide StreamInv, ListenerInv, ComposeStorageKey, DecomposeStorageKey, InDataRange, Undelivered, HasDataSpec,
      ProcessSpec, IsDataKey;
    var l, ks, u := st.listeners[id], LogKeys(c.cv, c.traits, st.log), Undelivered(c, store, st.listeners[id]);
    TailsAll(c, store, st, id);
    StreamFacts(c, store, st, id);
    HasDataExact(c, store, l);
    ProcessExact(c, store, l, true);
    forall i | 0 <= i < |l.delivered| ensures l.delivered[i] == ks[i] {
    }
    if u != {} {
      assert Sorted(u)[0] == Least(u);
      assert ks[|l.delivered|] == Least(u);
    }
  }

  lemma StreamFacts(c: Context, store: Store, st: StreamState, id: nat)
    requires StreamInv(c, store, st) && id in st.listeners
    ensures ListenerInv(c, store, st.listeners[id])
    ensures Undelivered(c, store, st.listeners[id]) <= c.DataKeys(store)
    ensures forall k | k in c.DataKeys(store) :: Readable(c.cv, c.traits, k)
    ensures forall k | k in c.DataKeys(store) :: DecomposeStorageKey(c.cv, c.traits, k).Ok?
  {
    hide ListenerInv, ComposeStorageKey, DecomposeStorageKey, HeadStorageKey, InDataRange;
    LogIsListing(c, store, st);
    assert ListenerInv(c, store, st.listeners[id]);
    hide StreamInv;
    assert forall k | k in c.DataKeys(store) :: IsDataKey(c.cv, c.traits, k);
  }

  /** Given a serializer that restores an entry from its text and primary key, and the entries that a
      run's callers pushed: a listener from the start hands over those entries, in that order. It has
      advanced past the first of them, ProcessEntrySync hands over the next one, and finds one unless
      there is none or the iterator is stale. */
  lemma EntriesArriveAsPushed<E(!new)>(
      s: Sys, actions: seq<Action>, t: Traits, id: nat,
      entries: seq<E>, keyOf: E -> nat, serialize: E -> Value, restore: (nat, Value) -> E)
    requires forall e :: restore(keyOf(e), serialize(e)) == e
    requires Inv(s) && Run(s, actions) && t in s.streams
    requires Pairs(s.streams[t].log) + Pushed(s, actions, t, InProgress(s.streams[t]))
             == Serialized(entries, keyOf, serialize)
    requires var x := Exec(s, actions);
             Has(x, t, id) && FromStart(x.Ctx(t), x.streams[t].listeners[id])
    ensures var x := Exec(s, actions);
            var c, l := x.Ctx(t), x.streams[t].listeners[id];
            var has := HasDataSpec(c, x.store, l).0;
            var n := |l.delivered|;
            && n <= |entries|
            && (forall i | 0 <= i < n ::
                  && IsDataKey(c.cv, t, l.delivered[i]) && l.delivered[i] in x.store
                  && Restored(EntryAt(c.cv, t, x.store, l.delivered[i]), restore) == entries[i])
            && (has <==> !l.IsStale() && n < |entries|)
            && (has ==>
                  && ReadableAtCursor(c, x.store, HasDataSpec(c, x.store, l).1)
                  && var r := ProcessSpec(c, x.store, l, true).0;
                     r.Ok? && r.value.Some? && Restored(r.value.value, restore) == entries[n])
  {
    hide Inv, StreamInv, ListenerInv, ComposeStorageKey, Undelivered, IsDataKey, HasDataSpec, ProcessSpec, Run, Exec,
      ReadableAtCursor, EntryAt, Pushed;
    var x := Exec(s, actions);
    RunKeeps(s, actions);
    LogIsWhatWasPushed(s, actions, t);
    StreamInvOf(x, t);
    HandsOverTheLog(x.Ctx(t), x.store, x.streams[t], id);
    LogRestores(x.streams[t].log, entries, keyOf, serialize, restore);
  }

  lemma LogRestores<E(!new)>(
      log: seq<(OrderKey, Value)>,
      entries: seq<E>, keyOf: E -> nat, serialize: E -> Value, restore: (nat, Value) -> E)
    requires forall e :: restore(keyOf(e), serialize(e)) == e
    requires Pairs(log) == Serialized(entries, keyOf, serialize)
    ensures |log| == |entries|
    ensures forall i | 0 <= i < |log| :: Restored(log[i], restore) == entries[i]
  {
    assert |Pairs(log)| == |log| && |Serialized(entries, keyOf, serialize)| == |entries|;
    forall i | 0 <= i < |log| ensures Restored(log[i], restore) == entries[i] {
      assert Pairs(log)[i] == Serialized(entries, keyOf, serialize)[i];
    }
  }

  lemma StreamInvOf(s: Sys, t: Traits)
    requires Inv(s) && t in s.streams
    ensures StreamInv(s.Ctx(t), s.store, s.streams[t])
  {
    hide StreamInv;
  }

  // ---- What the processor of an asynchronous listener is called with ----

  /** It has been called with the first entries of the log, in order, each once. */
  lemma HandedIsTheLog(w: Worker)
    requires WorkerInv(w)
    ensures w.handed <= w.sys.streams[w.t].log
  {
    hide Inv, StreamInv, ListenerInv, ComposeStorageKey, Undelivered, IsDataKey, HasDataSpec, EntryAt;
    var c, store, l, st := w.Ctx(), w.sys.store, w.L(), w.sys.streams[w.t];
    var ks, u := LogKeys(c.cv, w.t, st.log), Undelivered(c, store, l);
    StreamInvOf(w.sys, w.t);
    StreamFacts(c, store, st, w.id);
    TailsAll(c, store, st, w.id);
    FullHasData(c, store, l);
    var keys := l.delivered + if w.pc.Advance? then AsyncListener.Current(l) else [];
    assert u != {} ==> Sorted(u)[0] == Least(u);
    forall i | 0 <= i < |keys| ensures keys[i] == ks[i] {
    }
    forall i | 0 <= i < |keys| ensures w.handed[i] == st.log[i] {
    }
  }

  /** The steps of the machine in a run of the thread and the others. */
  function StepsOf(w: Worker, e: Event): seq<Action> {
    match e
    case Other(a) => [a]
    case Terminate => []
    case Tick => if CallAt(w.pc).Some? then [On(w.t, w.id, CallAt(w.pc).value)] else []
  }

  lemma EventIsAStep(w: Worker, e: Event)
    requires Possible(w, e)
    ensures var w', steps := StepOf(w, e), StepsOf(w, e);
            && w'.t == w.t && w'.id == w.id
            && if steps == [] then w'.sys == w.sys
               else steps == [steps[0]] && Allowed(w.sys, steps[0]) && w'.sys == Apply(w.sys, steps[0])
  {
    hide Allowed, Apply, LeavesAlone;
  }

  function ActionsOf(w: Worker, events: seq<Event>): (actions: seq<Action>)
    requires Runs(w, events)
    ensures Run(w.sys, actions) && Exec(w.sys, actions) == After(w, events).sys
    ensures After(w, events).t == w.t && After(w, events).id == w.id
    decreases |events|
  {
    hide StepOf, StepsOf, Possible, Allowed, Apply;
    if events == [] then []
    else
      EventIsAStep(w, events[0]);
      var rest := ActionsOf(StepOf(w, events[0]), events[1..]);
      assert (StepsOf(w, events[0]) + rest)[|StepsOf(w, events[0])|..] == rest;
      StepsOf(w, events[0]) + rest
  }

  /** The processor is called with the entries that callers pushed, in that order, each once; with all
      that were stored when the counter is read once it has advanced by two, unless the thread was
      asked to stop. */
  lemma ProcessorGetsWhatWasPushed<E(!new)>(
      w: Worker, events: seq<Event>,
      entries: seq<E>, keyOf: E -> nat, serialize: E -> Value, restore: (nat, Value) -> E)
    requires forall e :: restore(keyOf(e), serialize(e)) == e
    requires WorkerInv(w) && Runs(w, events)
    requires var st := w.sys.streams[w.t];
             Pairs(st.log) + Pushed(w.sys, ActionsOf(w, events), w.t, InProgress(st))
             == Serialized(entries, keyOf, serialize)
    ensures var x := After(w, events);
            && |x.handed| <= |entries|
            && (forall i | 0 <= i < |x.handed| :: Restored(x.handed[i], restore) == entries[i])
            && (x.cycles >= w.cycles + 2 && !x.terminating ==> |x.handed| >= |w.sys.streams[w.t].log|)
  {
    hide WorkerInv, Inv, Run, Exec, Pushed, Runs, After, ActionsOf, AllHanded, InProgress, InDataRange, Restored;
    var x := After(w, events);
    RunsKeep(w, events);
    WorkerSysInv(w);
    WorkerHas(w);
    LogIsWhatWasPushed(w.sys, ActionsOf(w, events), w.t);
    LogRestores(x.sys.streams[x.t].log, entries, keyOf, serialize, restore);
    HandedIsTheLog(x);
    if x.cycles >= w.cycles + 2 && !x.terminating {
      TwoCyclesSuffice(w, events);
      HeadAndLogOnlyGrow(w.sys, ActionsOf(w, events), w.t);
      EntriesAreKept(w.sys, ActionsOf(w, events), w.t);
      AllHandedCoversTheLog(w, x);
    }
  }

  lemma AllHandedCoversTheLog(w: Worker, x: Worker)
    requires WorkerInv(w) && WorkerInv(x) && x.t == w.t && x.sys.cv == w.sys.cv
    requires w.sys.streams[w.t].log <= x.sys.streams[w.t].log && x.handed <= x.sys.streams[w.t].log
    requires AllHanded(x, w.Stored())
    ensures |x.handed| >= |w.sys.streams[w.t].log|
  {
    hide WorkerInv, Inv, StreamInv, ComposeStorageKey, IsDataKey, DecomposeStorageKey, InDataRange, Context.DataKeys;
    WorkerSysInv(w);
    WorkerSysInv(x);
    WorkerHas(w);
    WorkerHas(x);
    StreamInvOf(w.sys, w.t);
    StreamInvOf(x.sys, x.t);
    var log, all := w.sys.streams[w.t].log, x.sys.streams[x.t].log;
    if log != [] {
      var last := |log| - 1;
      var e := log[last];
      assert e == all[last];
      var k := ComposeStorageKey(w.sys.cv, w.t, e.0);
      assert k in w.Stored() by { LogIsListing(w.Ctx(), w.sys.store, w.sys.streams[w.t]); }
      EntryOfLog(x.Ctx(), x.sys.store, x.sys.streams[x.t], last);
      var j :| 0 <= j < |x.handed| && x.handed[j] == e;
      NoRepeats(x.Ctx(), x.sys.store, x.sys.streams[x.t], j, last);
    }
  }

  lemma EntryOfLog(c: Context, store: Store, st: StreamState, i: nat)
    requires StreamInv(c, store, st) && i < |st.log|
    ensures var k := ComposeStorageKey(c.cv, c.traits, st.log[i].0);
            IsDataKey(c.cv, c.traits, k) && k in store && EntryAt(c.cv, c.traits, store, k) == st.log[i]
  {
    hide ListenerInv, ComposeStorageKey, DecomposeStorageKey, HeadStorageKey, InDataRange, IsDataKey;
    assert st.log[i] in st.log;
    ComposeRoundTrip(c.cv, c.traits, st.log[i].0);
  }

  lemma NoRepeats(c: Context, store: Store, st: StreamState, i: nat, j: nat)
    requires StreamInv(c, store, st) && i < |st.log| && j < |st.log| && st.log[i] == st.log[j]
    ensures i == j
  {
    hide ListenerInv, ComposeStorageKey, HeadStorageKey, InDataRange, IsDataKey;
    SortedIsAscendingListing(c.DataKeys(store));
    var ks := LogKeys(c.cv, c.traits, st.log);
    assert ks[i] == ks[j];
    LessTrichotomy(ks[i], ks[j]);
  }
}
