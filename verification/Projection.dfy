/** Streams in one store do not interfere: a run decides each stream by that stream's own steps. */
module Projection {
  import opened Common
  import opened Lex
  import opened OrderKeys
  import opened Storage
  import opened Publisher
  import opened Listener
  import opened System
  import opened Theorems

  predicate IsOwn(a: Action, t: Traits) {
    a.Crash? || a.t == t
  }

  /** The steps of a run that belong to a stream, crashes included. */
  function Own(actions: seq<Action>, t: Traits): seq<Action> {
    if actions == [] then []
    else if IsOwn(actions[0], t) then [actions[0]] + Own(actions[1..], t)
    else Own(actions[1..], t)
  }

  // ---- Two stores that hold the same of one stream ----

  /** Alike but for what the iterators see of other streams. */
  predicate SameIterator(c: Context, store: Store, l: ListenerState, other: Store, m: ListenerState) {
    && (l.iter.Some? <==> m.iter.Some?)
    && (l.IsStale() <==> m.IsStale())
    && (l.iter.Some? ==>
          && (l.iter.value.Snapshot? <==> m.iter.value.Snapshot?)
          && c.DataKeys(l.iter.value.Source(store)) == c.DataKeys(m.iter.value.Source(other)))
  }

  predicate SameListener(c: Context, store: Store, l: ListenerState, other: Store, m: ListenerState) {
    m == l.(iter := m.iter) && SameIterator(c, store, l, other, m)
  }

  predicate SameStream(c: Context, store: Store, st: StreamState, other: Store, su: StreamState) {
    && su == st.(listeners := su.listeners)
    && c.DataKeys(store) == c.DataKeys(other)
    && st.listeners.Keys == su.listeners.Keys
    && forall id | id in st.listeners :: SameListener(c, store, st.listeners[id], other, su.listeners[id])
  }

  predicate Same(s: Sys, p: Sys, t: Traits) {
    && s.cv == p.cv && s.backend == p.backend && s.streams.Keys == p.streams.Keys
    && t in s.streams
    && SameStream(s.Ctx(t), s.store, s.streams[t], p.store, p.streams[t])
  }

  // ---- Calls ----

  lemma SameHasData(c: Context, store: Store, l: ListenerState, other: Store, m: ListenerState)
    requires ListenerInv(c, store, l) && ListenerInv(c, other, m)
    requires c.DataKeys(store) == c.DataKeys(other) && SameListener(c, store, l, other, m)
    ensures Undelivered(c, store, l) == Undelivered(c, other, m)
    ensures var (has, l') := HasDataSpec(c, store, l);
            var (has', m') := HasDataSpec(c, other, m);
            has == has' && SameListener(c, store, l', other, m')
  {
    hide ListenerInv, InDataRange, LowerBound, Successor;
    assert Undelivered(c, store, l) == Undelivered(c, other, m) && Ahead(c, store, l) == Ahead(c, other, m);
    HasDataExact(c, store, l);
    HasDataExact(c, other, m);
    ReachedEndExact(c, store, l);
    ReachedEndExact(c, other, m);
    hide Undelivered, Ahead;
  }

  lemma SameAdvance(c: Context, store: Store, l: ListenerState, other: Store, m: ListenerState)
    requires ListenerInv(c, store, l) && ListenerInv(c, other, m)
    requires c.DataKeys(store) == c.DataKeys(other) && SameListener(c, store, l, other, m)
    ensures SameListener(c, store, AdvanceSpec(c, store, l).1, other, AdvanceSpec(c, other, m).1)
  {
    hide ListenerInv, InDataRange, Undelivered, HasDataSpec, Context.DataKeys, Successor;
    SameHasData(c, store, l, other, m);
    HasDataExact(c, store, l);
    HasDataExact(c, other, m);
    AdvanceExact(c, store, l);
    AdvanceExact(c, other, m);
    StaleAfterAdvance(c, store, l);
    StaleAfterAdvance(c, other, m);
  }

  /** Listeners that are alike give the same answers, deliver the same and stay alike. */
  lemma SameCall(c: Context, store: Store, l: ListenerState, other: Store, m: ListenerState, call: Call)
    requires ListenerInv(c, store, l) && ListenerInv(c, other, m)
    requires c.DataKeys(store) == c.DataKeys(other) && SameListener(c, store, l, other, m)
    ensures SameListener(c, store, CallSpec(c, store, l, call), other, CallSpec(c, other, m, call))
  {
    hide ListenerInv, SameListener, AdvanceSpec, HasDataSpec, Context.DataKeys;
    SameHasData(c, store, l, other, m);
    SameAdvance(c, store, l, other, m);
  }

  // ---- Steps ----

  lemma SameAfterOtherStep(s: Sys, a: Action, p: Sys, t: Traits)
    requires Inv(s) && Same(s, p, t) && Allowed(s, a) && !IsOwn(a, t)
    ensures Same(Apply(s, a), p, t)
  {
    hide Inv, Apply, Allowed;
    StepElsewhere(s, a, t);
    SameKeys(s, a);
  }

  lemma SameKeys(s: Sys, a: Action)
    requires Allowed(s, a)
    ensures Apply(s, a).streams.Keys == s.streams.Keys
  {
    hide HasDataSpec, AdvanceSpec, OpenHead;
  }

  /** Writing the same entries keeps them alike. */
  lemma SameOverNewStores(c: Context, store: Store, st: StreamState, other: Store, su: StreamState,
                          store': Store, st': StreamState, other': Store, su': StreamState)
    requires SameStream(c, store, st, other, su)
    requires c.DataKeys(store') == c.DataKeys(other')
    requires st' == st.(head := st'.head, phase := st'.phase, log := st'.log)
    requires su' == st'.(listeners := su.listeners)
    ensures SameStream(c, store', st', other', su')
  {
    hide Context.DataKeys, ListenerState.IsStale;
  }

  /** What a push step adds to the stream follows from the stream alone. */
  function Added(s: Sys, a: Action, t: Traits): set<Key>
    requires Allowed(s, a) && t in s.streams
  {
    if a.FinishPush? && s.streams[t].phase.HeadMoved? && s.streams[t].phase.payload.Some?
       && s.streams[t].phase.payload.value != []
    then {ComposeStorageKey(s.cv, t, s.streams[t].head)} else {}
  }

  lemma PushStepAdds(s: Sys, a: Action, t: Traits)
    requires Inv(s) && Allowed(s, a) && (a.BeginPush? || a.MoveHead? || a.FinishPush?) && a.t == t
    ensures s.Ctx(t).DataKeys(Apply(s, a).store) == s.Ctx(t).DataKeys(s.store) + Added(s, a, t)
    ensures a.FinishPush? ==> (WriteEntry(s, t).Ok? <==> Added(s, a, t) != {})
  {
    hide Inv, ComposeStorageKey, HeadStorageKey, InDataRange;
    NamesAreValid(s, t);
    StreamsAreIsolated(s.cv, t, t);
    if a.FinishPush? {
      EntryKeyIsNew(s, t);
    }
  }

  lemma SameAfterPushStep(s: Sys, a: Action, p: Sys, t: Traits)
    requires Inv(s) && Inv(p) && Same(s, p, t) && Allowed(s, a)
    requires (a.BeginPush? || a.MoveHead? || a.FinishPush?) && a.t == t
    ensures Allowed(p, a) && Same(Apply(s, a), Apply(p, a), t)
  {
    hide Inv, SameListener, WriteEntry, Context.DataKeys, NewHead, ComposeStorageKey;
    PushStepAdds(s, a, t);
    PushStepAdds(p, a, t);
    var s', p' := Apply(s, a), Apply(p, a);
    SameOverNewStores(s.Ctx(t), s.store, s.streams[t], p.store, p.streams[t],
                      s'.store, s'.streams[t], p'.store, p'.streams[t]);
  }

  lemma SameAfterCall(s: Sys, id: nat, call: Call, p: Sys, t: Traits)
    requires Inv(s) && Inv(p) && Same(s, p, t) && Allowed(s, On(t, id, call))
    ensures Allowed(p, On(t, id, call)) && Same(Apply(s, On(t, id, call)), Apply(p, On(t, id, call)), t)
  {
    hide Inv, CallSpec, Context.DataKeys, SameListener;
    ListenerFacts(s, t, id);
    ListenerFacts(p, t, id);
    hide ListenerInv;
    SameCall(s.Ctx(t), s.store, s.streams[t].listeners[id], p.store, p.streams[t].listeners[id], call);
  }

  lemma SameAfterListen(s: Sys, a: Action, p: Sys, t: Traits)
    requires Same(s, p, t) && Allowed(s, a) && a.Listen? && a.t == t
    ensures Allowed(p, a) && Same(Apply(s, a), Apply(p, a), t)
  {
    hide Context.DataKeys, ComposeStorageKey;
  }

  lemma SameAfterCrash(s: Sys, p: Sys, t: Traits)
    requires Inv(s) && Inv(p) && Same(s, p, t)
    ensures Allowed(s, Crash) && Allowed(p, Crash) && Same(Apply(s, Crash), Apply(p, Crash), t)
  {
    hide Inv, OpenHead;
    CrashKeeps(s);
    CrashKeeps(p);
    StoreRecoversHead(s, t);
    StoreRecoversHead(p, t);
  }

  lemma SameAfterOwnStep(s: Sys, a: Action, p: Sys, t: Traits)
    requires Inv(s) && Inv(p) && Same(s, p, t) && Allowed(s, a) && IsOwn(a, t)
    ensures Allowed(p, a) && Same(Apply(s, a), Apply(p, a), t)
  {
    hide Inv, Apply, Allowed, Same;
    if a.Crash? {
      SameAfterCrash(s, p, t);
    } else if a.On? {
      SameAfterCall(s, a.id, a.call, p, t);
    } else if a.Listen? {
      SameAfterListen(s, a, p, t);
    } else {
      SameAfterPushStep(s, a, p, t);
    }
  }

  // ---- Runs ----

  lemma {:induction false} OwnRun(s: Sys, actions: seq<Action>, p: Sys, t: Traits)
    requires Inv(s) && Inv(p) && Same(s, p, t) && Run(s, actions)
    ensures Run(p, Own(actions, t)) && Same(Exec(s, actions), Exec(p, Own(actions, t)), t)
    decreases |actions|
  {
    hide Inv, Apply, Allowed, Same, IsOwn;
    if actions != [] {
      StepKeeps(s, actions[0]);
      var s' := Apply(s, actions[0]);
      if IsOwn(actions[0], t) {
        SameAfterOwnStep(s, actions[0], p, t);
        StepKeeps(p, actions[0]);
        OwnRun(s', actions[1..], Apply(p, actions[0]), t);
        assert Own(actions, t)[1..] == Own(actions[1..], t);
      } else {
        SameAfterOtherStep(s, actions[0], p, t);
        OwnRun(s', actions[1..], p, t);
      }
    }
  }

  lemma SameAsItself(s: Sys, t: Traits)
    requires t in s.streams
    ensures Same(s, s, t)
  {
    hide Context.DataKeys;
  }

  /** Leave the steps of all other streams out of a run: the stream's head, lock and log are the same,
      and its listeners have delivered the same and answer and deliver the same next. */
  lemma OwnStepsDecide(s: Sys, actions: seq<Action>, t: Traits)
    requires Inv(s) && Run(s, actions) && t in s.streams
    ensures Run(s, Own(actions, t))
    ensures var x, y := Exec(s, actions), Exec(s, Own(actions, t));
            && t in x.streams && t in y.streams
            && var st, su, c := x.streams[t], y.streams[t], x.Ctx(t);
               && su == st.(listeners := su.listeners) && su.listeners.Keys == st.listeners.Keys
               && c.DataKeys(x.store) == c.DataKeys(y.store)
               && forall id | id in st.listeners ::
                    var l, m := st.listeners[id], su.listeners[id];
                    && m == l.(iter := m.iter)
                    && HasDataSpec(c, x.store, l).0 == HasDataSpec(c, y.store, m).0
                    && ReachedEndSpec(c, x.store, l).0 == ReachedEndSpec(c, y.store, m).0
                    && AdvanceSpec(c, x.store, l).1.delivered == AdvanceSpec(c, y.store, m).1.delivered
  {
    hide Inv, ListenerInv, HasDataSpec, AdvanceSpec, Context.DataKeys, Run, Exec, Own, SameIterator;
    SameAsItself(s, t);
    OwnRun(s, actions, s, t);
    RunKeeps(s, actions);
    RunKeeps(s, Own(actions, t));
    var x, y := Exec(s, actions), Exec(s, Own(actions, t));
    forall id | id in x.streams[t].listeners
      ensures var c, l, m := x.Ctx(t), x.streams[t].listeners[id], y.streams[t].listeners[id];
              && HasDataSpec(c, x.store, l).0 == HasDataSpec(c, y.store, m).0
              && ReachedEndSpec(c, x.store, l).0 == ReachedEndSpec(c, y.store, m).0
              && AdvanceSpec(c, x.store, l).1.delivered == AdvanceSpec(c, y.store, m).1.delivered {
      var c, l, m := x.Ctx(t), x.streams[t].listeners[id], y.streams[t].listeners[id];
      ListenerFacts(x, t, id);
      ListenerFacts(y, t, id);
      SameHasData(c, x.store, l, y.store, m);
      SameAdvance(c, x.store, l, y.store, m);
    }
  }
}
