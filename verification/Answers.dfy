/** When HasData answers false although an undelivered entry is stored, in terms of what was called
    and pushed, over either storage. */
module Answers {
  import opened Common
  import opened Lex
  import opened OrderKeys
  import opened Storage
  import opened Publisher
  import opened Listener
  import opened System
  import opened Theorems

  /** What an observer of the calls on a listener notes: what was stored when its iterator was made,
      and, if its latest call was an AdvanceToNextEntry that returned, what was stored then. */
  datatype Watch = Watch(made: Option<Store>, advanced: Option<Store>)

  const NOTHING_SEEN := Watch(None, None)

  function Watched(s: Sys, a: Action, t: Traits, id: nat, w: Watch): Watch
    requires Allowed(s, a)
  {
    match a
    case On(u, i, call) =>
      if u != t || i != id then w
      else if !HasDataSpec(s.Ctx(t), s.store, s.streams[t].listeners[id]).0 then NOTHING_SEEN
      else Watch(if w.made.Some? then w.made else Some(s.store),
                 if call.AdvanceToNextEntry? then Some(s.store) else None)
    case Crash => NOTHING_SEEN
    case _ => w
  }

  function WatchedRun(s: Sys, actions: seq<Action>, t: Traits, id: nat, w: Watch): Watch
    requires Run(s, actions)
    decreases |actions|
  {
    if actions == [] then w
    else WatchedRun(Apply(s, actions[0]), actions[1..], t, id, Watched(s, actions[0], t, id, w))
  }

  /** The latest call advanced past the last entry that its iterator could see: over LevelDB the last
      that was stored when the iterator was made, in memory the last that was stored at that call. */
  predicate PassedTheLastSeen(c: Context, w: Watch, passed: Key) {
    && w.made.Some? && w.advanced.Some?
    && NothingAbove(c, if c.backend.LevelDB? then w.made.value else w.advanced.value, passed)
  }

  // ---- The notes tell when the iterator is stale ----

  predicate Tracks(c: Context, l: ListenerState, w: Watch) {
    && (l.iter.Some? <==> w.made.Some?)
    && (l.iter.Some? ==> (l.iter.value.Snapshot? <==> c.backend.LevelDB?))
    && (l.iter.Some? && l.iter.value.Snapshot? ==> l.iter.value.view == w.made.value)
    && (l.IsStale() <==> PassedTheLastSeen(c, w, l.cursorKey))
  }

  predicate Tracked(s: Sys, t: Traits, id: nat, w: Watch) {
    if Has(s, t, id) then Tracks(s.Ctx(t), s.streams[t].listeners[id], w) else w == NOTHING_SEEN
  }

  lemma CallIsTracked(c: Context, store: Store, l: ListenerState, call: Call, w: Watch)
    requires ListenerInv(c, store, l) && Tracks(c, l, w)
    ensures var w' := if !HasDataSpec(c, store, l).0 then NOTHING_SEEN
                      else Watch(if w.made.Some? then w.made else Some(store),
                                 if call.AdvanceToNextEntry? then Some(store) else None);
            Tracks(c, CallSpec(c, store, l, call), w')
  {
    hide ListenerInv, InDataRange, NothingAbove, LowerBound, Successor;
    HasDataExact(c, store, l);
    StaleAfterAdvance(c, store, l);
    hide Context.DataKeys, Undelivered;
  }

  lemma StepIsTracked(s: Sys, a: Action, t: Traits, id: nat, w: Watch)
    requires Inv(s) && Allowed(s, a) && Tracked(s, t, id, w)
    ensures Tracked(Apply(s, a), t, id, Watched(s, a, t, id, w))
  {
    hide Inv, CallSpec, HasDataSpec, ComposeStorageKey, HeadStorageKey, NothingAbove, WriteEntry, NewHead;
    if Has(s, t, id) {
      if LeavesAlone(a, t, id) {
        StepAroundListener(s, a, t, id);
      } else if a.On? {
        ListenerFacts(s, t, id);
        CallIsTracked(s.Ctx(t), s.store, s.streams[t].listeners[id], a.call, w);
      }
    }
  }

  lemma {:induction false} RunIsTracked(s: Sys, actions: seq<Action>, t: Traits, id: nat, w: Watch)
    requires Inv(s) && Run(s, actions) && Tracked(s, t, id, w)
    ensures Tracked(Exec(s, actions), t, id, WatchedRun(s, actions, t, id, w))
    decreases |actions|
  {
    hide Inv, Allowed, Apply, Tracked, Watched;
    if actions != [] {
      StepKeeps(s, actions[0]);
      StepIsTracked(s, actions[0], t, id, w);
      RunIsTracked(Apply(s, actions[0]), actions[1..], t, id, Watched(s, actions[0], t, id, w));
    }
  }

  // ---- Every answer, over every run ----

  /** HasData answers false although an undelivered entry is stored exactly when the latest call on the
      listener was an AdvanceToNextEntry that passed the last entry its iterator could see. That entry
      need not be the last one stored at that call: a LevelDB iterator sees none of the pushes made
      since it was made itself. */
  lemma HasDataOverRuns(s: Sys, actions: seq<Action>, t: Traits, id: nat)
    requires Inv(s) && Run(s, actions) && Has(Exec(s, actions), t, id)
    requires Has(s, t, id) ==> s.streams[t].listeners[id].iter.None?
    ensures var x := Exec(s, actions);
            var c, l := x.Ctx(t), x.streams[t].listeners[id];
            var w := WatchedRun(s, actions, t, id, NOTHING_SEEN);
            HasDataSpec(c, x.store, l).0 <==>
              Undelivered(c, x.store, l) != {} && !PassedTheLastSeen(c, w, l.cursorKey)
  {
    hide Inv, ListenerInv, HasDataSpec, Undelivered, NothingAbove;
    RunKeeps(s, actions);
    RunIsTracked(s, actions, t, id, NOTHING_SEEN);
    var x := Exec(s, actions);
    ListenerFacts(x, t, id);
    HasDataExact(x.Ctx(t), x.store, x.streams[t].listeners[id]);
  }

  /** ReachedEnd answers true exactly when nothing is left to deliver and an entry at or past the end is
      stored, but for the same calls after which HasData is wrong. */
  lemma ReachedEndOverRuns(s: Sys, actions: seq<Action>, t: Traits, id: nat)
    requires Inv(s) && Run(s, actions) && Has(Exec(s, actions), t, id)
    requires Has(s, t, id) ==> s.streams[t].listeners[id].iter.None?
    ensures var x := Exec(s, actions);
            var c, l := x.Ctx(t), x.streams[t].listeners[id];
            var w := WatchedRun(s, actions, t, id, NOTHING_SEEN);
            ReachedEndSpec(c, x.store, l).0 <==>
              && Undelivered(c, x.store, l) == {} && Ahead(c, x.store, l) != {}
              && !PassedTheLastSeen(c, w, l.cursorKey)
  {
    hide Inv, ListenerInv, ReachedEndSpec, Undelivered, Ahead, NothingAbove;
    RunKeeps(s, actions);
    RunIsTracked(s, actions, t, id, NOTHING_SEEN);
    var x := Exec(s, actions);
    ListenerFacts(x, t, id);
    ReachedEndExact(x.Ctx(t), x.store, x.streams[t].listeners[id]);
  }

  // ---- Wrong answers, and what follows one ----

  /** After HasData has answered false, whatever happens before the next call, that call answers true
      exactly when an undelivered entry is stored. */
  lemma FalseThenExact(s: Sys, actions: seq<Action>, t: Traits, id: nat)
    requires Inv(s) && Has(s, t, id) && Allowed(s, On(t, id, HasData))
    requires !HasDataSpec(s.Ctx(t), s.store, s.streams[t].listeners[id]).0
    requires Run(Apply(s, On(t, id, HasData)), actions)
    requires forall a | a in actions :: LeavesAlone(a, t, id)
    ensures var x := Exec(Apply(s, On(t, id, HasData)), actions);
            && Has(x, t, id)
            && var l := x.streams[t].listeners[id];
               HasDataSpec(x.Ctx(t), x.store, l).0 <==> Undelivered(x.Ctx(t), x.store, l) != {}
  {
    hide Inv, ListenerInv, HasDataSpec, Undelivered;
    var s1 := Apply(s, On(t, id, HasData));
    ListenerFacts(s, t, id);
    StepKeeps(s, On(t, id, HasData));
    RunAroundListener(s1, actions, t, id);
    var x := Exec(s1, actions);
    ListenerFacts(x, t, id);
    HasDataExact(s.Ctx(t), s.store, s.streams[t].listeners[id]);
    HasDataExact(x.Ctx(t), x.store, x.streams[t].listeners[id]);
  }

  /** Advancing past the only entry ahead leaves an iterator that is done and not dropped. */
  lemma PassedTheLast(c: Context, store: Store, l: ListenerState, m: Key)
    requires ListenerInv(c, store, l) && l.endKey.None? && !l.IsStale()
    requires Undelivered(c, store, l) == {m}
    ensures var l1 := AdvanceSpec(c, store, l).1;
            ListenerInv(c, store, l1) && l1.IsStale() && l1.needToIncrement && l1.endKey.None?
  {
    HasDataExact(c, store, l);
    AdvanceExact(c, store, l);
    var l1 := AdvanceSpec(c, store, l).1;
    assert Undelivered(c, store, l1) == {};
    assert forall k | k in Ahead(c, store, l1) :: k in Undelivered(c, store, l1);
  }

  /** Over either storage: the listener passes the last stored entry, a push lands, and only then
      HasData is called. Its answer is wrong, and the one after it is right. */
  lemma FirstAnswerAfterPushIsWrong(s: Sys, t: Traits, id: nat, m: Key, entry: Entry)
    requires Inv(s) && Has(s, t, id)
    requires var l := s.streams[t].listeners[id];
             l.endKey.None? && !l.IsStale() && Undelivered(s.Ctx(t), s.store, l) == {m}
    requires Allowed(s, On(t, id, AdvanceToNextEntry))
    requires Run(Apply(s, On(t, id, AdvanceToNextEntry)), PushSteps(t, entry))
    requires entry.payload.Some? && entry.payload.value != []
    ensures var x := Exec(Apply(s, On(t, id, AdvanceToNextEntry)), PushSteps(t, entry));
            && Has(x, t, id)
            && var c, l := x.Ctx(t), x.streams[t].listeners[id];
               && Undelivered(c, x.store, l) != {}
               && !HasDataSpec(c, x.store, l).0
               && HasDataSpec(c, x.store, HasDataSpec(c, x.store, l).1).0
  {
    hide Inv, ListenerInv, HasDataSpec, AdvanceSpec, ComposeStorageKey, PushSpec, Exec;
    var c, l := s.Ctx(t), s.streams[t].listeners[id];
    var s1 := Apply(s, On(t, id, AdvanceToNextEntry));
    StepKeeps(s, On(t, id, AdvanceToNextEntry));
    ListenerFacts(s, t, id);
    PassedTheLast(c, s.store, l, m);
    var l1 := s1.streams[t].listeners[id];
    assert Allowed(s1, PushSteps(t, entry)[0]);
    assert PushSteps(t, entry)[1..][0] == MoveHead(t);
    PushIsItsSteps(s1, t, entry);
    PushedEntryIsLast(s1, t, entry);
    RunKeeps(s1, PushSteps(t, entry));
    var x := Exec(s1, PushSteps(t, entry));
    ListenerFacts(x, t, id);
    CursorIsStored(c, s1.store, l1);
    var (_, _, head) := PushSpec(s1.cv, t, s1.store, s1.streams[t].head, entry);
    assert ComposeStorageKey(s1.cv, t, head) in Undelivered(c, x.store, l1);
    HasDataExact(c, x.store, l1);
    var l2 := HasDataSpec(c, x.store, l1).1;
    SameAhead(c, x.store, l1, l2);
    HasDataExact(c, x.store, l2);
  }

  lemma CursorIsStored(c: Context, store: Store, l: ListenerState)
    requires ListenerInv(c, store, l)
    ensures l.needToIncrement ==> l.cursorKey in c.DataKeys(store)
  {
  }

  lemma SameAhead(c: Context, store: Store, l: ListenerState, l': ListenerState)
    requires l' == l.(iter := l'.iter, reachedEnd := l'.reachedEnd)
    ensures Undelivered(c, store, l') == Undelivered(c, store, l)
  {
  }

  /** A push between the call that made the iterator and the advance is missed over LevelDB, whose
      iterator cannot see it, and only there. The second call after it is right over both storages. */
  lemma PushUnderTheIteratorIsMissed(s: Sys, t: Traits, id: nat, m: Key, entry: Entry)
    requires Inv(s) && Has(s, t, id) && Allowed(s, On(t, id, HasData))
    requires var l := s.streams[t].listeners[id];
             l.endKey.None? && l.iter.None? && Undelivered(s.Ctx(t), s.store, l) == {m}
    requires Run(Apply(s, On(t, id, HasData)), PushSteps(t, entry))
    requires entry.primary >= s.streams[t].head.primary
    requires entry.payload.Some? && entry.payload.value != []
    ensures var x := Exec(Apply(s, On(t, id, HasData)), PushSteps(t, entry));
            && Allowed(x, On(t, id, AdvanceToNextEntry))
            && var y := Apply(x, On(t, id, AdvanceToNextEntry));
               var c, l := y.Ctx(t), y.streams[t].listeners[id];
               && l.cursorKey == m
               && Undelivered(c, y.store, l) != {}
               && (HasDataSpec(c, y.store, l).0 <==> s.backend.InMemory?)
               && HasDataSpec(c, y.store, HasDataSpec(c, y.store, l).1).0
  {
    hide Inv, ListenerInv, HasDataSpec, AdvanceSpec, ComposeStorageKey, PushSpec, Exec, Undelivered, InDataRange;
    var c, l := s.Ctx(t), s.streams[t].listeners[id];
    var s1 := Apply(s, On(t, id, HasData));
    StepKeeps(s, On(t, id, HasData));
    ListenerFacts(s, t, id);
    assert Allowed(s1, PushSteps(t, entry)[0]);
    PushIsItsSteps(s1, t, entry);
    PushedEntryIsLast(s1, t, entry);
    var x := Exec(s1, PushSteps(t, entry));
    RunAroundListener(s1, PushSteps(t, entry), t, id);
    ListenerFacts(x, t, id);
    NewEntriesAreAbove(s1, PushSteps(t, entry), t);
    var (_, _, head) := PushSpec(s1.cv, t, s1.store, s1.streams[t].head, entry);
    LessTrichotomy(ComposeStorageKey(s1.cv, t, head), ComposeStorageKey(s1.cv, t, head));
    AdvanceAfterPush(c, s.store, l, x.store, m, ComposeStorageKey(s1.cv, t, head));
  }

  lemma AdvanceAfterPush(c: Context, store: Store, l: ListenerState, store': Store, m: Key, key: Key)
    requires ListenerInv(c, store, l) && ListenerInv(c, store', HasDataSpec(c, store, l).1)
    requires l.endKey.None? && l.iter.None? && Undelivered(c, store, l) == {m}
    requires c.DataKeys(store) <= c.DataKeys(store') && key in c.DataKeys(store') && key !in c.DataKeys(store)
    requires forall j, k | j in c.DataKeys(store) && k in c.DataKeys(store') && k !in c.DataKeys(store) :: Less(j, k)
    ensures var l2 := AdvanceSpec(c, store', HasDataSpec(c, store, l).1).1;
            && l2.cursorKey == m
            && Undelivered(c, store', l2) != {}
            && (HasDataSpec(c, store', l2).0 <==> c.backend.InMemory?)
            && HasDataSpec(c, store', HasDataSpec(c, store', l2).1).0
  {
    hide ListenerInv, InDataRange, LowerBound, Successor;
    HasDataExact(c, store, l);
    var l1 := HasDataSpec(c, store, l).1;
    AheadIsFromBegin(c, store, l);
    Order();
    assert m in c.DataKeys(store);
    assert l.needToIncrement ==> l.cursorKey in c.DataKeys(store) by { CursorIsStored(c, store, l); }
    assert Undelivered(c, store', l1) == {m} + (c.DataKeys(store') - c.DataKeys(store));
    LeastUnique(Undelivered(c, store', l1));
    assert IsLeast(m, Undelivered(c, store', l1));
    AdvanceExact(c, store', l1);
    StaleAfterAdvance(c, store', l1);
    var l2 := AdvanceSpec(c, store', l1).1;
    assert key in Undelivered(c, store', l2);
    HasDataExact(c, store', l2);
    HasDataExact(c, store', HasDataSpec(c, store', l2).1);
    SameAhead(c, store', l2, HasDataSpec(c, store', l2).1);
  }
}
