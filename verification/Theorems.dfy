/** What every run guarantees to publishers and listeners, over either storage. */
module Theorems {
  import opened Common
  import opened Lex
  import opened FixedSizeSerializer
  import opened OrderKeys
  import opened Storage
  import opened Publisher
  import opened Listener
  import opened System

  predicate Has(s: Sys, t: Traits, id: nat) {
    t in s.streams && id in s.streams[t].listeners
  }

  // ---- Exactly-once, in-order tailing ----

  /** The keys of a listing that fall into the listener's [begin, end). */
  function Within(l: ListenerState, ks: seq<Key>): seq<Key> {
    if ks == [] then []
    else
      var rest := Within(l, ks[1..]);
      if !Less(ks[0], l.begin) && l.BeforeEnd(ks[0]) then [ks[0]] + rest else rest
  }

  lemma {:induction false} WithinKeeps(l: ListenerState, ks: seq<Key>)
    requires Ascending(ks)
    ensures Ascending(Within(l, ks))
    ensures forall k :: k in Within(l, ks) <==> k in ks && !Less(k, l.begin) && l.BeforeEnd(k)
  {
    if ks != [] {
      WithinKeeps(l, ks[1..]);
      assert ks == [ks[0]] + ks[1..];
      assert forall k | k in ks[1..] :: Less(ks[0], k);
    }
  }

  /** What a listener has delivered, followed by what is stored ahead of it, is the log restricted to
      its range. */
  lemma DeliversTheLog(c: Context, store: Store, st: StreamState, id: nat)
    requires StreamInv(c, store, st) && id in st.listeners
    ensures var l := st.listeners[id];
            l.delivered + Sorted(Undelivered(c, store, l)) == Within(l, LogKeys(c.cv, c.traits, st.log))
  {
    hide ComposeStorageKey, HeadStorageKey, InDataRange, IsStored;
    var l, ks := st.listeners[id], LogKeys(c.cv, c.traits, st.log);
    DeliveredThenUndelivered(c, store, l);
    SortedIsAscendingListing(c.DataKeys(store));
    WithinKeeps(l, ks);
    SortedIsUnique(Within(l, ks), Window(c, store, l));
  }

  /** In every reachable state a listener has delivered, and will deliver, every entry of its range
      once, in the order pushed. */
  lemma TailsTheLog(s: Sys, actions: seq<Action>, t: Traits, id: nat)
    requires Inv(s) && Run(s, actions) && Has(Exec(s, actions), t, id)
    ensures var x := Exec(s, actions);
            var l := x.streams[t].listeners[id];
            l.delivered + Sorted(Undelivered(x.Ctx(t), x.store, l)) == Within(l, LogKeys(x.cv, t, x.streams[t].log))
  {
    hide StreamInv;
    RunKeeps(s, actions);
    var x := Exec(s, actions);
    DeliversTheLog(x.Ctx(t), x.store, x.streams[t], id);
  }

  /** The entries of a log whose order keys are in a range. */
  function EntriesBetween(log: seq<(OrderKey, Value)>, begin: OrderKey, end: Option<OrderKey>)
    : seq<(OrderKey, Value)>
  {
    if log == [] then []
    else (if IsBetween(log[0].0, begin, end) then [log[0]] else []) + EntriesBetween(log[1..], begin, end)
  }

  predicate HasRange(c: Context, l: ListenerState, begin: OrderKey, end: Option<OrderKey>) {
    && Fits(c.traits, begin) && (end.Some? ==> Fits(c.traits, end.value))
    && l.begin == ComposeStorageKey(c.cv, c.traits, begin)
    && l.endKey == if end.None? then None else Some(ComposeStorageKey(c.cv, c.traits, end.value))
  }

  lemma {:induction false} WithinIsBetween(c: Context, l: ListenerState, log: seq<(OrderKey, Value)>,
                                           begin: OrderKey, end: Option<OrderKey>)
    requires HasRange(c, l, begin, end)
    requires forall e | e in log :: Fits(c.traits, e.0)
    ensures Within(l, LogKeys(c.cv, c.traits, log)) == LogKeys(c.cv, c.traits, EntriesBetween(log, begin, end))
  {
    hide ComposeStorageKey;
    if log != [] {
      assert log[0] in log && log == [log[0]] + log[1..];
      assert LogKeys(c.cv, c.traits, log)
          == [ComposeStorageKey(c.cv, c.traits, log[0].0)] + LogKeys(c.cv, c.traits, log[1..]);
      ComposeOrder(c.cv, c.traits, log[0].0, begin);
      if end.Some? {
        ComposeOrder(c.cv, c.traits, log[0].0, end.value);
      }
      WithinIsBetween(c, l, log[1..], begin, end);
    }
  }

  lemma StepKeepsRange(s: Sys, a: Action, t: Traits, id: nat)
    requires Allowed(s, a) && Has(s, t, id) && !a.Crash?
    ensures var s' := Apply(s, a);
            && Has(s', t, id) && s'.cv == s.cv && s'.backend == s.backend
            && s'.streams[t].listeners[id].begin == s.streams[t].listeners[id].begin
            && s'.streams[t].listeners[id].endKey == s.streams[t].listeners[id].endKey
  {
    hide ComposeStorageKey, HeadStorageKey, CurrentIterator, NewHead, WriteEntry;
  }

  lemma {:induction false} RunKeepsRange(s: Sys, actions: seq<Action>, t: Traits, id: nat)
    requires Run(s, actions) && Has(s, t, id) && Crash !in actions
    ensures var x := Exec(s, actions);
            && Has(x, t, id) && x.cv == s.cv && x.backend == s.backend
            && x.streams[t].listeners[id].begin == s.streams[t].listeners[id].begin
            && x.streams[t].listeners[id].endKey == s.streams[t].listeners[id].endKey
    decreases |actions|
  {
    hide Apply, Allowed;
    if actions != [] {
      StepKeepsRange(s, actions[0], t, id);
      RunKeepsRange(Apply(s, actions[0]), actions[1..], t, id);
    }
  }

  /** From the moment it is made until its process crashes, a listener has delivered, and will deliver,
      the entries of the log whose order keys are in the range that its caller asked for, once each, in
      the order pushed. */
  lemma TailsTheRangeAskedFor(s: Sys, t: Traits, id: nat, begin: OrderKey, end: Option<OrderKey>,
                              actions: seq<Action>)
    requires Inv(s) && Allowed(s, Listen(t, id, begin, end))
    requires Run(Apply(s, Listen(t, id, begin, end)), actions) && Crash !in actions
    ensures var x := Exec(Apply(s, Listen(t, id, begin, end)), actions);
            && Has(x, t, id)
            && var l, log := x.streams[t].listeners[id], x.streams[t].log;
               l.delivered + Sorted(Undelivered(x.Ctx(t), x.store, l))
               == LogKeys(x.cv, t, EntriesBetween(log, begin, end))
  {
    hide Inv, Run, Exec, ComposeStorageKey, HeadStorageKey, Undelivered;
    var s1 := Apply(s, Listen(t, id, begin, end));
    StepKeeps(s, Listen(t, id, begin, end));
    RunKeepsRange(s1, actions, t, id);
    TailsTheLog(s1, actions, t, id);
    var x := Exec(s1, actions);
    RunKeeps(s1, actions);
    LogListsTheStore(x, t);
    WithinIsBetween(x.Ctx(t), x.streams[t].listeners[id], x.streams[t].log, begin, end);
  }

  /** The storage does not matter: over the same log, listeners of the same range over two storages
      have delivered prefixes of one sequence, and the same sequence once both have caught up. */
  lemma StoragesDeliverTheSame(c: Context, store: Store, st: StreamState, i: nat,
                               d: Context, other: Store, su: StreamState, j: nat)
    requires c.cv == d.cv && c.traits == d.traits && st.log == su.log
    requires StreamInv(c, store, st) && i in st.listeners
    requires StreamInv(d, other, su) && j in su.listeners
    requires st.listeners[i].begin == su.listeners[j].begin && st.listeners[i].endKey == su.listeners[j].endKey
    ensures var l, m := st.listeners[i], su.listeners[j];
            && (l.delivered <= m.delivered || m.delivered <= l.delivered)
            && (Undelivered(c, store, l) == {} && Undelivered(d, other, m) == {} ==> l.delivered == m.delivered)
  {
    hide StreamInv, Undelivered, LogKeys;
    DeliversTheLog(c, store, st, i);
    DeliversTheLog(d, other, su, j);
    var l, m, ks := st.listeners[i], su.listeners[j], LogKeys(c.cv, c.traits, st.log);
    SameRange(l, m, ks);
    var all := Within(l, ks);
    assert l.delivered == all[..|l.delivered|] && m.delivered == all[..|m.delivered|];
  }

  lemma {:induction false} SameRange(l: ListenerState, m: ListenerState, ks: seq<Key>)
    requires l.begin == m.begin && l.endKey == m.endKey
    ensures Within(l, ks) == Within(m, ks)
  {
    if ks != [] {
      SameRange(l, m, ks[1..]);
    }
  }

  // ---- The head and the log over runs ----

  predicate AtLeast(a: OrderKey, b: OrderKey) {
    !KeyLess(a, b)
  }

  lemma HeadFacts(s: Sys, t: Traits)
    requires Inv(s) && t in s.streams
    ensures Fits(t, s.streams[t].head)
    ensures s.streams[t].phase.HeadStored? ==>
              && KeyLess(s.streams[t].head, s.streams[t].phase.newHead)
              && Fits(t, s.streams[t].phase.newHead)
  {
    hide ListenerInv, ComposeStorageKey, HeadStorageKey, InDataRange, IsDataKey;
    assert StreamInv(s.Ctx(t), s.store, s.streams[t]);
  }

  lemma StepMovesUp(s: Sys, a: Action, t: Traits)
    requires Inv(s) && Allowed(s, a) && t in s.streams
    ensures var s' := Apply(s, a);
            && t in s'.streams
            && AtLeast(s'.streams[t].head, s.streams[t].head)
            && AtLeast(StoredHead(s'.streams[t]), StoredHead(s.streams[t]))
            && s.streams[t].log <= s'.streams[t].log
  {
    hide Inv, OpenHead, CallSpec, NewHead;
    HeadFacts(s, t);
    if a.BeginPush? && a.t == t {
      PushRaisesHead(t, s.streams[t].head, a.primary);
    } else if a.Crash? {
      StoreRecoversHead(s, t);
    }
  }

  /** Neither head ever goes back, and the log only grows, through crashes too. */
  lemma {:induction false} HeadAndLogOnlyGrow(s: Sys, actions: seq<Action>, t: Traits)
    requires Inv(s) && Run(s, actions) && t in s.streams
    ensures var x := Exec(s, actions);
            && t in x.streams
            && AtLeast(x.streams[t].head, s.streams[t].head)
            && AtLeast(StoredHead(x.streams[t]), StoredHead(s.streams[t]))
            && s.streams[t].log <= x.streams[t].log
    decreases |actions|
  {
    hide Inv, Apply, Allowed;
    if actions != [] {
      StepKeeps(s, actions[0]);
      StepMovesUp(s, actions[0], t);
      HeadAndLogOnlyGrow(Apply(s, actions[0]), actions[1..], t);
    }
  }

  function PushSteps(t: Traits, entry: Entry): seq<Action> {
    [BeginPush(t, entry.primary, WithEntry(entry.payload)), MoveHead(t), FinishPush(t)]
  }

  lemma ThreeSteps(s: Sys, a: Action, b: Action, c: Action)
    requires Allowed(s, a) && Allowed(Apply(s, a), b) && Allowed(Apply(Apply(s, a), b), c)
    ensures Run(s, [a, b, c]) && Exec(s, [a, b, c]) == Apply(Apply(Apply(s, a), b), c)
  {
    hide Apply, Allowed;
    assert [a, b, c][1..] == [b, c] && [b, c][1..] == [c] && [c][1..] == [];
    var x := Apply(Apply(Apply(s, a), b), c);
    assert Run(x, []) && Exec(x, []) == x;
    assert Run(Apply(Apply(s, a), b), [c]) && Exec(Apply(Apply(s, a), b), [c]) == x;
    assert Run(Apply(s, a), [b, c]) && Exec(Apply(s, a), [b, c]) == x;
  }

  /** The three steps of an accepted push, taken without a crash, do what Push does: the head moves
      strictly up, the listeners stay, and the log gains the entry exactly when Push returns normally.
      It never throws for an overwrite. */
  lemma PushIsItsSteps(s: Sys, t: Traits, entry: Entry)
    requires Inv(s) && Allowed(s, BeginPush(t, entry.primary, WithEntry(entry.payload)))
    requires entry.primary >= s.streams[t].head.primary
    ensures Run(s, PushSteps(t, entry))
    ensures var x := Exec(s, PushSteps(t, entry));
            var st := s.streams[t];
            var (r, store, head) := PushSpec(s.cv, t, s.store, st.head, entry);
            && x.cv == s.cv && x.backend == s.backend && x.store == store
            && KeyLess(st.head, head) && head.primary == entry.primary
            && (r.Ok? <==> entry.payload.Some? && entry.payload.value != [])
            && r != Threw(StorageOverwriteNotAllowed)
            && x.streams == s.streams[t := st.(head := head,
                 log := st.log + LogOf(r, head, entry))]
  {
    hide Inv, ComposeStorageKey, HeadStorageKey;
    var st := s.streams[t];
    HeadFacts(s, t);
    PushRaisesHead(t, st.head, entry.primary);
    var s1 := Apply(s, BeginPush(t, entry.primary, WithEntry(entry.payload)));
    StepKeeps(s, BeginPush(t, entry.primary, WithEntry(entry.payload)));
    var s2 := Apply(s1, MoveHead(t));
    StepKeeps(s1, MoveHead(t));
    EntryKeyIsNew(s2, t);
    ThreeSteps(s, BeginPush(t, entry.primary, WithEntry(entry.payload)), MoveHead(t), FinishPush(t));
    var s3 := Apply(s2, FinishPush(t));
    var (r, _, head) := PushSpec(s.cv, t, s.store, st.head, entry);
    var st' := st.(head := head, log := st.log + LogOf(r, head, entry));
    assert st.log + [] == st.log;
    assert s3.streams[t] == st';
    assert s3.streams == s.streams[t := st'];
  }

  /** How a push ends, from what its caller passes: it changes something exactly when the primary key is
      not below the head's, stores an entry exactly when it returns, and then that entry is new. */
  lemma PushOutcome(s: Sys, t: Traits, entry: Entry)
    requires Inv(s) && Allowed(s, BeginPush(t, entry.primary, WithEntry(entry.payload)))
    ensures var before, c := s.streams[t].head, s.Ctx(t);
            var (r, store, head) := PushSpec(s.cv, t, s.store, before, entry);
            var accepted := entry.primary >= before.primary;
            && (r == Threw(OrderKeysGoBackwards) <==> !accepted)
            && (r == Threw(UnrecognizedPolymorphicType) <==> accepted && entry.payload.None?)
            && (r == Threw(StorageEmptyValue) <==> accepted && entry.payload == Some([]))
            && (r.Threw? ==> r.exception in {OrderKeysGoBackwards, UnrecognizedPolymorphicType, StorageEmptyValue})
            && (head != before <==> accepted) && (store != s.store <==> accepted)
            && (Apply(s, BeginPush(t, entry.primary, WithEntry(entry.payload))) != s <==> accepted)
            && c.DataKeys(store) == c.DataKeys(s.store) + (if r.Ok? then {ComposeStorageKey(s.cv, t, head)} else {})
            && (r.Ok? ==> ComposeStorageKey(s.cv, t, head) !in c.DataKeys(s.store))
  {
    hide Inv, ListenerInv, ComposeStorageKey, HeadStorageKey, InDataRange;
    var st, c := s.streams[t], s.Ctx(t);
    if entry.primary >= st.head.primary {
      HeadFacts(s, t);
      PushRaisesHead(t, st.head, entry.primary);
      var newHead := NewHead(t, st.head, entry.primary).value;
      var key := ComposeStorageKey(s.cv, t, newHead);
      NextKeyIsAboveAll(s, t, entry.primary);
      NamesAreValid(s, t);
      StreamsAreIsolated(s.cv, t, t);
      ComposeRoundTrip(s.cv, t, newHead);
      RangeIsPrefix(s.cv, t, key);
      LessTrichotomy(key, key);
      ComposeOrder(s.cv, t, st.head, newHead);
      HeadIsStored(s, t);
    }
  }

  lemma HeadIsStored(s: Sys, t: Traits)
    requires Inv(s) && t in s.streams
    ensures HeadStorageKey(s.cv, t) in s.store
    ensures s.store[HeadStorageKey(s.cv, t)] == ComposeStorageKey(s.cv, t, StoredHead(s.streams[t]))
  {
    hide ListenerInv, ComposeStorageKey, HeadStorageKey, InDataRange;
    assert StreamInv(s.Ctx(t), s.store, s.streams[t]);
  }

  /** The two steps of an accepted PushHead do what PushHead does and add nothing to the log. */
  lemma PushHeadIsItsSteps(s: Sys, t: Traits, primary: nat)
    requires Inv(s) && Allowed(s, BeginPush(t, primary, HeadOnly))
    requires primary >= s.streams[t].head.primary
    ensures Run(s, [BeginPush(t, primary, HeadOnly), MoveHead(t)])
    ensures var x := Exec(s, [BeginPush(t, primary, HeadOnly), MoveHead(t)]);
            var (r, store, head) := PushHeadSpec(s.cv, t, s.store, s.streams[t].head, primary);
            && r == Ok(()) && x == s.(store := store, streams := s.streams[t := s.streams[t].(head := head)])
            && KeyLess(s.streams[t].head, head) && head.primary == primary
  {
    hide Inv, ComposeStorageKey, HeadStorageKey;
    var st := s.streams[t];
    HeadFacts(s, t);
    PushRaisesHead(t, st.head, primary);
    var a, b := BeginPush(t, primary, HeadOnly), MoveHead(t);
    var s2 := Apply(Apply(s, a), b);
    assert [a, b][1..] == [b] && [b][1..] == [];
    assert Run(s2, []) && Run(Apply(s, a), [b]) && Exec(Apply(s, a), [b]) == s2;
    var (_, _, head) := PushHeadSpec(s.cv, t, s.store, st.head, primary);
    assert s2.streams == s.streams[t := st.(head := head)];
  }

  /** What a push adds to the log. */
  function LogOf(r: Result<()>, head: OrderKey, entry: Entry): seq<(OrderKey, Value)> {
    if r.Ok? && entry.payload.Some? then [(head, entry.payload.value)] else []
  }

  /** A process may stop after any write of any run. Reopening the streams from the store alone gives
      heads at or above every stored entry, equal to the lost ones unless a push had stored its HEAD
      and not moved to it. */
  lemma CrashAnywhereIsSafe(s: Sys, actions: seq<Action>, t: Traits)
    requires Inv(s) && Run(s, actions) && t in Exec(s, actions).streams
    ensures var x := Exec(s, actions);
            && Allowed(x, Crash)
            && var y := Apply(x, Crash);
               && Inv(y) && y.store == x.store && t in y.streams
               && y.streams[t].head == StoredHead(x.streams[t])
               && (!x.streams[t].phase.HeadStored? ==> y.streams[t].head == x.streams[t].head)
               && (forall k | k in y.Ctx(t).DataKeys(y.store) ::
                     AtMost(k, ComposeStorageKey(y.cv, t, y.streams[t].head)))
  {
    hide Inv, OpenHead, ComposeStorageKey, Run, Exec;
    RunKeeps(s, actions);
    var x := Exec(s, actions);
    CrashKeeps(x);
    StoreRecoversHead(x, t);
  }

  /** In every reachable state, after crashes too, the key of an accepted push is above everything
      stored in its stream. */
  lemma NextKeyIsAboveAll(s: Sys, t: Traits, primary: nat)
    requires Inv(s) && t in s.streams && primary <= Max(t.primaryWidth)
    requires NewHead(t, s.streams[t].head, primary).Ok? && NoWrap(t, s.streams[t].head, primary)
    ensures forall k | k in s.Ctx(t).DataKeys(s.store) ::
              Less(k, ComposeStorageKey(s.cv, t, NewHead(t, s.streams[t].head, primary).value))
  {
    hide ListenerInv, ComposeStorageKey, HeadStorageKey, InDataRange, IsDataKey, NewHead;
    var head, next := s.streams[t].head, NewHead(t, s.streams[t].head, primary).value;
    assert StreamInv(s.Ctx(t), s.store, s.streams[t]);
    PushRaisesHead(t, head, primary);
    ComposeOrder(s.cv, t, head, next);
    forall k | k in s.Ctx(t).DataKeys(s.store) ensures Less(k, ComposeStorageKey(s.cv, t, next)) {
      if k != ComposeStorageKey(s.cv, t, head) {
        LessTransitive(k, ComposeStorageKey(s.cv, t, head), ComposeStorageKey(s.cv, t, next));
      }
    }
  }

  // ---- Runs that leave a listener alone ----

  predicate LeavesAlone(a: Action, t: Traits, id: nat) {
    !a.Crash? && !(a.On? && a.t == t && a.id == id)
  }

  /** A step that does not call a listener changes nothing of it, and removes no entry of its stream. */
  lemma StepAroundListener(s: Sys, a: Action, t: Traits, id: nat)
    requires Inv(s) && Allowed(s, a) && Has(s, t, id) && LeavesAlone(a, t, id)
    ensures var s' := Apply(s, a);
            && Has(s', t, id)
            && s'.cv == s.cv && s'.backend == s.backend
            && s'.streams[t].listeners[id] == s.streams[t].listeners[id]
            && s.Ctx(t).DataKeys(s.store) <= s.Ctx(t).DataKeys(s'.store)
  {
    hide Inv, ComposeStorageKey, HasDataSpec, HeadStorageKey;
  }

  lemma {:induction false} RunAroundListener(s: Sys, actions: seq<Action>, t: Traits, id: nat)
    requires Inv(s) && Run(s, actions) && Has(s, t, id)
    requires forall a | a in actions :: LeavesAlone(a, t, id)
    ensures var x := Exec(s, actions);
            && Inv(x) && Has(x, t, id)
            && x.cv == s.cv && x.backend == s.backend
            && x.streams[t].listeners[id] == s.streams[t].listeners[id]
            && s.Ctx(t).DataKeys(s.store) <= s.Ctx(t).DataKeys(x.store)
    decreases |actions|
  {
    if actions != [] {
      StepKeeps(s, actions[0]);
      StepAroundListener(s, actions[0], t, id);
      RunAroundListener(Apply(s, actions[0]), actions[1..], t, id);
    }
  }

  lemma ListenerFacts(s: Sys, t: Traits, id: nat)
    requires Inv(s) && Has(s, t, id)
    ensures ListenerInv(s.Ctx(t), s.store, s.streams[t].listeners[id])
  {
    hide ListenerInv, ComposeStorageKey, HeadStorageKey, InDataRange, IsDataKey;
    assert StreamInv(s.Ctx(t), s.store, s.streams[t]);
  }

  lemma NamesAreValid(s: Sys, t: Traits)
    requires Inv(s) && t in s.streams
    ensures ValidConfig(s.cv) && ValidName(s.cv, t)
  {
    hide StreamInv;
  }

  /** The entry of a push that returned is above every entry stored before. */
  lemma PushedEntryIsLast(s: Sys, t: Traits, entry: Entry)
    requires Inv(s) && Allowed(s, BeginPush(t, entry.primary, WithEntry(entry.payload)))
    requires entry.primary >= s.streams[t].head.primary
    requires entry.payload.Some? && entry.payload.value != []
    ensures var (_, store, head) := PushSpec(s.cv, t, s.store, s.streams[t].head, entry);
            var key := ComposeStorageKey(s.cv, t, head);
            && key in s.Ctx(t).DataKeys(store)
            && forall k | k in s.Ctx(t).DataKeys(s.store) :: Less(k, key)
  {
    hide Inv, ComposeStorageKey, HeadStorageKey;
    HeadFacts(s, t);
    PushRaisesHead(t, s.streams[t].head, entry.primary);
    var s1 := Apply(s, BeginPush(t, entry.primary, WithEntry(entry.payload)));
    StepKeeps(s, BeginPush(t, entry.primary, WithEntry(entry.payload)));
    var s2 := Apply(s1, MoveHead(t));
    StepKeeps(s1, MoveHead(t));
    EntryKeyIsNew(s2, t);
    NamesAreValid(s, t);
    StreamsAreIsolated(s.cv, t, t);
  }

  // ---- The end of a bounded listener ----

  lemma StepAfterEnd(s: Sys, a: Action, t: Traits, id: nat)
    requires Allowed(s, a) && Has(s, t, id) && !a.Crash?
    requires s.streams[t].listeners[id].reachedEnd
    ensures var s' := Apply(s, a);
            && Has(s', t, id)
            && s'.streams[t].listeners[id] == s.streams[t].listeners[id]
  {
    hide ComposeStorageKey, HeadStorageKey, InDataRange;
  }

  /** Until its process crashes the listener itself stays as it is, the flag included. */
  lemma {:induction false} ReachedEndStays(s: Sys, actions: seq<Action>, t: Traits, id: nat)
    requires Inv(s) && Run(s, actions) && Has(s, t, id)
    requires s.streams[t].listeners[id].reachedEnd
    requires Crash !in actions
    ensures var x := Exec(s, actions);
            && Inv(x) && Has(x, t, id)
            && x.streams[t].listeners[id] == s.streams[t].listeners[id]
    decreases |actions|
  {
    hide Inv, Apply, Allowed;
    if actions != [] {
      StepKeeps(s, actions[0]);
      StepAfterEnd(s, actions[0], t, id);
      ReachedEndStays(Apply(s, actions[0]), actions[1..], t, id);
    }
  }

  /** However the run goes on, through crashes too, the stream never gets another entry inside the range
      of a listener that has reached its end, and all those it has were delivered. */
  lemma ReachedEndIsFinal(s: Sys, actions: seq<Action>, t: Traits, id: nat)
    requires Inv(s) && Run(s, actions) && Has(s, t, id)
    requires s.streams[t].listeners[id].reachedEnd
    ensures var c, l, x := s.Ctx(t), s.streams[t].listeners[id], Exec(s, actions);
            && t in x.streams
            && Window(c, x.store, l) == Window(c, s.store, l)
            && l.delivered == Sorted(Window(c, x.store, l))
            && l.delivered == Within(l, LogKeys(x.cv, t, x.streams[t].log))
  {
    hide Inv, ListenerInv, InDataRange, LogKeys;
    var c, l, x := s.Ctx(t), s.streams[t].listeners[id], Exec(s, actions);
    RunKeeps(s, actions);
    ListenerFacts(s, t, id);
    EntriesAreKept(s, actions, t);
    NewEntriesAreAbove(s, actions, t);
    NothingJoins(c, s.store, x.store, l);
    LogListsTheStore(x, t);
    SortedIsAscendingListing(c.DataKeys(x.store));
    WithinKeeps(l, LogKeys(x.cv, t, x.streams[t].log));
    SortedIsUnique(Within(l, LogKeys(x.cv, t, x.streams[t].log)), Window(c, x.store, l));
  }

  lemma NothingJoins(c: Context, store: Store, store': Store, l: ListenerState)
    requires ListenerInv(c, store, l) && l.reachedEnd
    requires c.DataKeys(store) <= c.DataKeys(store')
    requires forall j, k | j in c.DataKeys(store) && k in c.DataKeys(store') && k !in c.DataKeys(store) :: Less(j, k)
    ensures Window(c, store', l) == Window(c, store, l)
    ensures l.delivered == Sorted(Window(c, store, l))
  {
    hide InDataRange, IteratorInv;
    DeliveredThenUndelivered(c, store, l);
    assert Sorted(Undelivered(c, store, l)) == [];
    var z :| z in c.DataKeys(store) && !Less(z, l.endKey.value);
    Order();
    assert forall k | k in Window(c, store', l) :: !Less(z, k);
  }

  // ---- Processing and advancing ----

  predicate DoesNotAdvance(a: Action, t: Traits, id: nat) {
    !a.Crash? && !(a.On? && a.t == t && a.id == id && a.call.AdvanceToNextEntry?)
  }

  /** The listener's iterator stands on this key. */
  predicate StandsOn(l: ListenerState, m: Key) {
    !l.reachedEnd && l.iter.Some? && !l.iter.value.Done() && l.iter.value.at == Some(m) && l.BeforeEnd(m)
  }

  lemma StepWhileStanding(s: Sys, a: Action, t: Traits, id: nat, m: Key)
    requires Allowed(s, a) && Has(s, t, id) && DoesNotAdvance(a, t, id)
    requires StandsOn(s.streams[t].listeners[id], m)
    ensures var s' := Apply(s, a);
            && Has(s', t, id)
            && s'.cv == s.cv && s'.backend == s.backend
            && s'.streams[t].listeners[id] == s.streams[t].listeners[id]
  {
    hide ComposeStorageKey, HeadStorageKey, InDataRange;
  }

  lemma {:induction false} RunWhileStanding(s: Sys, actions: seq<Action>, t: Traits, id: nat, m: Key)
    requires Inv(s) && Run(s, actions) && Has(s, t, id)
    requires forall a | a in actions :: DoesNotAdvance(a, t, id)
    requires StandsOn(s.streams[t].listeners[id], m)
    ensures var x := Exec(s, actions);
            && Inv(x) && Has(x, t, id)
            && x.cv == s.cv && x.backend == s.backend
            && x.streams[t].listeners[id] == s.streams[t].listeners[id]
    decreases |actions|
  {
    hide Inv, Apply, Allowed, StandsOn, DoesNotAdvance;
    if actions != [] {
      StepKeeps(s, actions[0]);
      StepWhileStanding(s, actions[0], t, id, m);
      RunWhileStanding(Apply(s, actions[0]), actions[1..], t, id, m);
    }
  }

  /** AdvanceToNextEntry passes exactly the entry that ProcessEntrySync handed over, whatever was
      pushed, asked or processed in between, by the processor or by anyone else. */
  lemma AdvancePassesWhatWasProcessed(s: Sys, actions: seq<Action>, t: Traits, id: nat)
    requires Inv(s) && Has(s, t, id) && Allowed(s, On(t, id, ProcessEntry))
    requires HasDataSpec(s.Ctx(t), s.store, s.streams[t].listeners[id]).0
    requires Run(Apply(s, On(t, id, ProcessEntry)), actions)
    requires forall a | a in actions :: DoesNotAdvance(a, t, id)
    ensures var c, l := s.Ctx(t), s.streams[t].listeners[id];
            var x := Exec(Apply(s, On(t, id, ProcessEntry)), actions);
            && Undelivered(c, s.store, l) != {}
            && Has(x, t, id)
            && var (r, l') := AdvanceSpec(x.Ctx(t), x.store, x.streams[t].listeners[id]);
               r.Ok? && l'.delivered == l.delivered + [Least(Undelivered(c, s.store, l))]
  {
    hide Inv, ListenerInv, ComposeStorageKey, HeadStorageKey, InDataRange, Run, Exec, Undelivered;
    var c, l := s.Ctx(t), s.streams[t].listeners[id];
    ListenerFacts(s, t, id);
    HasDataExact(c, s.store, l);
    LeastUnique(Undelivered(c, s.store, l));
    StepKeeps(s, On(t, id, ProcessEntry));
    RunWhileStanding(Apply(s, On(t, id, ProcessEntry)), actions, t, id, Least(Undelivered(c, s.store, l)));
  }

  // ---- Streams do not interfere ----

  predicate IsForeign(a: Action, t: Traits) {
    !a.Crash? && a.t != t
  }

  lemma StepElsewhere(s: Sys, a: Action, t: Traits)
    requires Inv(s) && Allowed(s, a) && t in s.streams && IsForeign(a, t)
    ensures var s' := Apply(s, a);
            && t in s'.streams && s'.streams[t] == s.streams[t]
            && s'.cv == s.cv && s'.backend == s.backend
            && Untouched(s.Ctx(t), s.store, s'.store)
  {
    hide Inv, Untouched, CallSpec, NewListener, ComposeStorageKey, HeadStorageKey, InDataRange;
    SameStoreUntouched(s.Ctx(t), s.store);
    if a.BeginPush? && NewHead(a.t, s.streams[a.t].head, a.primary).Ok? {
      var newHead := NewHead(a.t, s.streams[a.t].head, a.primary).value;
      OthersUntouched(s, a.t, t, HeadStorageKey(s.cv, a.t), ComposeStorageKey(s.cv, a.t, newHead));
    } else if a.FinishPush? && WriteEntry(s, a.t).Ok? {
      EntryKeyIsNew(s, a.t);
      OthersUntouched(s, a.t, t, ComposeStorageKey(s.cv, a.t, s.streams[a.t].head),
                      s.streams[a.t].phase.payload.value);
    }
  }

  lemma SameStoreUntouched(c: Context, store: Store)
    ensures Untouched(c, store, store)
  {
  }

  lemma UntouchedTwice(c: Context, a: Store, b: Store, d: Store)
    requires Untouched(c, a, b) && Untouched(c, b, d)
    ensures Untouched(c, a, d)
  {
    hide InDataRange, HeadStorageKey;
  }

  /** Any run on other streams leaves a stream's head, lock, log and listeners as they are, and its
      HEAD record and entries in the store too. */
  lemma {:induction false} OtherStreamsDoNotMatter(s: Sys, actions: seq<Action>, t: Traits)
    requires Inv(s) && Run(s, actions) && t in s.streams
    requires forall a | a in actions :: IsForeign(a, t)
    ensures var x := Exec(s, actions);
            && Inv(x) && t in x.streams && x.streams[t] == s.streams[t]
            && x.cv == s.cv && x.backend == s.backend
            && Untouched(s.Ctx(t), s.store, x.store)
    decreases |actions|
  {
    hide Inv, Apply, Allowed, Untouched, IsForeign;
    SameStoreUntouched(s.Ctx(t), s.store);
    if actions != [] {
      StepKeeps(s, actions[0]);
      StepElsewhere(s, actions[0], t);
      OtherStreamsDoNotMatter(Apply(s, actions[0]), actions[1..], t);
      UntouchedTwice(s.Ctx(t), s.store, Apply(s, actions[0]).store, Exec(s, actions).store);
    }
  }

  // ---- The log is append-only ----

  lemma StepAppendsOnly(s: Sys, a: Action, t: Traits)
    requires Inv(s) && Allowed(s, a) && t in s.streams
    ensures var s' := Apply(s, a);
            && t in s'.streams && s'.cv == s.cv && s'.backend == s.backend
            && forall k | k in s.Ctx(t).DataKeys(s.store) ::
                 k in s.Ctx(t).DataKeys(s'.store) && s'.store[k] == s.store[k]
  {
    hide Inv, CallSpec, NewListener, ComposeStorageKey, HeadStorageKey, InDataRange;
    if IsForeign(a, t) {
      StepElsewhere(s, a, t);
    } else if a.BeginPush? {
      NamesAreValid(s, t);
      StreamsAreIsolated(s.cv, t, t);
    } else if a.FinishPush? {
      EntryKeyIsNew(s, t);
    }
  }

  /** No run ever removes or changes a stored entry. */
  lemma {:induction false} EntriesAreKept(s: Sys, actions: seq<Action>, t: Traits)
    requires Inv(s) && Run(s, actions) && t in s.streams
    ensures var x := Exec(s, actions);
            && t in x.streams && x.cv == s.cv && x.backend == s.backend
            && forall k | k in s.Ctx(t).DataKeys(s.store) ::
                 k in s.Ctx(t).DataKeys(x.store) && x.store[k] == s.store[k]
    decreases |actions|
  {
    hide Inv, Apply, Allowed, InDataRange;
    if actions != [] {
      StepKeeps(s, actions[0]);
      StepAppendsOnly(s, actions[0], t);
      EntriesAreKept(Apply(s, actions[0]), actions[1..], t);
    }
  }

  lemma LogListsTheStore(s: Sys, t: Traits)
    requires Inv(s) && t in s.streams
    ensures LogKeys(s.cv, t, s.streams[t].log) == Sorted(s.Ctx(t).DataKeys(s.store))
    ensures forall e | e in s.streams[t].log :: Fits(t, e.0) && IsStored(s.cv, t, s.store, e)
  {
    hide ListenerInv, ComposeStorageKey, HeadStorageKey, InDataRange;
    assert StreamInv(s.Ctx(t), s.store, s.streams[t]);
  }

  /** What a run stores in a stream lies above everything stored in it before. */
  lemma NewEntriesAreAbove(s: Sys, actions: seq<Action>, t: Traits)
    requires Inv(s) && Run(s, actions) && t in s.streams
    ensures var c, x := s.Ctx(t), Exec(s, actions);
            forall j, k | j in c.DataKeys(s.store) && k in c.DataKeys(x.store) && k !in c.DataKeys(s.store) ::
              Less(j, k)
  {
    hide Inv, InDataRange, ComposeStorageKey;
    var c, x := s.Ctx(t), Exec(s, actions);
    RunKeeps(s, actions);
    EntriesAreKept(s, actions, t);
    HeadAndLogOnlyGrow(s, actions, t);
    LogListsTheStore(s, t);
    LogListsTheStore(x, t);
    SortedIsAscendingListing(c.DataKeys(s.store));
    SortedIsAscendingListing(c.DataKeys(x.store));
    PrefixLiesBelow(LogKeys(s.cv, t, s.streams[t].log), LogKeys(x.cv, t, x.streams[t].log));
  }

  lemma PrefixLiesBelow(ks: seq<Key>, all: seq<Key>)
    requires ks <= all && Ascending(all)
    ensures forall j, k | j in ks && k in all && k !in ks :: Less(j, k)
  {
    forall j, k | j in ks && k in all && k !in ks ensures Less(j, k) {
      var b :| 0 <= b < |all| && all[b] == k;
      var a :| 0 <= a < |ks| && ks[a] == j;
      assert all[a] == j;
    }
  }
}
