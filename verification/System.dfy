/** Streams, publishers and listeners over one shared store, as a state machine. One step of a push
    is one storage or memory write, so that a crash or an exception between two of them is a state
    of the machine. Listener calls are single steps: they run under the stream's lock, which a push
    holds from its first write to its last. */
module System {
  import opened Common
  import opened Lex
  import opened FixedSizeSerializer
  import opened OrderKeys
  import opened Storage
  import opened Publisher
  import opened Listener

  /** PushHead has no entry; Push has one, whose serializer may throw. */
  datatype Job = HeadOnly | WithEntry(payload: Option<Value>)

  /** How far the push that holds the stream's lock has come. */
  datatype Phase =
    | Idle
    | HeadStored(newHead: OrderKey, job: Job)
    | HeadMoved(payload: Option<Value>)

  /** The log is history: the entries found at start-up, then those pushed, in that order. */
  datatype StreamState = StreamState(
    head: OrderKey,
    phase: Phase,
    listeners: map<nat, ListenerState>,
    log: seq<(OrderKey, Value)>)

  datatype Sys = Sys(cv: ConfigValues, backend: Backend, store: Store, streams: map<Traits, StreamState>)
  {
    function Ctx(t: Traits): Context {
      Context(cv, t, backend)
    }
  }

  datatype Call = HasData | ReachedEnd | ProcessEntry | AdvanceToNextEntry

  datatype Action =
    | BeginPush(t: Traits, primary: nat, job: Job)
    | MoveHead(t: Traits)
    | FinishPush(t: Traits)
    | Listen(t: Traits, id: nat, begin: OrderKey, end: Option<OrderKey>)
    | On(t: Traits, id: nat, call: Call)
    | Crash

  // ---- Steps ----

  function CallSpec(c: Context, store: Store, l: ListenerState, call: Call): ListenerState {
    match call
    case HasData => HasDataSpec(c, store, l).1
    case ReachedEnd => ReachedEndSpec(c, store, l).1
    case ProcessEntry => HasDataSpec(c, store, l).1
    case AdvanceToNextEntry => AdvanceSpec(c, store, l).1
  }

  predicate Reopens(s: Sys, t: Traits) {
    && (HeadStorageKey(s.cv, t) in s.store ==> Readable(s.cv, t, s.store[HeadStorageKey(s.cv, t)]))
    && OpenHead(s.cv, t, s.store).Ok?
  }

  /** When a step can be taken: arguments are values of their types, the stream's lock is free or
      held by this very push, and the secondary key does not wrap. */
  predicate Allowed(s: Sys, a: Action) {
    match a
    case BeginPush(t, primary, _) =>
      && t in s.streams && s.streams[t].phase.Idle?
      && primary <= Max(t.primaryWidth) && NoWrap(t, s.streams[t].head, primary)
    case MoveHead(t) => t in s.streams && s.streams[t].phase.HeadStored?
    case FinishPush(t) => t in s.streams && s.streams[t].phase.HeadMoved?
    case Listen(t, id, begin, end) =>
      && t in s.streams && id !in s.streams[t].listeners
      && Fits(t, begin) && (end.Some? ==> Fits(t, end.value))
    case On(t, id, _) => t in s.streams && s.streams[t].phase.Idle? && id in s.streams[t].listeners
    case Crash => forall t | t in s.streams :: Reopens(s, t)
  }

  function BeginPushStep(s: Sys, t: Traits, primary: nat, job: Job): Sys
    requires t in s.streams
  {
    match NewHead(t, s.streams[t].head, primary)
    case Threw(_) => s
    case Ok(newHead) =>
      s.(store := StoreHead(s.cv, t, s.store, newHead),
         streams := s.streams[t := s.streams[t].(phase := HeadStored(newHead, job))])
  }

  function MoveHeadStep(st: StreamState): StreamState
    requires st.phase.HeadStored?
  {
    st.(head := st.phase.newHead,
        phase := if st.phase.job.HeadOnly? then Idle else HeadMoved(st.phase.job.payload))
  }

  /** The data write, or the exception of the serializer or of the storage. */
  function WriteEntry(s: Sys, t: Traits): Result<Store>
    requires t in s.streams && s.streams[t].phase.HeadMoved?
  {
    var st := s.streams[t];
    if st.phase.payload.None? then Threw(UnrecognizedPolymorphicType)
    else SetSpec(s.store, ComposeStorageKey(s.cv, t, st.head), st.phase.payload.value, false)
  }

  function FinishPushStep(s: Sys, t: Traits): Sys
    requires t in s.streams && s.streams[t].phase.HeadMoved?
  {
    var st := s.streams[t].(phase := Idle);
    match WriteEntry(s, t)
    case Threw(_) => s.(streams := s.streams[t := st])
    case Ok(store) =>
      var entry := (st.head, s.streams[t].phase.payload.value);
      s.(store := store, streams := s.streams[t := st.(log := st.log + [entry])])
  }

  /** A process that starts over has the store, and opens each stream from it. */
  function Restarted(s: Sys, t: Traits): StreamState
    requires t in s.streams && Reopens(s, t)
  {
    s.streams[t].(head := OpenHead(s.cv, t, s.store).value, phase := Idle, listeners := map[])
  }

  function Apply(s: Sys, a: Action): Sys
    requires Allowed(s, a)
  {
    match a
    case BeginPush(t, primary, job) => BeginPushStep(s, t, primary, job)
    case MoveHead(t) => s.(streams := s.streams[t := MoveHeadStep(s.streams[t])])
    case FinishPush(t) => FinishPushStep(s, t)
    case Listen(t, id, begin, end) =>
      var st := s.streams[t];
      var l := NewListener(s.Ctx(t), begin, end);
      s.(streams := s.streams[t := st.(listeners := st.listeners[id := l])])
    case On(t, id, call) =>
      var st := s.streams[t];
      var l := CallSpec(s.Ctx(t), s.store, st.listeners[id], call);
      s.(streams := s.streams[t := st.(listeners := st.listeners[id := l])])
    case Crash => s.(streams := map t | t in s.streams :: Restarted(s, t))
  }

  predicate Run(s: Sys, actions: seq<Action>)
    decreases |actions|
  {
    actions == [] || (Allowed(s, actions[0]) && Run(Apply(s, actions[0]), actions[1..]))
  }

  function Exec(s: Sys, actions: seq<Action>): Sys
    requires Run(s, actions)
    decreases |actions|
  {
    if actions == [] then s else Exec(Apply(s, actions[0]), actions[1..])
  }

  // ---- What every reachable state keeps ----

  /** The storage keys of the entries in the log. */
  function LogKeys(cv: ConfigValues, t: Traits, log: seq<(OrderKey, Value)>): seq<Key> {
    seq(|log|, i requires 0 <= i < |log| => ComposeStorageKey(cv, t, log[i].0))
  }

  /** The entry stored under a key, with the key decomposed. */
  function EntryAt(cv: ConfigValues, t: Traits, store: Store, k: Key): (OrderKey, Value)
    requires IsDataKey(cv, t, k) && k in store
  {
    (DecomposeStorageKey(cv, t, k).value, store[k])
  }

  predicate IsStored(cv: ConfigValues, t: Traits, store: Store, entry: (OrderKey, Value)) {
    && Fits(t, entry.0)
    && ComposeStorageKey(cv, t, entry.0) in store
    && store[ComposeStorageKey(cv, t, entry.0)] == entry.1
  }

  /** The HEAD record: the head in memory, or the one a push has stored and not yet moved to. */
  function StoredHead(st: StreamState): OrderKey {
    if st.phase.HeadStored? then st.phase.newHead else st.head
  }

  predicate StreamInv(c: Context, store: Store, st: StreamState) {
    && Fits(c.traits, st.head) && Fits(c.traits, StoredHead(st))
    && (st.phase.HeadStored? ==> KeyLess(st.head, st.phase.newHead))
    && HeadStorageKey(c.cv, c.traits) in store
    && store[HeadStorageKey(c.cv, c.traits)] == ComposeStorageKey(c.cv, c.traits, StoredHead(st))
    && (forall k | k in c.DataKeys(store) ::
          if st.phase.HeadMoved? then Less(k, ComposeStorageKey(c.cv, c.traits, st.head))
          else AtMost(k, ComposeStorageKey(c.cv, c.traits, st.head)))
    && LogKeys(c.cv, c.traits, st.log) == Sorted(c.DataKeys(store))
    && (forall e | e in st.log :: IsStored(c.cv, c.traits, store, e))
    && (forall id | id in st.listeners :: ListenerInv(c, store, st.listeners[id]))
  }

  predicate Inv(s: Sys) {
    && ValidConfig(s.cv)
    && (forall t, u | t in s.streams && u in s.streams && t.name == u.name :: t == u)
    && (forall t | t in s.streams :: ValidName(s.cv, t) && StreamInv(s.Ctx(t), s.store, s.streams[t]))
  }

  /** Nothing of this stream differs between two stores that only ever gain keys. */
  predicate Untouched(c: Context, store: Store, store': Store) {
    && (forall k | k in store :: k in store')
    && (forall k | k in store' && k !in store :: !c.InRange(k))
    && (forall k | k in store && (c.InRange(k) || k == HeadStorageKey(c.cv, c.traits)) :: store'[k] == store[k])
  }

  lemma UntouchedKeeps(c: Context, store: Store, store': Store, st: StreamState)
    requires StreamInv(c, store, st) && Untouched(c, store, store')
    ensures StreamInv(c, store', st)
    ensures c.DataKeys(store') == c.DataKeys(store)
  {
    assert c.DataKeys(store') == c.DataKeys(store);
    LogIsListing(c, store, st);
    ListenersKeep(c, store, store', st);
  }

  /** The log and the stored entries are the same. */
  lemma LogIsListing(c: Context, store: Store, st: StreamState)
    requires StreamInv(c, store, st)
    ensures forall e | e in st.log :: ComposeStorageKey(c.cv, c.traits, e.0) in c.DataKeys(store)
    ensures forall k | k in c.DataKeys(store) :: IsDataKey(c.cv, c.traits, k)
  {
    hide ListenerInv, ComposeStorageKey, HeadStorageKey, InDataRange, IsDataKey;
    SortedIsAscendingListing(c.DataKeys(store));
    var keys := LogKeys(c.cv, c.traits, st.log);
    forall e | e in st.log ensures ComposeStorageKey(c.cv, c.traits, e.0) in c.DataKeys(store) {
      var i :| 0 <= i < |st.log| && st.log[i] == e;
      assert keys[i] == ComposeStorageKey(c.cv, c.traits, e.0);
    }
    forall k | k in c.DataKeys(store) ensures IsDataKey(c.cv, c.traits, k) {
      var i :| 0 <= i < |keys| && keys[i] == k;
      assert st.log[i] in st.log;
      ComposeRoundTrip(c.cv, c.traits, st.log[i].0);
    }
  }

  /** Writing a key of one stream leaves the others untouched. */
  lemma OthersUntouched(s: Sys, t: Traits, u: Traits, k: Key, v: Value)
    requires Inv(s) && t in s.streams && u in s.streams && t != u
    requires s.Ctx(t).InRange(k) || k == HeadStorageKey(s.cv, t)
    ensures Untouched(s.Ctx(u), s.store, s.store[k := v])
  {
    hide StreamInv, HeadStorageKey, InDataRange;
    StreamsAreIsolated(s.cv, u, t);
    StreamsAreIsolated(s.cv, t, u);
  }

  // ---- Each step keeps the invariant ----

  /** A HEAD write moves the stored head strictly up and touches no entry. */
  lemma BeginPushKeeps(s: Sys, t: Traits, primary: nat, job: Job)
    requires Inv(s) && Allowed(s, BeginPush(t, primary, job))
    ensures Inv(Apply(s, BeginPush(t, primary, job)))
  {
    hide ListenerInv, ComposeStorageKey, InDataRange, IsDataKey;
    var st, c := s.streams[t], s.Ctx(t);
    PushRaisesHead(t, st.head, primary);
    if NewHead(t, st.head, primary).Ok? {
      var newHead := NewHead(t, st.head, primary).value;
      var s' := BeginPushStep(s, t, primary, job);
      StreamsAreIsolated(s.cv, t, t);
      assert c.DataKeys(s'.store) == c.DataKeys(s.store);
      LogIsListing(c, s.store, st);
      ListenersKeep(c, s.store, s'.store, st);
      assert StreamInv(c, s'.store, s'.streams[t]);
      OthersKeep(s, s', t, HeadStorageKey(s.cv, t), ComposeStorageKey(s.cv, t, newHead));
    }
  }

  lemma OthersKeep(s: Sys, s': Sys, t: Traits, k: Key, v: Value)
    requires Inv(s) && t in s.streams
    requires s.Ctx(t).InRange(k) || k == HeadStorageKey(s.cv, t)
    requires s'.cv == s.cv && s'.backend == s.backend && s'.store == s.store[k := v]
    requires t in s'.streams && s'.streams == s.streams[t := s'.streams[t]]
    requires StreamInv(s'.Ctx(t), s'.store, s'.streams[t])
    ensures Inv(s')
  {
    hide StreamInv, HeadStorageKey, InDataRange, Untouched;
    forall u | u in s'.streams ensures StreamInv(s'.Ctx(u), s'.store, s'.streams[u]) {
      if u != t {
        OthersUntouched(s, t, u, k, v);
        UntouchedKeeps(s.Ctx(u), s.store, s'.store, s.streams[u]);
      }
    }
  }

  lemma MoveHeadKeeps(s: Sys, t: Traits)
    requires Inv(s) && Allowed(s, MoveHead(t))
    ensures Inv(Apply(s, MoveHead(t)))
  {
    hide ListenerInv, ComposeStorageKey, HeadStorageKey, InDataRange, IsDataKey;
    var st, c := s.streams[t], s.Ctx(t);
    ComposeOrder(s.cv, t, st.head, st.phase.newHead);
    forall k | k in c.DataKeys(s.store)
      ensures Less(k, ComposeStorageKey(s.cv, t, st.phase.newHead)) {
      if k != ComposeStorageKey(s.cv, t, st.head) {
        LessTransitive(k, ComposeStorageKey(s.cv, t, st.head), ComposeStorageKey(s.cv, t, st.phase.newHead));
      }
    }
  }

  /** The entry's key is above every stored entry of its stream, so its Set is never refused for an
      overwrite: it throws only for an empty payload. */
  lemma EntryKeyIsNew(s: Sys, t: Traits)
    requires Inv(s) && t in s.streams && s.streams[t].phase.HeadMoved?
    ensures var key := ComposeStorageKey(s.cv, t, s.streams[t].head);
            && s.Ctx(t).InRange(key)
            && key !in s.store
            && key != []
            && (forall k | k in s.Ctx(t).DataKeys(s.store) :: Less(k, key))
    ensures WriteEntry(s, t).Threw? <==>
              s.streams[t].phase.payload.None? || s.streams[t].phase.payload.value == []
    ensures WriteEntry(s, t) != Threw(StorageOverwriteNotAllowed)
  {
    var key := ComposeStorageKey(s.cv, t, s.streams[t].head);
    ComposeRoundTrip(s.cv, t, s.streams[t].head);
    RangeIsPrefix(s.cv, t, key);
    LessTrichotomy(key, key);
    assert key !in s.Ctx(t).DataKeys(s.store);
  }

  /** Appending the largest key keeps the listing, the log and every listener. */
  lemma EntryWritten(c: Context, store: Store, st: StreamState, key: Key, v: Value)
    requires ValidConfig(c.cv) && ValidName(c.cv, c.traits)
    requires StreamInv(c, store, st) && st.phase.HeadMoved?
    requires key == ComposeStorageKey(c.cv, c.traits, st.head)
    requires c.InRange(key) && key !in store
    requires forall k | k in c.DataKeys(store) :: Less(k, key)
    ensures StreamInv(c, store[key := v], st.(phase := Idle, log := st.log + [(st.head, v)]))
  {
    hide ComposeStorageKey, InDataRange, ListenerInv, LogKeys, IsStored;
    var store' := store[key := v];
    var headKey := HeadStorageKey(c.cv, c.traits);
    assert store'[headKey] == store[headKey] by {
      StreamsAreIsolated(c.cv, c.traits, c.traits);
    }
    assert c.DataKeys(store') == c.DataKeys(store) + {key};
    LogAppended(c, store, st, key, v);
    ListenersKeep(c, store, store', st);
  }

  lemma LogAppended(c: Context, store: Store, st: StreamState, key: Key, v: Value)
    requires StreamInv(c, store, st) && key !in store
    requires key == ComposeStorageKey(c.cv, c.traits, st.head)
    requires forall k | k in c.DataKeys(store) :: Less(k, key)
    ensures LogKeys(c.cv, c.traits, st.log + [(st.head, v)]) == Sorted(c.DataKeys(store) + {key})
    ensures forall e | e in st.log + [(st.head, v)] :: IsStored(c.cv, c.traits, store[key := v], e)
  {
    hide ListenerInv, ComposeStorageKey, HeadStorageKey, InDataRange;
    SortedAppend(c.DataKeys(store), key);
    assert LogKeys(c.cv, c.traits, st.log + [(st.head, v)]) == LogKeys(c.cv, c.traits, st.log) + [key];
  }

  lemma ListenersKeep(c: Context, store: Store, store': Store, st: StreamState)
    requires StreamInv(c, store, st)
    requires forall k | k in store :: k in store'
    requires forall k | k in c.DataKeys(store) :: store'[k] == store[k]
    requires forall j, k | j in c.DataKeys(store) && k in c.DataKeys(store') && k !in store :: Less(j, k)
    ensures forall id | id in st.listeners :: ListenerInv(c, store', st.listeners[id])
  {
    hide ListenerInv, ComposeStorageKey, HeadStorageKey, InDataRange, IsDataKey;
    forall id | id in st.listeners ensures ListenerInv(c, store', st.listeners[id]) {
      StoreGrows(c, store, store', st.listeners[id]);
    }
  }

  lemma FinishPushKeeps(s: Sys, t: Traits)
    requires Inv(s) && Allowed(s, FinishPush(t))
    ensures Inv(Apply(s, FinishPush(t)))
  {
    EntryKeyIsNew(s, t);
    var st := s.streams[t];
    var s' := FinishPushStep(s, t);
    if WriteEntry(s, t).Ok? {
      var key := ComposeStorageKey(s.cv, t, st.head);
      EntryWritten(s.Ctx(t), s.store, st, key, st.phase.payload.value);
      OthersKeep(s, s', t, key, st.phase.payload.value);
    } else {
      SameStoreKeeps(s, s', t);
    }
  }

  lemma SameStoreKeeps(s: Sys, s': Sys, t: Traits)
    requires Inv(s) && t in s.streams && t in s'.streams
    requires s' == s.(streams := s.streams[t := s'.streams[t]])
    requires StreamInv(s.Ctx(t), s.store, s'.streams[t])
    ensures Inv(s')
  {
    hide StreamInv;
  }

  lemma CallKeeps(c: Context, store: Store, l: ListenerState, call: Call)
    requires ListenerInv(c, store, l)
    ensures ListenerInv(c, store, CallSpec(c, store, l, call))
  {
    HasDataExact(c, store, l);
    AdvanceExact(c, store, l);
  }

  lemma ListenKeeps(s: Sys, t: Traits, id: nat, begin: OrderKey, end: Option<OrderKey>)
    requires Inv(s) && Allowed(s, Listen(t, id, begin, end))
    ensures Inv(Apply(s, Listen(t, id, begin, end)))
  {
    hide ListenerInv, NewListener, ComposeStorageKey, HeadStorageKey, IsDataKey;
    NewListenerInv(s.Ctx(t), s.store, begin, end);
    SameStoreKeeps(s, Apply(s, Listen(t, id, begin, end)), t);
  }

  lemma OnKeeps(s: Sys, t: Traits, id: nat, call: Call)
    requires Inv(s) && Allowed(s, On(t, id, call))
    ensures Inv(Apply(s, On(t, id, call)))
  {
    hide ListenerInv, CallSpec, ComposeStorageKey, HeadStorageKey, IsDataKey;
    CallKeeps(s.Ctx(t), s.store, s.streams[t].listeners[id], call);
    SameStoreKeeps(s, Apply(s, On(t, id, call)), t);
  }

  /** The store alone gives the head back: exactly the head in memory when no push is under way, and
      never one below it or below a stored entry. */
  lemma StoreRecoversHead(s: Sys, t: Traits)
    requires Inv(s) && t in s.streams
    ensures Reopens(s, t)
    ensures var h := OpenHead(s.cv, t, s.store).value;
            && h == StoredHead(s.streams[t])
            && (!s.streams[t].phase.HeadStored? ==> h == s.streams[t].head)
            && !KeyLess(h, s.streams[t].head)
            && Fits(t, h)
            && (forall k | k in s.Ctx(t).DataKeys(s.store) :: AtMost(k, ComposeStorageKey(s.cv, t, h)))
  {
    var st := s.streams[t];
    var h := StoredHead(st);
    ComposeRoundTrip(s.cv, t, h);
    assert HeadStorageKey(s.cv, t) != [];
    ComposeOrder(s.cv, t, st.head, h);
    forall k | k in s.Ctx(t).DataKeys(s.store) ensures AtMost(k, ComposeStorageKey(s.cv, t, h)) {
      var top := ComposeStorageKey(s.cv, t, st.head);
      if st.phase.HeadStored? && k != top {
        LessTransitive(k, top, ComposeStorageKey(s.cv, t, h));
      }
    }
  }

  lemma CrashKeeps(s: Sys)
    requires Inv(s)
    ensures Allowed(s, Crash) && Inv(Apply(s, Crash))
  {
    forall t | t in s.streams ensures Reopens(s, t) && StreamInv(s.Ctx(t), s.store, Restarted(s, t)) {
      StoreRecoversHead(s, t);
    }
  }

  lemma StepKeeps(s: Sys, a: Action)
    requires Inv(s) && Allowed(s, a)
    ensures Inv(Apply(s, a))
  {
    match a
    case BeginPush(t, primary, job) => BeginPushKeeps(s, t, primary, job);
    case MoveHead(t) => MoveHeadKeeps(s, t);
    case FinishPush(t) => FinishPushKeeps(s, t);
    case Listen(t, id, begin, end) => ListenKeeps(s, t, id, begin, end);
    case On(t, id, call) => OnKeeps(s, t, id, call);
    case Crash => CrashKeeps(s);
  }

  /** Every state that any run of any interleaving reaches satisfies the invariant. */
  lemma {:induction false} RunKeeps(s: Sys, actions: seq<Action>)
    requires Inv(s) && Run(s, actions)
    ensures Inv(Exec(s, actions))
    decreases |actions|
  {
    if actions != [] {
      StepKeeps(s, actions[0]);
      RunKeeps(Apply(s, actions[0]), actions[1..]);
    }
  }
}
