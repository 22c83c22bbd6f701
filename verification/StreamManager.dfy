/** Creating streams in the store, and opening them. */
module StreamManager {
  import opened Common
  import opened Lex
  import opened FixedSizeSerializer
  import opened OrderKeys
  import opened Storage
  import opened Publisher
  import opened Listener
  import opened System

  /** The key types and the starting key asked for a stream. */
  datatype HeadInitializer = HeadInitializer(primaryWidth: Width, secondaryWidth: Width, start: OrderKey)

  type Params = map<Key, HeadInitializer>

  function TraitsOf(params: Params, name: Key): Traits
    requires name in params
  {
    Traits(name, params[name].primaryWidth, params[name].secondaryWidth)
  }

  predicate ValidParams(params: Params) {
    forall name | name in params :: Fits(TraitsOf(params, name), params[name].start)
  }

  function HeadKeyOf(cv: ConfigValues, name: Key): Key {
    HeadStorageKey(cv, Traits(name, W16, W16))
  }

  function StartingKey(cv: ConfigValues, params: Params, name: Key): Key
    requires name in params
  {
    ComposeStorageKey(cv, TraitsOf(params, name), params[name].start)
  }

  /** Writes the HEAD records one by one and stops at the first that exists. */
  function ApplySpec(cv: ConfigValues, params: Params, names: seq<Key>, store: Store): (Result<()>, Store)
    requires forall name | name in names :: name in params
  {
    if names == [] then (Ok(()), store)
    else
      match SetSpec(store, HeadKeyOf(cv, names[0]), StartingKey(cv, params, names[0]), false)
      case Ok(store') => ApplySpec(cv, params, names[1..], store')
      case Threw(StorageOverwriteNotAllowed) => (Threw(StreamAlreadyExists), store)
      case Threw(e) => (Threw(e), store)
  }

  // ---- What Apply promises ----

  lemma HeadKeysDiffer(cv: ConfigValues, a: Key, b: Key)
    ensures HeadKeyOf(cv, a) == HeadKeyOf(cv, b) <==> a == b
  {
    var p := cv.metaPrefix + [cv.delimiter];
    assert HeadKeyOf(cv, a) == p + a && HeadKeyOf(cv, b) == p + b;
    assert (p + a)[|p|..] == a && (p + b)[|p|..] == b;
  }

  /** How many of the names come before the first that has a HEAD record. */
  function LeadingFree(cv: ConfigValues, names: seq<Key>, store: Store): (n: nat)
    ensures n <= |names|
    ensures forall j | 0 <= j < n :: HeadKeyOf(cv, names[j]) !in store
    ensures n < |names| ==> HeadKeyOf(cv, names[n]) in store
  {
    if names == [] || HeadKeyOf(cv, names[0]) in store then 0 else 1 + LeadingFree(cv, names[1..], store)
  }

  /** The HEAD records requested for these names. */
  function Requested(cv: ConfigValues, params: Params, names: seq<Key>): Store
    requires forall name | name in names :: name in params
  {
    if names == [] then map[]
    else Requested(cv, params, names[1..])[HeadKeyOf(cv, names[0]) := StartingKey(cv, params, names[0])]
  }

  lemma {:induction false} RequestedAt(cv: ConfigValues, params: Params, names: seq<Key>, j: nat)
    requires forall name | name in names :: name in params
    requires Ascending(names) && j < |names|
    ensures var m := Requested(cv, params, names);
            HeadKeyOf(cv, names[j]) in m && m[HeadKeyOf(cv, names[j])] == StartingKey(cv, params, names[j])
  {
    hide HeadKeyOf, StartingKey;
    if j > 0 {
      RequestedAt(cv, params, names[1..], j - 1);
      HeadKeysDiffer(cv, names[0], names[j]);
      LessTrichotomy(names[0], names[j]);
    }
  }

  lemma {:induction false} RequestedOnly(cv: ConfigValues, params: Params, names: seq<Key>, k: Key) returns (j: nat)
    requires forall name | name in names :: name in params
    requires k in Requested(cv, params, names)
    ensures j < |names| && k == HeadKeyOf(cv, names[j])
  {
    hide HeadKeyOf, StartingKey;
    if k == HeadKeyOf(cv, names[0]) {
      j := 0;
    } else {
      var i := RequestedOnly(cv, params, names[1..], k);
      j := i + 1;
    }
  }

  lemma {:induction false} RequestedOmits(cv: ConfigValues, params: Params, name: Key, names: seq<Key>)
    requires forall other | other in names :: other in params
    requires forall i | 0 <= i < |names| :: Less(name, names[i])
    ensures HeadKeyOf(cv, name) !in Requested(cv, params, names)
  {
    hide HeadKeyOf, StartingKey;
    if names != [] {
      HeadKeysDiffer(cv, name, names[0]);
      LessTrichotomy(name, names[0]);
      RequestedOmits(cv, params, name, names[1..]);
    }
  }

  /** Apply succeeds exactly when none of the streams has a HEAD record. Otherwise it throws that the
      stream exists, having created just those before the first that does. Either way it adds exactly
      the requested records of the streams it created. */
  lemma {:induction false} ApplyExact(cv: ConfigValues, params: Params, names: seq<Key>, store: Store)
    requires forall name | name in names :: name in params
    requires Ascending(names)
    ensures var n := LeadingFree(cv, names, store);
            ApplySpec(cv, params, names, store)
            == (if n == |names| then Ok(()) else Threw(StreamAlreadyExists),
                store + Requested(cv, params, names[..n]))
    decreases |names|
  {
    hide HeadKeyOf, StartingKey;
    var n := LeadingFree(cv, names, store);
    if names == [] {
      assert names[..n] == [] && store + map[] == store;
    } else if n == 0 {
      assert names[..n] == [] && store + map[] == store;
      KeysAreNotEmpty(cv, params, names[0]);
    } else {
      var name, rest := names[0], names[1..];
      var key, value := HeadKeyOf(cv, name), StartingKey(cv, params, name);
      KeysAreNotEmpty(cv, params, name);
      OthersStayFree(cv, name, rest, store, value);
      ApplyExact(cv, params, rest, store[key := value]);
      RequestedSteps(cv, params, names, n, store);
    }
  }

  lemma RequestedSteps(cv: ConfigValues, params: Params, names: seq<Key>, n: nat, store: Store)
    requires forall other | other in names :: other in params
    requires Ascending(names) && 0 < n <= |names|
    ensures var key, value := HeadKeyOf(cv, names[0]), StartingKey(cv, params, names[0]);
            store + Requested(cv, params, names[..n])
            == store[key := value] + Requested(cv, params, names[1..][..n - 1])
  {
    hide HeadKeyOf, StartingKey;
    assert names[..n][0] == names[0] && names[..n][1..] == names[1..][..n - 1];
    RequestedOmits(cv, params, names[0], names[1..][..n - 1]);
  }

  /** What Apply adds was not there: no existing record or entry changes, whichever way it ends. */
  lemma ApplyChangesNothingOld(cv: ConfigValues, params: Params, names: seq<Key>, store: Store)
    requires forall name | name in names :: name in params
    requires Ascending(names)
    ensures forall k | k in store ::
              k in ApplySpec(cv, params, names, store).1 && ApplySpec(cv, params, names, store).1[k] == store[k]
  {
    hide HeadKeyOf, StartingKey, ApplySpec;
    ApplyExact(cv, params, names, store);
    var n := LeadingFree(cv, names, store);
    forall k | k in Requested(cv, params, names[..n]) ensures k !in store {
      var j := RequestedOnly(cv, params, names[..n], k);
    }
  }

  lemma {:induction false} OthersStayFree(cv: ConfigValues, name: Key, rest: seq<Key>, store: Store, v: Value)
    requires forall i | 0 <= i < |rest| :: Less(name, rest[i])
    ensures LeadingFree(cv, rest, store[HeadKeyOf(cv, name) := v]) == LeadingFree(cv, rest, store)
  {
    if rest != [] {
      HeadKeysDiffer(cv, name, rest[0]);
      LessTrichotomy(name, rest[0]);
      OthersStayFree(cv, name, rest[1..], store, v);
    }
  }

  lemma KeysAreNotEmpty(cv: ConfigValues, params: Params, name: Key)
    requires name in params
    ensures HeadKeyOf(cv, name) != [] && StartingKey(cv, params, name) != []
  {
  }

  /** The order in which a std::map of the requests is walked. */
  function Names(params: Params): (names: seq<Key>)
    ensures Ascending(names)
    ensures forall name :: name in names <==> name in params
  {
    SortedIsAscendingListing(params.Keys);
    Sorted(params.Keys)
  }

  /** A stream created by Apply opens at the key that was asked for it. */
  lemma CreatedStreamsOpenAtTheirStart(cv: ConfigValues, params: Params, store: Store, name: Key)
    requires ValidParams(params) && name in params
    requires ApplySpec(cv, params, Names(params), store).0.Ok?
    ensures var store' := ApplySpec(cv, params, Names(params), store).1;
            var t := TraitsOf(params, name);
            && HeadStorageKey(cv, t) in store'
            && Readable(cv, t, store'[HeadStorageKey(cv, t)])
            && OpenHead(cv, t, store') == Ok(params[name].start)
  {
    hide ComposeStorageKey, ApplySpec, Readable;
    var names := Names(params);
    ApplyExact(cv, params, names, store);
    assert names[..|names|] == names;
    var j :| 0 <= j < |names| && names[j] == name;
    RequestedAt(cv, params, names, j);
    KeysAreNotEmpty(cv, params, name);
    ComposeRoundTrip(cv, TraitsOf(params, name), params[name].start);
  }

  /** After Apply, which streams exist is decided by the store before it and the streams it created: any
      other stream cannot be opened. */
  lemma OnlyCreatedStreamsExist(cv: ConfigValues, params: Params, store: Store, t: Traits)
    ensures var names := Names(params);
            var n := LeadingFree(cv, names, store);
            HeadStorageKey(cv, t) in ApplySpec(cv, params, names, store).1 <==>
              HeadStorageKey(cv, t) in store || t.name in names[..n]
    ensures var names := Names(params);
            var store' := ApplySpec(cv, params, names, store).1;
            HeadStorageKey(cv, t) !in store && t.name !in names[..LeadingFree(cv, names, store)] ==>
              OpenHead(cv, t, store') == Threw(StreamDoesNotExist)
  {
    hide ApplySpec, ComposeStorageKey, DecomposeStorageKey, StartingKey, Readable, OpenHead;
    var names := Names(params);
    var n := LeadingFree(cv, names, store);
    ApplyExact(cv, params, names, store);
    var h := HeadStorageKey(cv, t);
    assert h == HeadKeyOf(cv, t.name);
    if h in Requested(cv, params, names[..n]) {
      var j := RequestedOnly(cv, params, names[..n], h);
      HeadKeysDiffer(cv, t.name, names[j]);
      assert names[..n][j] == t.name;
    }
    if t.name in names[..n] {
      var j :| 0 <= j < n && names[..n][j] == t.name;
      RequestedAt(cv, params, names[..n], j);
    }
    var store' := ApplySpec(cv, params, names, store).1;
    if h !in store' {
      OpenExact(cv, t, store');
    }
  }

  // ---- Starting the system from a store ----

  /** What a store must hold for a stream to open soundly: a HEAD record that is a key of the stream,
      and only keys of the stream at or below it in the stream's range. */
  predicate SoundAtStart(c: Context, store: Store) {
    && ValidName(c.cv, c.traits)
    && HeadStorageKey(c.cv, c.traits) in store
    && IsDataKey(c.cv, c.traits, store[HeadStorageKey(c.cv, c.traits)])
    && forall k | k in c.DataKeys(store) ::
         IsDataKey(c.cv, c.traits, k) && AtMost(k, store[HeadStorageKey(c.cv, c.traits)])
  }

  /** The stored entries in key order, with their keys decomposed. */
  function Listing(c: Context, store: Store, keys: seq<Key>): (log: seq<(OrderKey, Value)>)
    requires forall k | k in keys :: k in store && IsDataKey(c.cv, c.traits, k)
  {
    seq(|keys|, i requires 0 <= i < |keys| => EntryAt(c.cv, c.traits, store, keys[i]))
  }

  function SortedKeys(c: Context, store: Store): (keys: seq<Key>)
    ensures forall k :: k in keys <==> k in c.DataKeys(store)
  {
    SortedIsAscendingListing(c.DataKeys(store));
    Sorted(c.DataKeys(store))
  }

  function OpenStream(c: Context, store: Store): StreamState
    requires SoundAtStart(c, store)
  {
    hide ComposeStorageKey, InDataRange, Readable, DecomposeStorageKey;
    StreamState(OpenHead(c.cv, c.traits, store).value, Idle, map[], Listing(c, store, SortedKeys(c, store)))
  }

  lemma ListingIsStored(c: Context, store: Store, keys: seq<Key>)
    requires forall k | k in keys :: k in store && IsDataKey(c.cv, c.traits, k)
    ensures LogKeys(c.cv, c.traits, Listing(c, store, keys)) == keys
    ensures forall e | e in Listing(c, store, keys) :: IsStored(c.cv, c.traits, store, e)
  {
    hide ComposeStorageKey, Readable, DecomposeStorageKey, ExpectedLength;
    var log := Listing(c, store, keys);
    forall i | 0 <= i < |keys| ensures ComposeStorageKey(c.cv, c.traits, log[i].0) == keys[i] {
      assert keys[i] in keys;
    }
    forall e | e in log ensures IsStored(c.cv, c.traits, store, e) {
      var i :| 0 <= i < |log| && log[i] == e;
      assert keys[i] in keys;
    }
  }

  lemma OpenedStreamInv(c: Context, store: Store)
    requires SoundAtStart(c, store)
    ensures StreamInv(c, store, OpenStream(c, store))
  {
    hide ComposeStorageKey, InDataRange, Readable, DecomposeStorageKey, ListenerInv, ExpectedLength, Listing,
      LogKeys, IsStored;
    assert HeadStorageKey(c.cv, c.traits) != [];
    ListingIsStored(c, store, SortedKeys(c, store));
  }

  function OpenAll(cv: ConfigValues, backend: Backend, store: Store, ts: set<Traits>): Sys
    requires forall t | t in ts :: SoundAtStart(Context(cv, t, backend), store)
  {
    Sys(cv, backend, store, map t | t in ts :: OpenStream(Context(cv, t, backend), store))
  }

  /** Every sound store starts a system to which all the theorems about runs apply. */
  lemma StartsSound(cv: ConfigValues, backend: Backend, store: Store, ts: set<Traits>)
    requires ValidConfig(cv)
    requires forall t, u | t in ts && u in ts && t.name == u.name :: t == u
    requires forall t | t in ts :: SoundAtStart(Context(cv, t, backend), store)
    ensures Inv(OpenAll(cv, backend, store, ts))
  {
    hide StreamInv, OpenStream;
    forall t | t in ts ensures StreamInv(Context(cv, t, backend), store, OpenStream(Context(cv, t, backend), store)) {
      OpenedStreamInv(Context(cv, t, backend), store);
    }
  }

  lemma StartFits(params: Params, name: Key)
    requires ValidParams(params) && name in params
    ensures Fits(TraitsOf(params, name), params[name].start)
  {
  }

  /** Creating streams in a store that holds no entries of theirs makes it sound for them. */
  lemma CreatedStreamsAreSound(cv: ConfigValues, params: Params, store: Store, name: Key, backend: Backend)
    requires ValidConfig(cv) && ValidParams(params) && name in params
    requires forall n | n in params :: cv.delimiter !in n
    requires ApplySpec(cv, params, Names(params), store).0.Ok?
    requires Context(cv, TraitsOf(params, name), backend).DataKeys(store) == {}
    ensures SoundAtStart(Context(cv, TraitsOf(params, name), backend), ApplySpec(cv, params, Names(params), store).1)
  {
    hide ComposeStorageKey, ApplySpec, InDataRange, DecomposeStorageKey, Readable, ValidParams, SetSpec;
    assert Fits(TraitsOf(params, name), params[name].start) by { StartFits(params, name); }
    var names := Names(params);
    var store' := ApplySpec(cv, params, names, store).1;
    var t := TraitsOf(params, name);
    ApplyExact(cv, params, names, store);
    assert names[..|names|] == names;
    var j :| 0 <= j < |names| && names[j] == name;
    RequestedAt(cv, params, names, j);
    ComposeRoundTrip(cv, t, params[name].start);
    assert store'[HeadStorageKey(cv, t)] == StartingKey(cv, params, name);
    forall k | k in store' && k !in store ensures !InDataRange(cv, t, k) {
      var i := RequestedOnly(cv, params, names, k);
      assert names[i] in names;
      StreamsAreIsolated(cv, t, Traits(names[i], W16, W16));
    }
    assert Context(cv, t, backend).DataKeys(store') == {} by {
      forall k | k in store' && InDataRange(cv, t, k) ensures k in Context(cv, t, backend).DataKeys(store) {
      }
    }
  }

  // ---- src/stream_manager_params.h ----

  class StreamManagerParams {
    var streamsToCreate: Params

    constructor ()
      ensures streamsToCreate == map[]
    {
      streamsToCreate := map[];
    }

    method CreateStream(name: Key, init: HeadInitializer) returns (r: Result<()>)
      modifies this
      ensures name in old(streamsToCreate) ==>
                r == Threw(StreamAlreadyListedForCreation) && streamsToCreate == old(streamsToCreate)
      ensures name !in old(streamsToCreate) ==>
                r == Ok(()) && streamsToCreate == old(streamsToCreate)[name := init]
    {
      if name in streamsToCreate {
        return Threw(StreamAlreadyListedForCreation);
      }
      streamsToCreate := streamsToCreate[name := init];
      return Ok(());
    }

    method Apply(storage: StorageRef, cv: ConfigValues) returns (r: Result<()>)
      requires storage.Valid()
      modifies storage.Object()
      ensures storage.Valid()
      ensures (r, storage.Contents()) ==
              ApplySpec(cv, streamsToCreate, Names(streamsToCreate), old(storage.Contents()))
    {
      var params := streamsToCreate;
      var names := Names(params);
      ghost var whole := ApplySpec(cv, params, names, storage.Contents());
      var i := 0;
      while i < |names|
        invariant 0 <= i <= |names|
        invariant storage.Valid() && streamsToCreate == params
        invariant ApplySpec(cv, params, names[i..], storage.Contents()) == whole
      {
        assert names[i..][0] == names[i] && names[i..][1..] == names[i + 1..];
        var written := storage.Set(HeadKeyOf(cv, names[i]), StartingKey(cv, params, names[i]), false);
        if written == Threw(StorageOverwriteNotAllowed) {
          return Threw(StreamAlreadyExists);
        }
        if written.Threw? {
          return written;
        }
        i := i + 1;
      }
      return Ok(());
    }
  }
}
