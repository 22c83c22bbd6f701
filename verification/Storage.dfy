/** The sorted key-value store under the log, its two implementations and their iterators. */
module Storage {
  import opened Common
  import opened Lex

  type Value = seq<Byte>

  type Store = map<Key, Value>

  // ---- What every storage does ----

  /** The store after writing, or the exception that leaves it as it was. */
  function SetSpec(store: Store, key: Key, value: Value, allowOverwrite: bool): Result<Store> {
    if key == [] then Threw(StorageEmptyKey)
    else if value == [] then Threw(StorageEmptyValue)
    else if !allowOverwrite && key in store then Threw(StorageOverwriteNotAllowed)
    else Ok(store[key := value])
  }

  function HasSpec(store: Store, key: Key): Result<bool> {
    if key == [] then Threw(StorageEmptyKey) else Ok(key in store)
  }

  function GetSpec(store: Store, key: Key): Result<Value> {
    if key == [] then Threw(StorageEmptyKey)
    else if key !in store then Threw(StorageNoData)
    else Ok(store[key])
  }

  // ---- What an iterator is ----

  function First(ks: set<Key>): Option<Key> {
    if ks == {} then None else Some(Least(ks))
  }

  /** std::map::lower_bound and leveldb::Iterator::Seek. */
  function LowerBound(store: Store, from: Key): Option<Key> {
    First(set k | k in store.Keys && !Less(k, from))
  }

  /** The entry after one that is there. */
  function Successor(store: Store, at: Key): Option<Key> {
    First(set k | k in store.Keys && Less(at, k))
  }

  datatype Backend = LevelDB | InMemory

  /** The state of an iterator: LevelDB's walks the store as it was when the iterator was made, the
      in-memory one walks the map as it is now. */
  datatype Cursor =
    | Snapshot(view: Store, at: Option<Key>, end: Key)
    | Live(at: Option<Key>, end: Key)
  {
    predicate Done() {
      at.None? || !(end == [] || Less(at.value, end))
    }

    function Source(store: Store): Store {
      if Snapshot? then view else store
    }
  }

  function Seek(backend: Backend, store: Store, start: Key, end: Key): Cursor {
    if backend.LevelDB? then Snapshot(store, LowerBound(store, start), end)
    else Live(LowerBound(store, start), end)
  }

  function NextSpec(c: Cursor, store: Store): Result<Cursor> {
    if c.Done() then Threw(StorageIteratorOutOfBounds)
    else Ok(c.(at := Successor(c.Source(store), c.at.value)))
  }

  // ---- What they promise ----

  /** After a write, reading gives what was written, and every other key is as before. A write that
      may not overwrite succeeds exactly on an absent key; no write stores an empty value. */
  lemma SetThenGet(store: Store, key: Key, value: Value, allowOverwrite: bool)
    ensures var r := SetSpec(store, key, value, allowOverwrite);
            && (r.Ok? <==> key != [] && value != [] && (allowOverwrite || HasSpec(store, key) == Ok(false)))
            && (r.Ok? ==>
                  && GetSpec(r.value, key) == Ok(value) && HasSpec(r.value, key) == Ok(true)
                  && (forall k | k != key :: GetSpec(r.value, k) == GetSpec(store, k))
                  && ((forall k | k in store :: store[k] != []) ==> forall k | k in r.value :: r.value[k] != []))
  {
  }

  /** Which exception each of the three throws, told by the other two: the checks come in the order key,
      value, presence. */
  lemma GetHasSetAgree(store: Store, key: Key, value: Value, allowOverwrite: bool)
    ensures var get, has, set' := GetSpec(store, key), HasSpec(store, key), SetSpec(store, key, value, allowOverwrite);
            && (key == [] <==> has == Threw(StorageEmptyKey))
            && (key == [] <==> get == Threw(StorageEmptyKey))
            && (key == [] <==> set' == Threw(StorageEmptyKey))
            && (get == Threw(StorageNoData) <==> has == Ok(false)) && (get.Ok? <==> has == Ok(true))
            && (set' == Threw(StorageEmptyValue) <==> key != [] && value == [])
            && (set' == Threw(StorageOverwriteNotAllowed) <==> value != [] && !allowOverwrite && get.Ok?)
  {
  }

  /** The stored keys at or after a position. */
  function AtOrAfter(store: Store, at: Option<Key>): set<Key> {
    set k | k in store.Keys && at.Some? && !Less(k, at.value)
  }

  lemma SuccessorIsNext(store: Store, at: Key)
    requires at in store
    ensures AtOrAfter(store, Successor(store, at)) == AtOrAfter(store, Some(at)) - {at}
    ensures Successor(store, at).Some? ==> Successor(store, at).value in store && Less(at, Successor(store, at).value)
  {
    Order();
    var later := set k | k in store.Keys && Less(at, k);
    assert Successor(store, at) == First(later);
    assert later == AtOrAfter(store, Some(at)) - {at};
    if later != {} {
      assert IsLeast(Least(later), later);
    }
  }

  /** The keys an iterator visits while the store stands still. */
  function Walk(c: Cursor, store: Store): seq<Key>
    requires c.at.Some? ==> c.at.value in c.Source(store)
    decreases |AtOrAfter(c.Source(store), c.at)|
  {
    if c.Done() then []
    else
      SuccessorIsNext(c.Source(store), c.at.value);
      assert c.at.value in AtOrAfter(c.Source(store), c.at) by { Order(); }
      [c.at.value] + Walk(NextSpec(c, store).value, store)
  }

  function Between(keys: set<Key>, end: Key): set<Key> {
    set k | k in keys && (end == [] || Less(k, end))
  }

  lemma {:induction false} WalkFrom(c: Cursor, store: Store)
    requires c.at.Some? ==> c.at.value in c.Source(store)
    ensures Walk(c, store) == Sorted(Between(AtOrAfter(c.Source(store), c.at), c.end))
    decreases |AtOrAfter(c.Source(store), c.at)|
  {
    Order();
    var source := c.Source(store);
    var rest := Between(AtOrAfter(source, c.at), c.end);
    if c.Done() {
      assert rest == {};
    } else {
      var m := c.at.value;
      SuccessorIsNext(source, m);
      assert m in AtOrAfter(source, c.at);
      WalkFrom(NextSpec(c, store).value, store);
      assert IsLeast(m, rest);
      LeastUnique(rest);
      assert Between(AtOrAfter(source, Successor(source, m)), c.end) == rest - {m};
    }
  }

  function KeysOf(store: Store, start: Key, end: Key): set<Key> {
    set k | k in store.Keys && !Less(k, start) && (end == [] || Less(k, end))
  }

  /** An iterator from start to end visits exactly the stored keys of [start, end), ascending; an empty
      end means no end. */
  lemma IteratorListsRange(backend: Backend, store: Store, start: Key, end: Key)
    ensures var c := Seek(backend, store, start, end);
            && (c.at.Some? ==> c.at.value in c.Source(store))
            && Walk(c, store) == Sorted(KeysOf(store, start, end))
  {
    Order();
    var c := Seek(backend, store, start, end);
    var from := set k | k in store.Keys && !Less(k, start);
    assert c.at == First(from);
    WalkFrom(c, store);
    assert AtOrAfter(store, c.at) == from;
    assert Between(from, end) == KeysOf(store, start, end);
  }

  /** The iterator after this many calls of Next. */
  function NextTimes(c: Cursor, store: Store, n: nat): Result<Cursor>
    decreases n
  {
    if n == 0 then Ok(c)
    else
      match NextSpec(c, store)
      case Threw(e) => Threw(e)
      case Ok(c') => NextTimes(c', store, n - 1)
  }

  lemma {:induction false} NextTimesWalks(c: Cursor, store: Store, n: nat)
    requires c.at.Some? ==> c.at.value in c.Source(store)
    ensures var r, keys := NextTimes(c, store, n), Walk(c, store);
            if n > |keys| then r == Threw(StorageIteratorOutOfBounds)
            else r.Ok? && (r.value.Done() <==> n == |keys|) && (n < |keys| ==> r.value.at == Some(keys[n]))
    decreases n
  {
    if n > 0 && !c.Done() {
      SuccessorIsNext(c.Source(store), c.at.value);
      NextTimesWalks(NextSpec(c, store).value, store, n - 1);
    }
  }

  /** An iterator over n keys can be moved n times, standing on each of them in ascending order and then
      being done; one more call of Next throws. */
  lemma IteratorEnds(backend: Backend, store: Store, start: Key, end: Key, n: nat)
    ensures var r, keys := NextTimes(Seek(backend, store, start, end), store, n), Sorted(KeysOf(store, start, end));
            if n > |keys| then r == Threw(StorageIteratorOutOfBounds)
            else r.Ok? && (r.value.Done() <==> n == |keys|) && (n < |keys| ==> r.value.at == Some(keys[n]))
  {
    IteratorListsRange(backend, store, start, end);
    NextTimesWalks(Seek(backend, store, start, end), store, n);
  }

  // ---- src/storage_leveldb ----

  class StorageLevelDB {
    var db: Store

    constructor ()
      ensures db == map[]
    {
      db := map[];
    }

    method Get(key: Key) returns (r: Result<Value>)
      ensures r == GetSpec(db, key)
    {
      if key == [] { return Threw(StorageEmptyKey); }
      if key !in db { return Threw(StorageNoData); }
      return Ok(db[key]);
    }

    method Has(key: Key) returns (r: Result<bool>)
      ensures r == HasSpec(db, key)
    {
      if key == [] { return Threw(StorageEmptyKey); }
      return Ok(key in db);
    }

    method InternalSet(key: Key, value: Value, allowOverwrite: bool) returns (r: Result<()>)
      modifies this
      ensures match SetSpec(old(db), key, value, allowOverwrite)
              case Ok(store) => r == Ok(()) && db == store
              case Threw(e) => r == Threw(e) && db == old(db)
    {
      if key == [] { return Threw(StorageEmptyKey); }
      if value == [] { return Threw(StorageEmptyValue); }
      if !allowOverwrite {
        var has := Has(key);
        if has == Ok(true) { return Threw(StorageOverwriteNotAllowed); }
      }
      db := db[key := value];
      return Ok(());
    }

    method CreateStorageIterator(start: Key, end: Key) returns (it: LevelDBIterator)
      ensures fresh(it) && it.State() == Seek(LevelDB, db, start, end)
    {
      it := new LevelDBIterator(this, start, end);
    }
  }

  class LevelDBIterator {
    const view: Store
    const endKey: Key
    var it: Option<Key>

    function State(): Cursor
      reads this
    {
      Snapshot(view, it, endKey)
    }

    constructor (storage: StorageLevelDB, start: Key, end: Key)
      ensures State() == Seek(LevelDB, storage.db, start, end)
    {
      view, endKey := storage.db, end;
      it := LowerBound(storage.db, start);
    }

    method Next() returns (r: Result<()>)
      modifies this
      ensures forall store ::
                match NextSpec(old(State()), store)
                case Ok(c) => r == Ok(()) && State() == c
                case Threw(e) => r == Threw(e) && State() == old(State())
    {
      if State().Done() { return Threw(StorageIteratorOutOfBounds); }
      it := Successor(view, it.value);
      return Ok(());
    }
  }

  // ---- test/cpp/helpers/storage_inmemory.h ----

  class InMemoryTestStorage {
    var data: Store

    /** No empty value is ever stored. */
    predicate Valid()
      reads this
    {
      forall k | k in data :: data[k] != []
    }

    constructor ()
      ensures Valid() && data == map[]
    {
      data := map[];
    }

    method Get(key: Key) returns (r: Result<Value>)
      ensures r == GetSpec(data, key)
    {
      if key == [] { return Threw(StorageEmptyKey); }
      if key !in data { return Threw(StorageNoData); }
      return Ok(data[key]);
    }

    method Has(key: Key) returns (r: Result<bool>)
      ensures r == HasSpec(data, key)
    {
      if key == [] { return Threw(StorageEmptyKey); }
      return Ok(key in data);
    }

    /** The map's operator[] first puts an empty placeholder under a missing key; the overwrite test
        looks at that placeholder and not at the presence of the key. */
    method Set(key: Key, value: Value, allowOverwrite: bool) returns (r: Result<()>)
      requires Valid()
      modifies this
      ensures Valid()
      ensures match SetSpec(old(data), key, value, allowOverwrite)
              case Ok(store) => r == Ok(()) && data == store
              case Threw(e) => r == Threw(e) && data == old(data)
    {
      if key == [] { return Threw(StorageEmptyKey); }
      if value == [] { return Threw(StorageEmptyValue); }
      if key !in data {
        data := data[key := []];
      }
      if !allowOverwrite && data[key] != [] {
        return Threw(StorageOverwriteNotAllowed);
      }
      data := data[key := value];
      return Ok(());
    }

    method CreateStorageIterator(start: Key, end: Key) returns (it: InMemoryIterator)
      ensures fresh(it) && it.master == this && it.State() == Seek(InMemory, data, start, end)
    {
      it := new InMemoryIterator(this, start, end);
    }
  }

  class InMemoryIterator {
    const master: InMemoryTestStorage
    const end: Key
    var cit: Option<Key>

    function State(): Cursor
      reads this
    {
      Live(cit, end)
    }

    constructor (storage: InMemoryTestStorage, start: Key, end: Key)
      ensures master == storage && State() == Seek(InMemory, storage.data, start, end)
    {
      master, this.end := storage, end;
      cit := LowerBound(storage.data, start);
    }

    method Next() returns (r: Result<()>)
      modifies this
      ensures match NextSpec(old(State()), master.data)
              case Ok(c) => r == Ok(()) && State() == c
              case Threw(e) => r == Threw(e) && State() == old(State())
    {
      if State().Done() { return Threw(StorageIteratorOutOfBounds); }
      cit := Successor(master.data, cit.value);
      return Ok(());
    }
  }

  // ---- The storage type parameter of streams and listeners ----

  datatype StorageRef = OnLevelDB(ldb: StorageLevelDB) | InMap(memory: InMemoryTestStorage) {
    function Backend(): Backend {
      if OnLevelDB? then LevelDB else InMemory
    }

    function Object(): object {
      match this
      case OnLevelDB(s) => s
      case InMap(s) => s
    }

    function Contents(): Store
      reads Object()
    {
      match this
      case OnLevelDB(s) => s.db
      case InMap(s) => s.data
    }

    predicate Valid()
      reads Object()
    {
      InMap? ==> memory.Valid()
    }

    method Get(key: Key) returns (r: Result<Value>)
      ensures r == GetSpec(Contents(), key)
    {
      match this
      case OnLevelDB(s) => r := s.Get(key);
      case InMap(s) => r := s.Get(key);
    }

    /** Set and SetAllowingOverwrite. */
    method Set(key: Key, value: Value, allowOverwrite: bool) returns (r: Result<()>)
      requires Valid()
      modifies Object()
      ensures Valid()
      ensures match SetSpec(old(Contents()), key, value, allowOverwrite)
              case Ok(store) => r == Ok(()) && Contents() == store
              case Threw(e) => r == Threw(e) && Contents() == old(Contents())
    {
      match this
      case OnLevelDB(s) => r := s.InternalSet(key, value, allowOverwrite);
      case InMap(s) => r := s.Set(key, value, allowOverwrite);
    }

    method CreateStorageIterator(start: Key, end: Key) returns (it: IteratorRef)
      ensures fresh(it.Object()) && it.On(this)
      ensures it.State() == Seek(Backend(), Contents(), start, end)
    {
      match this
      case OnLevelDB(s) =>
        var i := s.CreateStorageIterator(start, end);
        it := OverSnapshot(i);
      case InMap(s) =>
        var i := s.CreateStorageIterator(start, end);
        it := OverMap(i);
    }
  }

  datatype IteratorRef = OverSnapshot(snapshot: LevelDBIterator) | OverMap(live: InMemoryIterator) {
    function Object(): object {
      match this
      case OverSnapshot(i) => i
      case OverMap(i) => i
    }

    /** Made by this storage. */
    predicate On(storage: StorageRef) {
      match this
      case OverSnapshot(_) => storage.OnLevelDB?
      case OverMap(i) => storage.InMap? && i.master == storage.memory
    }

    function State(): Cursor
      reads Object()
    {
      match this
      case OverSnapshot(i) => i.State()
      case OverMap(i) => i.State()
    }

    method Next(storage: StorageRef) returns (r: Result<()>)
      requires On(storage)
      modifies Object()
      ensures match NextSpec(old(State()), storage.Contents())
              case Ok(c) => r == Ok(()) && State() == c
              case Threw(e) => r == Threw(e) && State() == old(State())
    {
      match this
      case OverSnapshot(i) => r := i.Next();
      case OverMap(i) => r := i.Next();
    }
  }
}
