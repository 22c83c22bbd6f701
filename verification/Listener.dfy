/** The resumable listener: its step functions, what every state of it keeps, and the class. */
module Listener {
  import opened Common
  import opened Lex
  import opened FixedSizeSerializer
  import opened OrderKeys
  import opened Storage
  import opened Publisher

  /** What a listener is attached to. */
  datatype Context = Context(cv: ConfigValues, traits: Traits, backend: Backend) {
    function End(): Key {
      EndDataStorageKey(cv, traits)
    }

    predicate InRange(k: Key) {
      InDataRange(cv, traits, k)
    }

    /** The stored entries of the stream. */
    function DataKeys(store: Store): set<Key> {
      set k | k in store.Keys && InRange(k)
    }
  }

  /** A listener's fields. The last two are history: where it began, and the keys it has advanced past. */
  datatype ListenerState = ListenerState(
    cursorKey: Key,
    needToIncrement: bool,
    endKey: Option<Key>,
    reachedEnd: bool,
    iter: Option<Cursor>,
    begin: Key,
    delivered: seq<Key>)
  {
    predicate BeforeEnd(k: Key) {
      endKey.Some? ==> Less(k, endKey.value)
    }

    /** Not yet passed by the cursor. */
    predicate IsAhead(k: Key) {
      if needToIncrement then Less(cursorKey, k) else !Less(k, begin)
    }

    /** An iterator that ran off its end and has not been dropped yet. */
    predicate IsStale() {
      iter.Some? && iter.value.Done()
    }
  }

  function NewListener(c: Context, begin: OrderKey, end: Option<OrderKey>): ListenerState {
    var key := ComposeStorageKey(c.cv, c.traits, begin);
    var endKey := if end.None? then None else Some(ComposeStorageKey(c.cv, c.traits, end.value));
    ListenerState(key, false, endKey, false, None, key, [])
  }

  // ---- What each method does ----

  /** The iterator in hand, or a new one resumed from the cursor key. */
  function CurrentIterator(c: Context, store: Store, l: ListenerState): Cursor {
    if l.iter.Some? then l.iter.value
    else
      var it := Seek(c.backend, store, l.cursorKey, c.End());
      if l.needToIncrement && !it.Done() then NextSpec(it, store).value else it
  }

  function HasDataSpec(c: Context, store: Store, l: ListenerState): (bool, ListenerState) {
    if l.reachedEnd then (false, l)
    else
      var it := CurrentIterator(c, store, l);
      if it.Done() then (false, l.(iter := None))
      else if !l.BeforeEnd(it.at.value) then (false, l.(reachedEnd := true, iter := None))
      else (true, l.(iter := Some(it)))
  }

  /** ReachedEnd() runs HasData() and reads the flag. */
  function ReachedEndSpec(c: Context, store: Store, l: ListenerState): (bool, ListenerState) {
    var l' := HasDataSpec(c, store, l).1;
    (l'.reachedEnd, l')
  }

  /** What is handed to the processor, if anything: the restored order key and the payload text. */
  function ProcessSpec(c: Context, store: Store, l: ListenerState, requireData: bool)
    : (Result<Option<(OrderKey, Value)>>, ListenerState)
    requires HasDataSpec(c, store, l).0 ==> ReadableAtCursor(c, store, HasDataSpec(c, store, l).1)
  {
    var (has, l') := HasDataSpec(c, store, l);
    if !has then (if requireData then Threw(ListenerHasNoDataToRead) else Ok(None), l')
    else
      var it := l'.iter.value;
      match DecomposeStorageKey(c.cv, c.traits, it.at.value)
      case Threw(e) => (Threw(e), l')
      case Ok(key) => (Ok(Some((key, it.Source(store)[it.at.value]))), l')
  }

  /** The iterator stands on an entry whose key, if it has the right length, holds digits. */
  predicate ReadableAtCursor(c: Context, store: Store, l: ListenerState) {
    && l.iter.Some?
    && l.iter.value.at.Some?
    && l.iter.value.at.value in l.iter.value.Source(store)
    && Readable(c.cv, c.traits, l.iter.value.at.value)
  }

  function AdvanceSpec(c: Context, store: Store, l: ListenerState): (Result<()>, ListenerState) {
    var (has, l') := HasDataSpec(c, store, l);
    if !has then (Threw(AttemptedToAdvanceListenerWithNoDataAvailable), l')
    else
      var it := l'.iter.value;
      (Ok(()), l'.(cursorKey := it.at.value, needToIncrement := true,
                   iter := Some(NextSpec(it, store).value),
                   delivered := l'.delivered + [it.at.value]))
  }

  // ---- What every state of a listener keeps ----

  function Passed(c: Context, store: Store, l: ListenerState): set<Key> {
    set k | k in c.DataKeys(store) && !Less(k, l.begin) && !l.IsAhead(k)
  }

  function Ahead(c: Context, store: Store, l: ListenerState): set<Key> {
    set k | k in c.DataKeys(store) && l.IsAhead(k)
  }

  /** Stored in [begin, end) after the cursor. */
  function Undelivered(c: Context, store: Store, l: ListenerState): set<Key> {
    set k | k in Ahead(c, store, l) && l.BeforeEnd(k)
  }

  /** Stored in [begin, end). */
  function Window(c: Context, store: Store, l: ListenerState): set<Key> {
    set k | k in c.DataKeys(store) && !Less(k, l.begin) && l.BeforeEnd(k)
  }

  /** An iterator over an old snapshot misses only entries larger than all it holds. A live one
      misses nothing. */
  predicate ViewIsPrefix(c: Context, store: Store, it: Cursor) {
    it.Snapshot? ==>
      && (forall k | k in it.view && c.InRange(k) :: k in store && it.view[k] == store[k])
      && (forall j, k | j in it.view && c.InRange(j) && k in store && c.InRange(k) && k !in it.view :: Less(j, k))
  }

  /** What listeners need of an iterator, whichever storage made it. */
  predicate IteratorInv(c: Context, store: Store, ahead: set<Key>, it: Cursor) {
    && it.end == c.End()
    && ViewIsPrefix(c, store, it)
    && (!it.Done() ==> IsLeast(it.at.value, ahead) && it.at.value in it.Source(store))
  }

  predicate ListenerInv(c: Context, store: Store, l: ListenerState) {
    && c.InRange(l.begin)
    && (!l.needToIncrement ==> l.cursorKey == l.begin)
    && (l.needToIncrement ==>
          l.cursorKey in c.DataKeys(store) && !Less(l.cursorKey, l.begin) && l.BeforeEnd(l.cursorKey))
    && l.delivered == Sorted(Passed(c, store, l))
    && (l.iter.Some? ==> IteratorInv(c, store, Ahead(c, store, l), l.iter.value))
    && (l.reachedEnd ==>
          && l.endKey.Some?
          && l.iter.None?
          && Undelivered(c, store, l) == {}
          && exists k :: k in Ahead(c, store, l) && !l.BeforeEnd(k))
  }

  predicate NothingAbove(c: Context, store: Store, m: Key) {
    forall k | k in c.DataKeys(store) :: !Less(m, k)
  }

  // ---- The iterator interface: making one, moving one, writing under one ----

  function From(c: Context, store: Store, start: Key): set<Key> {
    set k | k in c.DataKeys(store) && !Less(k, start)
  }

  /** A new iterator stands on the first entry at or after its start, or is done when there is none. */
  lemma SeekFinds(c: Context, store: Store, start: Key)
    requires c.InRange(start)
    ensures var it := Seek(c.backend, store, start, c.End());
            IteratorInv(c, store, From(c, store, start), it) && (it.Done() <==> From(c, store, start) == {})
  {
    Order();
    var it := Seek(c.backend, store, start, c.End());
    var all := set k | k in store.Keys && !Less(k, start);
    assert it.at == First(all);
    assert c.End() != [];
    if it.Done() {
      assert forall k | k in From(c, store, start) :: k in all;
      assert From(c, store, start) == {};
    } else {
      assert it.at.value in From(c, store, start);
    }
  }

  /** Moving on from the first entry ahead reaches the next one, or is done. Over a snapshot it may
      be done although newer entries are stored; over the live map it is done only at the end. */
  lemma NextFinds(c: Context, store: Store, ahead: set<Key>, it: Cursor)
    requires ahead <= c.DataKeys(store)
    requires forall j, k | j in ahead && k in c.DataKeys(store) && Less(j, k) :: k in ahead
    requires IteratorInv(c, store, ahead, it) && !it.Done()
    ensures var it' := NextSpec(it, store).value;
            && IteratorInv(c, store, ahead - {it.at.value}, it')
            && (it.Source(store) == store ==> (it'.Done() <==> ahead == {it.at.value}))
  {
    Order();
    var m := it.at.value;
    var it' := NextSpec(it, store).value;
    var source := it.Source(store);
    var later := set k | k in source.Keys && Less(m, k);
    assert it'.at == First(later);
    assert c.InRange(m);
    if !it'.Done() {
      var n := it'.at.value;
      assert c.InRange(n) && n in store;
      forall k | k in ahead - {m} ensures AtMost(n, k) {
        if k in source {
          assert k in later;
        }
      }
      assert n in ahead - {m};
    }
    if source == store && it'.Done() {
      assert forall k | k in ahead :: k == m || k in later;
      assert ahead == {m};
    }
  }

  // ---- HasData ----

  /** The iterator in hand stands on the first entry ahead. A fresh one is done only if there is none. */
  lemma CurrentIteratorInv(c: Context, store: Store, l: ListenerState)
    requires ListenerInv(c, store, l)
    ensures var it := CurrentIterator(c, store, l);
            && IteratorInv(c, store, Ahead(c, store, l), it)
            && (l.iter.None? ==> (it.Done() <==> Ahead(c, store, l) == {}))
  {
    if l.iter.None? {
      Order();
      SeekFinds(c, store, l.cursorKey);
      var it := Seek(c.backend, store, l.cursorKey, c.End());
      var from := From(c, store, l.cursorKey);
      if l.needToIncrement {
        assert l.cursorKey in from;
        assert it.at.value == l.cursorKey;
        NextFinds(c, store, from, it);
        assert from - {l.cursorKey} == Ahead(c, store, l);
      } else {
        assert from == Ahead(c, store, l);
      }
    }
  }

  /** HasData answers true exactly when an undelivered entry is stored and the iterator is not a
      stale one; a true answer leaves the iterator on the smallest such entry, a false answer leaves
      no iterator, so the next answer is exact. */
  lemma HasDataExact(c: Context, store: Store, l: ListenerState)
    requires ListenerInv(c, store, l)
    ensures var (has, l') := HasDataSpec(c, store, l);
            && ListenerInv(c, store, l')
            && l' == l.(iter := l'.iter, reachedEnd := l'.reachedEnd)
            && (has <==> !l.IsStale() && Undelivered(c, store, l) != {})
            && (has ==> && l'.iter.Some? && !l'.iter.value.Done()
                        && IsLeast(l'.iter.value.at.value, Undelivered(c, store, l)))
            && (!has ==> l'.iter.None?)
            && (l.reachedEnd ==> l'.reachedEnd && !has)
  {
    Order();
    var (has, l') := HasDataSpec(c, store, l);
    assert Passed(c, store, l') == Passed(c, store, l);
    assert Ahead(c, store, l') == Ahead(c, store, l);
    assert Undelivered(c, store, l') == Undelivered(c, store, l);
    if !l.reachedEnd {
      CurrentIteratorInv(c, store, l);
      var it := CurrentIterator(c, store, l);
      if !it.Done() {
        var m := it.at.value;
        if l.BeforeEnd(m) {
          assert m in Undelivered(c, store, l);
        } else {
          assert forall k | k in Ahead(c, store, l) :: !l.BeforeEnd(k);
          assert m in c.DataKeys(store);
        }
      }
    }
  }

  /** ReachedEnd answers true exactly when nothing is left to deliver before the end but something at or
      past it is stored, unless the iterator is a stale one. */
  lemma ReachedEndExact(c: Context, store: Store, l: ListenerState)
    requires ListenerInv(c, store, l)
    ensures ReachedEndSpec(c, store, l).0 <==>
              !l.IsStale() && Undelivered(c, store, l) == {} && Ahead(c, store, l) != {}
    ensures HasDataSpec(c, store, l).1.reachedEnd <==>
              !l.IsStale() && Undelivered(c, store, l) == {} && Ahead(c, store, l) != {}
  {
    if !l.reachedEnd {
      CurrentIteratorInv(c, store, l);
      HasDataExact(c, store, l);
    }
  }

  // ---- The other methods ----

  lemma NewListenerInv(c: Context, store: Store, begin: OrderKey, end: Option<OrderKey>)
    requires Fits(c.traits, begin)
    ensures ListenerInv(c, store, NewListener(c, begin, end))
  {
    var l := NewListener(c, begin, end);
    ComposeRoundTrip(c.cv, c.traits, begin);
    RangeIsPrefix(c.cv, c.traits, l.begin);
    assert Passed(c, store, l) == {};
  }

  /** An order key from begin up to the end, if there is one. */
  predicate IsBetween(o: OrderKey, begin: OrderKey, end: Option<OrderKey>) {
    !KeyLess(o, begin) && (end.Some? ==> KeyLess(o, end.value))
  }

  /** The range of a new listener is its caller's: it is to deliver the entries stored under order keys
      from begin up to the end, and no others. */
  lemma RangeIsTheCallers(c: Context, store: Store, begin: OrderKey, end: Option<OrderKey>, o: OrderKey)
    requires Fits(c.traits, o) && Fits(c.traits, begin) && (end.Some? ==> Fits(c.traits, end.value))
    ensures var k, l := ComposeStorageKey(c.cv, c.traits, o), NewListener(c, begin, end);
            && (k in Window(c, store, l) <==> k in store && IsBetween(o, begin, end))
            && Undelivered(c, store, l) == Window(c, store, l)
  {
    hide ComposeStorageKey, InDataRange;
    var k := ComposeStorageKey(c.cv, c.traits, o);
    ComposeRoundTrip(c.cv, c.traits, o);
    RangeIsPrefix(c.cv, c.traits, k);
    ComposeOrder(c.cv, c.traits, o, begin);
    if end.Some? {
      ComposeOrder(c.cv, c.traits, o, end.value);
    }
  }

  /** ProcessEntrySync hands over the smallest undelivered entry, with the key and the payload as
      stored, and advances nothing. */
  lemma ProcessExact(c: Context, store: Store, l: ListenerState, requireData: bool)
    requires ListenerInv(c, store, l)
    requires forall k | k in c.DataKeys(store) :: Readable(c.cv, c.traits, k)
    ensures HasDataSpec(c, store, l).0 ==> ReadableAtCursor(c, store, HasDataSpec(c, store, l).1)
    ensures var (r, l') := ProcessSpec(c, store, l, requireData);
            && l' == HasDataSpec(c, store, l).1
            && (HasDataSpec(c, store, l).0 ==>
                  && Undelivered(c, store, l) != {}
                  && var m := Least(Undelivered(c, store, l));
                     match DecomposeStorageKey(c.cv, c.traits, m)
                     case Threw(e) => r == Threw(e)
                     case Ok(key) => r == Ok(Some((key, store[m]))))
            && (!HasDataSpec(c, store, l).0 ==>
                  r == if requireData then Threw(ListenerHasNoDataToRead) else Ok(None))
  {
    HasDataExact(c, store, l);
    LeastUnique(Undelivered(c, store, l));
  }

  /** Passing the entry under the iterator moves it from the entries ahead to those passed. */
  lemma PassingOne(c: Context, store: Store, l: ListenerState, l': ListenerState, m: Key)
    requires ListenerInv(c, store, l)
    requires IsLeast(m, Ahead(c, store, l))
    requires l'.begin == l.begin && l'.needToIncrement && l'.cursorKey == m
    ensures Ahead(c, store, l') == Ahead(c, store, l) - {m}
    ensures Passed(c, store, l') == Passed(c, store, l) + {m}
    ensures Sorted(Passed(c, store, l')) == Sorted(Passed(c, store, l)) + [m]
  {
    Order();
    AheadIsFromBegin(c, store, l);
    assert Ahead(c, store, l') == Ahead(c, store, l) - {m};
    forall k | k in c.DataKeys(store) && !Less(k, l.begin) && !Less(m, k)
      ensures k == m || k in Passed(c, store, l) {
      if l.IsAhead(k) {
        assert k in Ahead(c, store, l);
      }
    }
    assert Passed(c, store, l') == Passed(c, store, l) + {m};
    SortedAppend(Passed(c, store, l), m);
  }

  /** AdvanceToNextEntry delivers the smallest undelivered entry and nothing else, or throws exactly
      when HasData would answer false. */
  lemma AdvanceExact(c: Context, store: Store, l: ListenerState)
    requires ListenerInv(c, store, l)
    ensures var (r, l') := AdvanceSpec(c, store, l);
            && ListenerInv(c, store, l')
            && (r.Ok? <==> HasDataSpec(c, store, l).0)
            && (r.Threw? ==> r.exception == AttemptedToAdvanceListenerWithNoDataAvailable)
            && (r.Threw? ==> l' == HasDataSpec(c, store, l).1)
            && (r.Ok? ==>
                  && Undelivered(c, store, l) != {}
                  && var m := Least(Undelivered(c, store, l));
                     && l'.delivered == l.delivered + [m]
                     && Undelivered(c, store, l') == Undelivered(c, store, l) - {m}
                     && l'.cursorKey == m)
            && l'.begin == l.begin && l'.endKey == l.endKey
  {
    HasDataExact(c, store, l);
    var (has, l1) := HasDataSpec(c, store, l);
    if has {
      var it := l1.iter.value;
      var m := it.at.value;
      var (r, l') := AdvanceSpec(c, store, l);
      assert IsLeast(m, Undelivered(c, store, l)) && IsLeast(m, Ahead(c, store, l1));
      LeastUnique(Undelivered(c, store, l));
      PassingOne(c, store, l1, l', m);
      AheadIsUpwardClosed(c, store, l1);
      NextFinds(c, store, Ahead(c, store, l1), it);
      assert Ahead(c, store, l1) == Ahead(c, store, l);
      assert Passed(c, store, l1) == Passed(c, store, l);
      assert Undelivered(c, store, l') == Undelivered(c, store, l) - {m};
      AheadIsFromBegin(c, store, l1);
    }
  }

  /** Only a successful AdvanceToNextEntry leaves a stale iterator, and it does so exactly when the
      iterator sees no entry above the one it passed. */
  lemma StaleAfterAdvance(c: Context, store: Store, l: ListenerState)
    requires ListenerInv(c, store, l)
    ensures !HasDataSpec(c, store, l).1.IsStale()
    ensures var (r, l') := AdvanceSpec(c, store, l);
            l'.IsStale() <==>
              r.Ok? && NothingAbove(c, HasDataSpec(c, store, l).1.iter.value.Source(store), l'.cursorKey)
  {
    Order();
    CurrentIteratorInv(c, store, l);
    if HasDataSpec(c, store, l).0 {
      var it := HasDataSpec(c, store, l).1.iter.value;
      var m, source := it.at.value, it.Source(store);
      var later := set k | k in source.Keys && Less(m, k);
      assert Successor(source, m) == First(later);
      assert c.InRange(m);
      if it.(at := First(later)).Done() {
        assert forall k | k in c.DataKeys(source) && Less(m, k) :: k in later;
      } else {
        assert Least(later) in c.DataKeys(source);
      }
    }
  }

  lemma AheadIsUpwardClosed(c: Context, store: Store, l: ListenerState)
    ensures forall j, k | j in Ahead(c, store, l) && k in c.DataKeys(store) && Less(j, k) :: k in Ahead(c, store, l)
  {
    Order();
  }

  lemma AheadIsFromBegin(c: Context, store: Store, l: ListenerState)
    requires ListenerInv(c, store, l)
    ensures forall k | k in Ahead(c, store, l) :: k in c.DataKeys(store) && !Less(k, l.begin)
  {
    Order();
  }

  /** Writing entries above every entry of the stream, or anything outside its range, keeps the
      listener's invariant, delivers nothing and leaves a false "reached end" impossible. */
  lemma StoreGrows(c: Context, store: Store, store': Store, l: ListenerState)
    requires ListenerInv(c, store, l)
    requires forall k | k in c.DataKeys(store) :: k in store' && store'[k] == store[k]
    requires forall j, k | j in c.DataKeys(store) && k in c.DataKeys(store') && k !in store :: Less(j, k)
    requires forall k | k in store :: k in store'
    ensures ListenerInv(c, store', l)
    ensures Passed(c, store', l) == Passed(c, store, l)
    ensures Undelivered(c, store, l) <= Undelivered(c, store', l)
    ensures l.reachedEnd ==> Undelivered(c, store', l) == {}
  {
    Order();
    assert Passed(c, store', l) == Passed(c, store, l);
    if l.iter.Some? {
      var it := l.iter.value;
      if !it.Done() {
        assert IsLeast(it.at.value, Ahead(c, store', l));
      }
    }
    if l.reachedEnd {
      var z :| z in Ahead(c, store, l) && !l.BeforeEnd(z);
      assert z in Ahead(c, store', l);
      assert Undelivered(c, store', l) == {};
    }
  }

  /** Exactly once, in order: what was delivered, followed by what is stored ahead, lists the stored
      entries of [begin, end) in ascending order. */
  lemma DeliveredThenUndelivered(c: Context, store: Store, l: ListenerState)
    requires ListenerInv(c, store, l)
    ensures l.delivered + Sorted(Undelivered(c, store, l)) == Sorted(Window(c, store, l))
  {
    Order();
    var p, u := Passed(c, store, l), Undelivered(c, store, l);
    SortedSplit(p, u);
    assert p + u == Window(c, store, l);
  }

  // ---- src/listeners.h: INTERNAL_UnsafeListener ----

  class UnsafeListener {
    const stream: Stream
    const storageEndKey: Option<Key>
    var storageCursorKey: Key
    var needToIncrementCursor: bool
    var reachedEnd: bool
    var iter: Option<IteratorRef>
    var orderKeyInstance: OrderKey
    ghost const begin: Key
    ghost var delivered: seq<Key>

    function Binding(): Context
      reads this
    {
      Context(stream.cv, stream.traits, stream.storage.Backend())
    }

    function IteratorObjects(): set<object>
      reads this
    {
      if iter.Some? then {iter.value.Object()} else {}
    }

    /** The iterator belongs to this stream's storage. */
    predicate Valid()
      reads this
    {
      iter.Some? ==> iter.value.On(stream.storage)
    }

    ghost function View(): ListenerState
      reads this, IteratorObjects()
    {
      ListenerState(storageCursorKey, needToIncrementCursor, storageEndKey, reachedEnd,
                    if iter.Some? then Some(iter.value.State()) else None, begin, delivered)
    }

    ghost function Stored(): Store
      reads this, stream.storage.Object()
    {
      stream.storage.Contents()
    }

    constructor (stream: Stream, begin: OrderKey, end: Option<OrderKey>)
      ensures Valid() && this.stream == stream && iter.None?
      ensures View() == NewListener(Binding(), begin, end)
    {
      this.stream := stream;
      storageCursorKey := ComposeStorageKey(stream.cv, stream.traits, begin);
      storageEndKey :=
        if end.None? then None else Some(ComposeStorageKey(stream.cv, stream.traits, end.value));
      needToIncrementCursor, reachedEnd, iter := false, false, None;
      orderKeyInstance := OrderKey(0, 0);
      this.begin := ComposeStorageKey(stream.cv, stream.traits, begin);
      delivered := [];
    }

    method HasData() returns (has: bool)
      requires Valid()
      modifies this`iter, this`reachedEnd
      ensures Valid() && (iter == old(iter) || fresh(IteratorObjects()))
      ensures (has, View()) == HasDataSpec(Binding(), Stored(), old(View()))
      ensures has ==> iter.Some?
    {
      if reachedEnd { return false; }
      if iter.None? {
        var it := stream.storage.CreateStorageIterator(
          storageCursorKey, EndDataStorageKey(stream.cv, stream.traits));
        iter := Some(it);
        if needToIncrementCursor && !it.State().Done() {
          var _ := it.Next(stream.storage);
        }
      }
      if iter.value.State().Done() {
        iter := None;
        return false;
      }
      if storageEndKey.Some? && !Less(iter.value.State().at.value, storageEndKey.value) {
        reachedEnd := true;
        iter := None;
        return false;
      }
      return true;
    }

    method ReachedEnd() returns (ended: bool)
      requires Valid()
      modifies this`iter, this`reachedEnd
      ensures Valid() && (iter == old(iter) || fresh(IteratorObjects()))
      ensures (ended, View()) == ReachedEndSpec(Binding(), Stored(), old(View()))
    {
      var _ := HasData();
      return reachedEnd;
    }

    /** The pair handed to the processor, if any; the processor itself runs after the lock is released. */
    method ProcessEntrySync(requireData: bool) returns (r: Result<Option<(OrderKey, Value)>>)
      requires Valid()
      requires ListenerInv(Binding(), Stored(), View())
      requires forall k | k in Binding().DataKeys(Stored()) :: Readable(stream.cv, stream.traits, k)
      modifies this`iter, this`reachedEnd, this`orderKeyInstance
      ensures Valid() && (iter == old(iter) || fresh(IteratorObjects()))
      ensures HasDataSpec(Binding(), Stored(), old(View())).0 ==>
                ReadableAtCursor(Binding(), Stored(), HasDataSpec(Binding(), Stored(), old(View())).1)
      ensures (r, View()) == ProcessSpec(Binding(), Stored(), old(View()), requireData)
      ensures r.Ok? && r.value.Some? ==> orderKeyInstance == r.value.value.0
    {
      hide ListenerInv, Readable, ExpectedLength, InDataRange;
      ProcessExact(Binding(), Stored(), View(), requireData);
      var has := HasData();
      if !has {
        return if requireData then Threw(ListenerHasNoDataToRead) else Ok(None);
      }
      var it := iter.value.State();
      match DecomposeStorageKey(stream.cv, stream.traits, it.at.value) {
        case Threw(e) => return Threw(e);
        case Ok(key) =>
          orderKeyInstance := key;
          return Ok(Some((key, it.Source(stream.storage.Contents())[it.at.value])));
      }
    }

    method AdvanceToNextEntry() returns (r: Result<()>)
      requires Valid()
      modifies this, IteratorObjects()
      ensures Valid() && (iter == old(iter) || fresh(IteratorObjects()))
      ensures (r, View()) == AdvanceSpec(Binding(), Stored(), old(View()))
    {
      var has := HasData();
      if !has {
        return Threw(AttemptedToAdvanceListenerWithNoDataAvailable);
      }
      storageCursorKey := iter.value.State().at.value;
      needToIncrementCursor := true;
      delivered := delivered + [storageCursorKey];
      var _ := iter.value.Next(stream.storage);
      return Ok(());
    }
  }
}
