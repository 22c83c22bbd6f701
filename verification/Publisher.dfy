/** Streams, their HEAD records, and the publisher that appends to them. */
module Publisher {
  import opened Common
  import opened Lex
  import opened FixedSizeSerializer
  import opened OrderKeys
  import opened Storage

  /** What Push reads off an entry: its primary key, and its serialized text unless serializing it
      throws. */
  datatype Entry = Entry(primary: nat, payload: Option<Value>)

  // ---- What Push and PushHead do ----

  /** The next head. The secondary key is incremented in its own unsigned type, so it wraps. */
  function NewHead(t: Traits, head: OrderKey, primary: nat): Result<OrderKey> {
    if primary < head.primary then Threw(OrderKeysGoBackwards)
    else if head.primary < primary then Ok(OrderKey(primary, 0))
    else Ok(OrderKey(primary, (head.secondary + 1) % (Max(t.secondaryWidth) + 1)))
  }

  /** The caller can tell beforehand that the secondary key will not wrap. */
  predicate NoWrap(t: Traits, head: OrderKey, primary: nat) {
    primary == head.primary ==> head.secondary < Max(t.secondaryWidth)
  }

  function StoreHead(cv: ConfigValues, t: Traits, store: Store, head: OrderKey): Store {
    store[HeadStorageKey(cv, t) := ComposeStorageKey(cv, t, head)]
  }

  function PushHeadSpec(cv: ConfigValues, t: Traits, store: Store, head: OrderKey, primary: nat)
    : (Result<()>, Store, OrderKey)
  {
    match NewHead(t, head, primary)
    case Threw(e) => (Threw(e), store, head)
    case Ok(newHead) => (Ok(()), StoreHead(cv, t, store, newHead), newHead)
  }

  function PushSpec(cv: ConfigValues, t: Traits, store: Store, head: OrderKey, entry: Entry)
    : (Result<()>, Store, OrderKey)
  {
    var (r, store1, head1) := PushHeadSpec(cv, t, store, head, entry.primary);
    if r.Threw? then (r, store1, head1)
    else if entry.payload.None? then (Threw(UnrecognizedPolymorphicType), store1, head1)
    else
      match SetSpec(store1, ComposeStorageKey(cv, t, head1), entry.payload.value, false)
      case Threw(e) => (Threw(e), store1, head1)
      case Ok(store2) => (Ok(()), store2, head1)
  }

  /** Reading the head back from the store, as the Stream constructor does. */
  function OpenHead(cv: ConfigValues, t: Traits, store: Store): Result<OrderKey>
    requires HeadStorageKey(cv, t) in store ==> Readable(cv, t, store[HeadStorageKey(cv, t)])
  {
    match GetSpec(store, HeadStorageKey(cv, t))
    case Threw(_) => Threw(StreamDoesNotExist)
    case Ok(value) => DecomposeStorageKey(cv, t, value)
  }

  /** A stream opens exactly when its HEAD record is stored and has the length of its keys, at the key
      that was composed into it. Otherwise the exception tells the two failures apart. */
  lemma OpenExact(cv: ConfigValues, t: Traits, store: Store)
    requires HeadStorageKey(cv, t) in store ==> Readable(cv, t, store[HeadStorageKey(cv, t)])
    ensures var h, r := HeadStorageKey(cv, t), OpenHead(cv, t, store);
            && (r.Ok? <==> h in store && |store[h]| == ExpectedLength(cv, t))
            && (r == Threw(StreamDoesNotExist) <==> h !in store)
            && (r == Threw(MalformedStorageHead) <==> h in store && |store[h]| != ExpectedLength(cv, t))
            && forall k | Fits(t, k) && h in store && store[h] == ComposeStorageKey(cv, t, k) :: r == Ok(k)
  {
    hide ComposeStorageKey, DecomposeStorageKey, ExpectedLength, Readable;
    var h := HeadStorageKey(cv, t);
    assert |h| > 0;
    forall k | Fits(t, k) && h in store && store[h] == ComposeStorageKey(cv, t, k)
      ensures OpenHead(cv, t, store) == Ok(k) {
      ComposeRoundTrip(cv, t, k);
    }
  }

  // ---- Key growth ----

  /** An accepted primary key moves the head strictly up exactly when the secondary key does not
      wrap; the new head is a value of the stream's types either way. */
  lemma PushRaisesHead(t: Traits, head: OrderKey, primary: nat)
    requires Fits(t, head) && primary <= Max(t.primaryWidth)
    ensures NewHead(t, head, primary).Threw? <==> primary < head.primary
    ensures NewHead(t, head, primary).Ok? ==>
              && Fits(t, NewHead(t, head, primary).value)
              && (KeyLess(head, NewHead(t, head, primary).value) <==> NoWrap(t, head, primary))
  {
    var m := Max(t.secondaryWidth);
    if head.secondary < m {
      assert (head.secondary + 1) % (m + 1) == head.secondary + 1;
    } else {
      assert (head.secondary + 1) % (m + 1) == 0;
    }
  }

  /** An accepted push that does not wrap takes the least key of the stream's types that has its primary
      key and is above the head; it wraps exactly when there is none. */
  lemma PushTakesTheNextKey(cv: ConfigValues, t: Traits, store: Store, head: OrderKey, entry: Entry)
    requires Fits(t, head) && head.primary <= entry.primary <= Max(t.primaryWidth)
    ensures var head' := PushHeadSpec(cv, t, store, head, entry.primary).2;
            && PushSpec(cv, t, store, head, entry).2 == head'
            && (NoWrap(t, head, entry.primary) <==>
                  exists k :: Fits(t, k) && k.primary == entry.primary && KeyLess(head, k))
            && (NoWrap(t, head, entry.primary) ==>
                  && Fits(t, head') && head'.primary == entry.primary && KeyLess(head, head')
                  && forall k | Fits(t, k) && k.primary == entry.primary && KeyLess(head, k) :: !KeyLess(k, head'))
  {
    hide ComposeStorageKey, HeadStorageKey, SetSpec;
    PushRaisesHead(t, head, entry.primary);
    var head' := PushHeadSpec(cv, t, store, head, entry.primary).2;
    if NoWrap(t, head, entry.primary) {
      assert Fits(t, head') && KeyLess(head, head');
      if head.primary == entry.primary {
        assert (head.secondary + 1) % (Max(t.secondaryWidth) + 1) == head.secondary + 1;
      }
    }
  }

  /** A push at the head's own primary key when the secondary key is the largest of its type wraps: the
      head falls back to (primary, 0), and the entry is refused as an overwrite exactly when it has a
      value and an entry is stored under that key. Otherwise it is stored below those already there. */
  lemma WrappingPushFallsBack(cv: ConfigValues, t: Traits, store: Store, head: OrderKey, payload: Option<Value>)
    requires ValidConfig(cv) && ValidName(cv, t) && Fits(t, head) && head.secondary == Max(t.secondaryWidth)
    ensures var (r, store', head') := PushSpec(cv, t, store, head, Entry(head.primary, payload));
            var key := ComposeStorageKey(cv, t, OrderKey(head.primary, 0));
            && head' == OrderKey(head.primary, 0) && KeyLess(head', head)
            && Less(key, ComposeStorageKey(cv, t, head))
            && (r == Threw(StorageOverwriteNotAllowed) <==> payload.Some? && payload.value != [] && key in store)
            && (r.Ok? <==> payload.Some? && payload.value != [] && key !in store)
            && (r.Ok? ==> key in store' && store'[key] == payload.value)
            && (key in store ==> key in store' && store'[key] == store[key])
  {
    hide ComposeStorageKey, HeadStorageKey, InDataRange;
    var next := OrderKey(head.primary, 0);
    assert (head.secondary + 1) % (Max(t.secondaryWidth) + 1) == 0;
    ComposeRoundTrip(cv, t, next);
    RangeIsPrefix(cv, t, ComposeStorageKey(cv, t, next));
    StreamsAreIsolated(cv, t, t);
    ComposeOrder(cv, t, next, head);
  }

  // ---- src/stream.h ----

  class Stream {
    const cv: ConfigValues
    const traits: Traits
    const storage: StorageRef
    var head: OrderKey

    constructor (cv: ConfigValues, traits: Traits, storage: StorageRef, head: OrderKey)
      ensures this.cv == cv && this.traits == traits && this.storage == storage && this.head == head
    {
      this.cv, this.traits, this.storage, this.head := cv, traits, storage, head;
    }

    /** The constructor of the original, which throws unless the store holds a well-formed HEAD. */
    static method Open(cv: ConfigValues, traits: Traits, storage: StorageRef)
      returns (r: Result<Stream>)
      requires var h := HeadStorageKey(cv, traits);
               h in storage.Contents() ==> Readable(cv, traits, storage.Contents()[h])
      ensures match OpenHead(cv, traits, storage.Contents())
              case Threw(e) => r == Threw(e)
              case Ok(head) =>
                && r.Ok? && fresh(r.value) && r.value.head == head
                && r.value.cv == cv && r.value.traits == traits && r.value.storage == storage
    {
      var got := storage.Get(HeadStorageKey(cv, traits));
      match got {
        case Threw(_) => return Threw(StreamDoesNotExist);
        case Ok(value) =>
          var decomposed := DecomposeStorageKey(cv, traits, value);
          match decomposed {
            case Threw(e) => return Threw(e);
            case Ok(head) =>
              var stream := new Stream(cv, traits, storage, head);
              return Ok(stream);
          }
      }
    }
  }

  // ---- src/publishers.h ----

  class UnsafePublisher {
    const stream: Stream

    constructor (stream: Stream)
      ensures this.stream == stream
    {
      this.stream := stream;
    }

    /** Writes HEAD to storage first and to memory second. */
    method PushHeadUnguarded(primary: nat) returns (r: Result<()>)
      requires stream.storage.Valid()
      requires Fits(stream.traits, stream.head) && primary <= Max(stream.traits.primaryWidth)
      modifies stream, stream.storage.Object()
      ensures stream.storage.Valid()
      ensures (r, stream.storage.Contents(), stream.head) ==
              PushHeadSpec(stream.cv, stream.traits, old(stream.storage.Contents()), old(stream.head), primary)
      ensures Fits(stream.traits, stream.head)
    {
      PushRaisesHead(stream.traits, stream.head, primary);
      var newHead := OrderKey(primary, 0);
      if newHead.primary < stream.head.primary {
        return Threw(OrderKeysGoBackwards);
      }
      if !(stream.head.primary < newHead.primary) {
        newHead := newHead.(secondary := (stream.head.secondary + 1) % (Max(stream.traits.secondaryWidth) + 1));
      }
      assert NewHead(stream.traits, stream.head, primary) == Ok(newHead);
      hide NewHead, Fits, KeyLess, NoWrap, ComposeStorageKey, DecomposeStorageKey;
      var v := ComposeStorageKey(stream.cv, stream.traits, newHead);
      ComposeRoundTrip(stream.cv, stream.traits, newHead);
      r := stream.storage.Set(HeadStorageKey(stream.cv, stream.traits), v, true);
      stream.head := newHead;
    }

    method PushHead(primary: nat) returns (r: Result<()>)
      requires stream.storage.Valid()
      requires Fits(stream.traits, stream.head) && primary <= Max(stream.traits.primaryWidth)
      modifies stream, stream.storage.Object()
      ensures stream.storage.Valid()
      ensures (r, stream.storage.Contents(), stream.head) ==
              PushHeadSpec(stream.cv, stream.traits, old(stream.storage.Contents()), old(stream.head), primary)
      ensures Fits(stream.traits, stream.head)
    {
      r := PushHeadUnguarded(primary);
    }

    method Push(entry: Entry) returns (r: Result<()>)
      requires stream.storage.Valid()
      requires Fits(stream.traits, stream.head) && entry.primary <= Max(stream.traits.primaryWidth)
      modifies stream, stream.storage.Object()
      ensures stream.storage.Valid()
      ensures (r, stream.storage.Contents(), stream.head) ==
              PushSpec(stream.cv, stream.traits, old(stream.storage.Contents()), old(stream.head), entry)
      ensures Fits(stream.traits, stream.head)
    {
      r := PushHeadUnguarded(entry.primary);
      if r.Threw? { return; }
      if entry.payload.None? {
        return Threw(UnrecognizedPolymorphicType);
      }
      r := stream.storage.Set(
        ComposeStorageKey(stream.cv, stream.traits, stream.head), entry.payload.value, false);
    }
  }
}
