/** Storage key layout: the configured prefixes, and the (primary, secondary) order keys packed
    into storage keys. std::string and std::vector<uint8_t> are both byte sequences here, so the
    conversions KeyToValue and ValueToKey are the identity. */
module OrderKeys {
  import opened Common
  import opened Lex
  import opened FixedSizeSerializer

  /** A delimiter has a successor byte: EndDataStorageKey asserts it. */
  type Delimiter = b: nat | b < 255

  datatype ConfigValues = ConfigValues(metaPrefix: Key, dataPrefix: Key, delimiter: Delimiter)

  /** A stream's name and the widths of its two key components. */
  datatype Traits = Traits(name: Key, primaryWidth: Width, secondaryWidth: Width)

  datatype OrderKey = OrderKey(primary: nat, secondary: nat)

  /** The configurations in use: the delimiter occurs in neither prefix, and the prefixes differ. */
  predicate ValidConfig(cv: ConfigValues) {
    && cv.delimiter !in cv.metaPrefix
    && cv.delimiter !in cv.dataPrefix
    && cv.metaPrefix != cv.dataPrefix
  }

  /** Names are C++ identifiers, so they do not hold the delimiter. */
  predicate ValidName(cv: ConfigValues, t: Traits) {
    cv.delimiter !in t.name
  }

  predicate Fits(t: Traits, k: OrderKey) {
    k.primary <= Max(t.primaryWidth) && k.secondary <= Max(t.secondaryWidth)
  }

  predicate KeyLess(a: OrderKey, b: OrderKey) {
    a.primary < b.primary || (a.primary == b.primary && a.secondary < b.secondary)
  }

  // ---- Key layout ----

  function HeadStorageKey(cv: ConfigValues, t: Traits): Key {
    cv.metaPrefix + [cv.delimiter] + t.name
  }

  function StreamDataPrefix(cv: ConfigValues, t: Traits): Key {
    cv.dataPrefix + [cv.delimiter] + t.name + [cv.delimiter]
  }

  function EndDataStorageKey(cv: ConfigValues, t: Traits): Key
  {
    cv.dataPrefix + [cv.delimiter] + t.name + [cv.delimiter + 1]
  }

  function ComposeStorageKey(cv: ConfigValues, t: Traits, k: OrderKey): Key {
    StreamDataPrefix(cv, t)
    + PackToString(t.primaryWidth, k.primary)
    + PackToString(t.secondaryWidth, k.secondary)
  }

  function ExpectedLength(cv: ConfigValues, t: Traits): nat {
    |StreamDataPrefix(cv, t)| + SizeInBytes(t.primaryWidth) + SizeInBytes(t.secondaryWidth)
  }

  function PrimaryText(cv: ConfigValues, t: Traits, s: Key): Key
    requires |s| == ExpectedLength(cv, t)
  {
    s[|StreamDataPrefix(cv, t)|..][..SizeInBytes(t.primaryWidth)]
  }

  function SecondaryText(cv: ConfigValues, t: Traits, s: Key): Key
    requires |s| == ExpectedLength(cv, t)
  {
    s[|StreamDataPrefix(cv, t)|..][SizeInBytes(t.primaryWidth)..]
  }

  /** Text of the expected length holds digits where the numbers are read. */
  predicate Readable(cv: ConfigValues, t: Traits, s: Key) {
    |s| == ExpectedLength(cv, t) ==>
      AllDigits(PrimaryText(cv, t, s)) && AllDigits(SecondaryText(cv, t, s))
  }

  /** Checks the length only: the prefix bytes are skipped, not compared. */
  function DecomposeStorageKey(cv: ConfigValues, t: Traits, s: Key): (r: Result<OrderKey>)
    requires Readable(cv, t, s)
    ensures r.Ok? <==> |s| == ExpectedLength(cv, t)
    ensures r.Ok? ==> Fits(t, r.value)
    ensures r.Threw? ==> r.exception == MalformedStorageHead
  {
    if |s| != ExpectedLength(cv, t) then
      Threw(MalformedStorageHead)
    else
      Ok(OrderKey(UnpackFromString(t.primaryWidth, PrimaryText(cv, t, s)),
                  UnpackFromString(t.secondaryWidth, SecondaryText(cv, t, s))))
  }

  /** The keys the publisher writes: those that composing gives back after decomposing. */
  predicate IsDataKey(cv: ConfigValues, t: Traits, s: Key) {
    && |s| == ExpectedLength(cv, t)
    && Readable(cv, t, s)
    && ComposeStorageKey(cv, t, DecomposeStorageKey(cv, t, s).value) == s
  }

  // ---- The codec ----

  lemma PartsOf(p: Key, a: Key, b: Key)
    ensures var s := p + a + b;
            p <= s && s[|p|..][..|a|] == a && s[|p|..][|a|..] == b
  {
    assert (p + a + b)[|p|..] == a + b;
  }

  lemma ComposeSplits(cv: ConfigValues, t: Traits, k: OrderKey)
    requires Fits(t, k)
    ensures var s := ComposeStorageKey(cv, t, k);
            && |s| == ExpectedLength(cv, t)
            && StreamDataPrefix(cv, t) <= s
            && PrimaryText(cv, t, s) == PackToString(t.primaryWidth, k.primary)
            && SecondaryText(cv, t, s) == PackToString(t.secondaryWidth, k.secondary)
  {
    hide PackToString, UnpackFromString, StreamDataPrefix, SizeInBytes, Number, AllDigits;
    PackRoundTrip(t.primaryWidth, k.primary);
    PackRoundTrip(t.secondaryWidth, k.secondary);
    PartsOf(StreamDataPrefix(cv, t), PackToString(t.primaryWidth, k.primary),
            PackToString(t.secondaryWidth, k.secondary));
  }

  /** Decomposing a composed key gives the key, for every key of the stream's types. */
  lemma ComposeRoundTrip(cv: ConfigValues, t: Traits, k: OrderKey)
    requires Fits(t, k)
    ensures var s := ComposeStorageKey(cv, t, k);
            && |s| == ExpectedLength(cv, t)
            && Readable(cv, t, s)
            && DecomposeStorageKey(cv, t, s) == Ok(k)
            && IsDataKey(cv, t, s)
            && StreamDataPrefix(cv, t) <= s
  {
    ComposeSplits(cv, t, k);
    PackRoundTrip(t.primaryWidth, k.primary);
    PackRoundTrip(t.secondaryWidth, k.secondary);
  }

  /** Composing what was decomposed gives the text back exactly when the text has this stream's
      prefix and both its numbers are values of their types. */
  lemma DecomposeRoundTrip(cv: ConfigValues, t: Traits, s: Key)
    requires |s| == ExpectedLength(cv, t) && Readable(cv, t, s)
    ensures ComposeStorageKey(cv, t, DecomposeStorageKey(cv, t, s).value) == s <==>
              && StreamDataPrefix(cv, t) <= s
              && Number(PrimaryText(cv, t, s)) <= Max(t.primaryWidth)
              && Number(SecondaryText(cv, t, s)) <= Max(t.secondaryWidth)
  {
    hide PackToString, StreamDataPrefix, SizeInBytes, Number, AllDigits;
    var p, a, b := StreamDataPrefix(cv, t), PrimaryText(cv, t, s), SecondaryText(cv, t, s);
    var k := DecomposeStorageKey(cv, t, s).value;
    UnpackRoundTrip(t.primaryWidth, a);
    UnpackRoundTrip(t.secondaryWidth, b);
    ComposeSplits(cv, t, k);
    assert s == s[..|p|] + (a + b);
    assert ComposeStorageKey(cv, t, k)
        == p + (PackToString(t.primaryWidth, k.primary) + PackToString(t.secondaryWidth, k.secondary));
  }

  /** Composed keys compare byte by byte exactly as the pairs compare numerically. */
  lemma ComposeOrder(cv: ConfigValues, t: Traits, k: OrderKey, l: OrderKey)
    requires Fits(t, k) && Fits(t, l)
    ensures Less(ComposeStorageKey(cv, t, k), ComposeStorageKey(cv, t, l)) <==> KeyLess(k, l)
    ensures ComposeStorageKey(cv, t, k) == ComposeStorageKey(cv, t, l) <==> k == l
  {
    hide PackToString, StreamDataPrefix, SizeInBytes, Number, AllDigits, IsDataKey;
    var p := StreamDataPrefix(cv, t);
    var a, b := PackToString(t.primaryWidth, k.primary), PackToString(t.secondaryWidth, k.secondary);
    var c, d := PackToString(t.primaryWidth, l.primary), PackToString(t.secondaryWidth, l.secondary);
    assert ComposeStorageKey(cv, t, k) == p + (a + b);
    assert ComposeStorageKey(cv, t, l) == p + (c + d);
    PackRoundTrip(t.primaryWidth, k.primary);
    PackRoundTrip(t.primaryWidth, l.primary);
    PackOrder(t.primaryWidth, k.primary, l.primary);
    PackOrder(t.secondaryWidth, k.secondary, l.secondary);
    ConcatOrder(p, a + b, p, c + d);
    ConcatOrder(a, b, c, d);
    LessTrichotomy(p, p);
    ComposeRoundTrip(cv, t, k);
    ComposeRoundTrip(cv, t, l);
  }

  // ---- Ranges ----

  /** The interval a listener's iterator walks. */
  predicate InDataRange(cv: ConfigValues, t: Traits, s: Key)
  {
    !Less(s, StreamDataPrefix(cv, t)) && Less(s, EndDataStorageKey(cv, t))
  }

  /** A string lies in the interval exactly when it begins with the stream's data prefix. */
  lemma RangeIsPrefix(cv: ConfigValues, t: Traits, s: Key)
    ensures InDataRange(cv, t, s) <==> StreamDataPrefix(cv, t) <= s
  {
    PrefixInterval(cv.dataPrefix + [cv.delimiter] + t.name, cv.delimiter, s);
  }

  lemma {:induction false} SplitAtDelimiter(d: Byte, a: Key, x: Key, b: Key, y: Key)
    requires d !in a && d !in b
    requires a + [d] + x == b + [d] + y
    ensures a == b && x == y
  {
    if a == [] || b == [] {
      assert (a + [d] + x)[0] == (b + [d] + y)[0];
      assert (a + [d] + x)[1..] == (b + [d] + y)[1..];
      assert a == [] ==> (a + [d] + x)[1..] == x;
      assert b == [] ==> (b + [d] + y)[1..] == y;
    } else {
      assert (a + [d] + x)[1..] == a[1..] + [d] + x;
      assert (b + [d] + y)[1..] == b[1..] + [d] + y;
      assert (a + [d] + x)[0] == a[0] && (b + [d] + y)[0] == b[0];
      SplitAtDelimiter(d, a[1..], x, b[1..], y);
      assert a == [a[0]] + a[1..] && b == [b[0]] + b[1..];
    }
  }

  /** Under one configuration, two streams share a data range exactly when one delimited name is a
      prefix of the other. */
  lemma RangesMeet(cv: ConfigValues, t: Traits, u: Traits)
    ensures (exists s :: InDataRange(cv, t, s) && InDataRange(cv, u, s)) <==>
            t.name + [cv.delimiter] <= u.name + [cv.delimiter]
            || u.name + [cv.delimiter] <= t.name + [cv.delimiter]
  {
    var base := cv.dataPrefix + [cv.delimiter];
    var n, m := t.name + [cv.delimiter], u.name + [cv.delimiter];
    assert StreamDataPrefix(cv, t) == base + n && StreamDataPrefix(cv, u) == base + m;
    forall s ensures InDataRange(cv, t, s) <==> base + n <= s
             ensures InDataRange(cv, u, s) <==> base + m <= s {
      RangeIsPrefix(cv, t, s);
      RangeIsPrefix(cv, u, s);
    }
    if s :| InDataRange(cv, t, s) && InDataRange(cv, u, s) {
      var rest := s[|base|..];
      assert n == rest[..|n|] && m == rest[..|m|];
      assert if |n| <= |m| then n == m[..|n|] else m == n[..|m|];
    }
    if n <= m {
      assert m == n + m[|n|..];
      assert base + m == (base + n) + m[|n|..];
      assert InDataRange(cv, t, base + m) && InDataRange(cv, u, base + m);
    } else if m <= n {
      assert base + n == (base + m) + n[|m|..];
      assert InDataRange(cv, t, base + n) && InDataRange(cv, u, base + n);
    }
  }

  /** Streams with different names never share a data key, a HEAD key, or one with the other. */
  lemma StreamsAreIsolated(cv: ConfigValues, t: Traits, u: Traits)
    requires ValidConfig(cv) && ValidName(cv, t) && ValidName(cv, u)
    ensures !InDataRange(cv, t, HeadStorageKey(cv, u))
    ensures t.name != u.name ==> HeadStorageKey(cv, t) != HeadStorageKey(cv, u)
    ensures t.name != u.name ==> forall s :: !(InDataRange(cv, t, s) && InDataRange(cv, u, s))
  {
    var d := cv.delimiter;
    var head := HeadStorageKey(cv, u);
    RangeIsPrefix(cv, t, head);
    if StreamDataPrefix(cv, t) <= head {
      var tail := head[|StreamDataPrefix(cv, t)|..];
      assert head == StreamDataPrefix(cv, t) + tail;
      assert head == cv.dataPrefix + [d] + (t.name + [d] + tail);
      SplitAtDelimiter(d, cv.metaPrefix, u.name, cv.dataPrefix, t.name + [d] + tail);
      assert false;
    }
    if HeadStorageKey(cv, t) == HeadStorageKey(cv, u) {
      SplitAtDelimiter(d, cv.metaPrefix, t.name, cv.metaPrefix, u.name);
    }
    RangesMeet(cv, t, u);
    var n, m := t.name + [d], u.name + [d];
    if n <= m {
      assert m == t.name + [d] + m[|n|..];
      SplitAtDelimiter(d, u.name, [], t.name, m[|n|..]);
    } else if m <= n {
      assert n == u.name + [d] + n[|m|..];
      SplitAtDelimiter(d, t.name, [], u.name, n[|m|..]);
    }
  }

  // ---- Known keys ----

  function Ascii(s: string): Key
    requires forall i | 0 <= i < |s| :: s[i] < 128 as char
  {
    seq(|s|, i requires 0 <= i < |s| => s[i] as nat)
  }

  lemma OneDigit(w: Width, d: nat)
    requires d < 10
    ensures PackToString(w, d) == Zeros(SizeInBytes(w) - 1) + [ZERO + d]
  {
  }

  lemma ZerosAre(n: nat, s: string)
    requires |s| == n && forall i | 0 <= i < n :: s[i] == '0'
    ensures Zeros(n) == Ascii(s)
  {
  }

  lemma AsciiConcat(a: string, b: string)
    requires forall i | 0 <= i < |a| :: a[i] < 128 as char
    requires forall i | 0 <= i < |b| :: b[i] < 128 as char
    ensures Ascii(a + b) == Ascii(a) + Ascii(b)
  {
  }

  lemma KnownPack(w: Width, s: string, d: nat, digit: string)
    requires |s| == SizeInBytes(w) - 1 && forall i | 0 <= i < |s| :: s[i] == '0'
    requires d < 10 && |digit| == 1 && digit[0] as nat == ZERO + d
    ensures PackToString(w, d) == Ascii(s + digit)
  {
    OneDigit(w, d);
    ZerosAre(|s|, s);
    AsciiConcat(s, digit);
  }

  lemma KnownPrefixes(cv: ConfigValues, t: Traits)
    requires cv == ConfigValues(Ascii("s"), Ascii("d"), ':' as nat) && t.name == Ascii("test")
    ensures HeadStorageKey(cv, t) == Ascii("s:test")
    ensures EndDataStorageKey(cv, t) == Ascii("d:test;")
    ensures StreamDataPrefix(cv, t) == Ascii("d:test:")
  {
  }

  /** The storage keys of the repository's tests. */
  lemma KnownKeys(cv: ConfigValues, t: Traits, u: Traits)
    requires cv == ConfigValues(Ascii("s"), Ascii("d"), ':' as nat)
    requires t == Traits(Ascii("test"), W32, W32) && u == Traits(Ascii("test"), W16, W16)
    ensures HeadStorageKey(cv, t) == Ascii("s:test") && EndDataStorageKey(cv, t) == Ascii("d:test;")
    ensures ComposeStorageKey(cv, t, OrderKey(2, 1)) == Ascii("d:test:" + "0000000002" + "0000000001")
    ensures ComposeStorageKey(cv, u, OrderKey(1, 0)) == Ascii("d:test:" + "00001" + "00000")
  {
    hide PackToString, HeadStorageKey, EndDataStorageKey, StreamDataPrefix, Ascii;
    KnownPrefixes(cv, t);
    KnownPrefixes(cv, u);
    KnownPack(W32, "000000000", 2, "2");
    KnownPack(W32, "000000000", 1, "1");
    KnownPack(W16, "0000", 1, "1");
    KnownPack(W16, "0000", 0, "0");
    AsciiConcat("d:test:" + "0000000002", "0000000001");
    AsciiConcat("d:test:", "0000000002");
    AsciiConcat("d:test:" + "00001", "00000");
    AsciiConcat("d:test:", "00001");
    assert "000000000" + "2" == "0000000002" && "000000000" + "1" == "0000000001";
    assert "0000" + "1" == "00001" && "0000" + "0" == "00000";
  }
}
