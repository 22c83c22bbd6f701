/** Byte strings in the order that both storages use: std::string and LevelDB keys compare
    as sequences of unsigned bytes, lexicographically. */
module Lex {

  type Byte = b: nat | b < 256

  type Key = seq<Byte>

  predicate Less(a: Key, b: Key) {
    b != [] && (a == [] || a[0] < b[0] || (a[0] == b[0] && Less(a[1..], b[1..])))
  }

  predicate AtMost(a: Key, b: Key) {
    a == b || Less(a, b)
  }

  // ---- Less is a strict total order ----

  lemma {:induction false} LessTrichotomy(a: Key, b: Key)
    ensures Less(a, b) || a == b || Less(b, a)
    ensures !(Less(a, b) && Less(b, a))
    ensures a == b ==> !Less(a, b)
  {
    if a != [] && b != [] {
      LessTrichotomy(a[1..], b[1..]);
      assert a == [a[0]] + a[1..] && b == [b[0]] + b[1..];
    }
  }

  lemma {:induction false} LessTransitive(a: Key, b: Key, c: Key)
    requires Less(a, b) && Less(b, c)
    ensures Less(a, c)
  {
    if a != [] && a[0] == b[0] == c[0] {
      LessTransitive(a[1..], b[1..], c[1..]);
    }
  }

  /** The order laws in quantified form, for proofs about sets of keys. */
  lemma Order()
    ensures forall a, b {:trigger Less(a, b)} :: Less(a, b) ==> !Less(b, a) && a != b
    ensures forall a, b {:trigger Less(a, b)} :: !Less(a, b) ==> a == b || Less(b, a)
    ensures forall a, b, c {:trigger Less(a, b), Less(b, c)} :: Less(a, b) && Less(b, c) ==> Less(a, c)
  {
    forall a, b ensures Less(a, b) ==> !Less(b, a) && a != b { LessTrichotomy(a, b); }
    forall a, b ensures !Less(a, b) ==> a == b || Less(b, a) { LessTrichotomy(a, b); }
    forall a, b, c | Less(a, b) && Less(b, c) ensures Less(a, c) { LessTransitive(a, b, c); }
  }

  // ---- Order and concatenation ----

  /** Strings whose first parts have equal length compare by first part, then by second part. */
  lemma {:induction false} ConcatOrder(a: Key, x: Key, b: Key, y: Key)
    requires |a| == |b|
    ensures Less(a + x, b + y) <==> Less(a, b) || (a == b && Less(x, y))
  {
    if a == [] {
      assert a + x == x && b + y == y;
    } else {
      ConcatOrder(a[1..], x, b[1..], y);
      assert (a + x)[1..] == a[1..] + x && (b + y)[1..] == b[1..] + y;
      assert a == [a[0]] + a[1..] && b == [b[0]] + b[1..];
    }
  }

  /** The half-open interval [base.d, base.(d+1)) holds exactly the strings that begin with base.d. */
  lemma {:induction false} PrefixInterval(base: Key, d: Byte, s: Key)
    requires d < 255
    ensures !Less(s, base + [d]) && Less(s, base + [d + 1]) <==> base + [d] <= s
  {
    var lo, hi := base + [d], base + [d + 1];
    if base == [] {
      assert lo == [d] && hi == [d + 1] && lo[1..] == [] && hi[1..] == [];
    } else if s != [] {
      PrefixInterval(base[1..], d, s[1..]);
      assert lo[1..] == base[1..] + [d] && hi[1..] == base[1..] + [d + 1];
      assert lo == [base[0]] + lo[1..] && s == [s[0]] + s[1..];
      if lo <= s {
        assert lo[0] == s[0];
        assert lo[1..] == s[1..][..|lo| - 1];
      }
    }
  }

  // ---- Least element and ascending listing of a finite set of keys ----

  predicate IsLeast(m: Key, ks: set<Key>) {
    m in ks && forall k | k in ks :: AtMost(m, k)
  }

  lemma {:induction false} LeastExists(ks: set<Key>)
    requires ks != {}
    ensures exists m :: IsLeast(m, ks)
    decreases |ks|
  {
    Order();
    var x :| x in ks;
    var rest := ks - {x};
    if rest == {} {
      assert ks == {x};
      assert IsLeast(x, ks);
    } else {
      LeastExists(rest);
      var m :| IsLeast(m, rest);
      assert forall k | k in ks :: k == x || k in rest;
      assert IsLeast(if Less(x, m) then x else m, ks);
    }
  }

  lemma LeastUnique(ks: set<Key>)
    ensures forall m, n :: IsLeast(m, ks) && IsLeast(n, ks) ==> m == n
  {
    Order();
  }

  function Least(ks: set<Key>): (m: Key)
    requires ks != {}
    ensures IsLeast(m, ks)
  {
    LeastExists(ks);
    LeastUnique(ks);
    var m :| m in ks && IsLeast(m, ks);
    m
  }

  function Sorted(ks: set<Key>): (s: seq<Key>)
    decreases |ks|
  {
    if ks == {} then [] else var m := Least(ks); [m] + Sorted(ks - {m})
  }

  predicate Ascending(s: seq<Key>) {
    forall i, j | 0 <= i < j < |s| :: Less(s[i], s[j])
  }

  /** Sorted(ks) holds each key of ks once and nothing else, smallest first. */
  lemma {:induction false} SortedIsAscendingListing(ks: set<Key>)
    ensures Ascending(Sorted(ks))
    ensures forall k :: k in Sorted(ks) <==> k in ks
    ensures |Sorted(ks)| == |ks|
    decreases |ks|
  {
    if ks != {} {
      var m := Least(ks);
      SortedIsAscendingListing(ks - {m});
      assert forall k | k in ks - {m} :: Less(m, k);
    }
  }

  /** There is no other such listing. */
  lemma {:induction false} SortedIsUnique(s: seq<Key>, ks: set<Key>)
    requires Ascending(s)
    requires forall k :: k in s <==> k in ks
    ensures s == Sorted(ks)
    decreases |s|
  {
    Order();
    if s == [] {
      assert ks == {};
    } else {
      assert s[0] in ks;
      assert IsLeast(s[0], ks);
      LeastUnique(ks);
      assert Least(ks) == s[0];
      forall k ensures k in s[1..] <==> k in ks - {s[0]} {
        if k in s[1..] {
          var i :| 0 <= i < |s[1..]| && s[1..][i] == k;
          assert s[i + 1] == k && Less(s[0], s[i + 1]);
        }
      }
      SortedIsUnique(s[1..], ks - {s[0]});
    }
  }

  /** Listing a low part and then a high part lists the whole. */
  lemma SortedSplit(a: set<Key>, b: set<Key>)
    requires forall x, y | x in a && y in b :: Less(x, y)
    ensures Sorted(a + b) == Sorted(a) + Sorted(b)
  {
    SortedIsAscendingListing(a);
    SortedIsAscendingListing(b);
    var s := Sorted(a) + Sorted(b);
    forall i, j | 0 <= i < j < |s| ensures Less(s[i], s[j]) {
      var p, q := Sorted(a), Sorted(b);
      if j < |p| {
      } else if i < |p| {
        assert p[i] in a && q[j - |p|] in b;
      } else {
        assert s[i] == q[i - |p|] && s[j] == q[j - |p|];
      }
    }
    SortedIsUnique(s, a + b);
  }

  lemma SortedAppend(a: set<Key>, m: Key)
    requires forall x | x in a :: Less(x, m)
    ensures Sorted(a + {m}) == Sorted(a) + [m]
  {
    SortedSplit(a, {m});
    LeastUnique({m});
    assert IsLeast(m, {m}) && {m} - {m} == {};
  }
}
