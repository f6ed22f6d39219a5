/**
  Sorting by a pair of strings, as `sort.Slice` is used on desired items (by
  namespace, then name) and on environment variables (by name). `sort.Slice` is
  not stable, so the only facts a caller may use are that the result is ordered
  and a permutation; with distinct keys those two facts determine the result.
 */
module Sorting {
  import opened Text

  type Key = (string, string)

  predicate KeyLess(a: Key, b: Key) {
    if a.0 == b.0 then Less(a.1, b.1) else Less(a.0, b.0)
  }

  lemma KeyLessIrreflexive(a: Key)
    ensures !KeyLess(a, a)
  {
    LessIrreflexive(a.1);
  }

  lemma KeyLessTransitive(a: Key, b: Key, c: Key)
    requires KeyLess(a, b) && KeyLess(b, c)
    ensures KeyLess(a, c)
  {
    if a.0 == b.0 && b.0 == c.0 {
      LessTransitive(a.1, b.1, c.1);
    } else if a.0 != b.0 && b.0 != c.0 {
      LessTransitive(a.0, b.0, c.0);
      LessIrreflexive(a.0);
    }
  }

  lemma KeyLessTotal(a: Key, b: Key)
    ensures a == b || KeyLess(a, b) || KeyLess(b, a)
  {
    LessTotal(a.0, b.0);
    LessTotal(a.1, b.1);
  }

  /** Consecutive elements are never out of order: what `sort.Slice` guarantees. */
  ghost predicate Ordered<T>(s: seq<T>, key: T -> Key) {
    forall i, j :: 0 <= i < j < |s| ==> !KeyLess(key(s[j]), key(s[i]))
  }

  ghost predicate DistinctKeys<T>(s: seq<T>, key: T -> Key) {
    forall i, j :: 0 <= i < j < |s| ==> key(s[i]) != key(s[j])
  }

  /** Distinct keys make a multiset of elements a set keyed by `key`. */
  lemma DistinctKeysPermute<T>(s: seq<T>, t: seq<T>, key: T -> Key)
    requires multiset(s) == multiset(t)
    requires DistinctKeys(s, key)
    ensures DistinctKeys(t, key)
  {
    forall i, j | 0 <= i < j < |t|
      ensures key(t[i]) != key(t[j])
    {
      if key(t[i]) == key(t[j]) {
        SameKeySameElement(s, t, t[i], t[j], key);
        var u := t[..i] + t[i + 1..];
        assert t == t[..i] + [t[i]] + t[i + 1..];
        assert multiset(t) == multiset(u) + multiset{t[i]};
        assert u[j - 1] == t[j];
        assert t[j] in multiset(u);
        assert multiset(t)[t[i]] >= 2;
        AtMostOnce(s, t[i], key);
      }
    }
  }

  lemma SameKeySameElement<T>(s: seq<T>, t: seq<T>, x: T, y: T, key: T -> Key)
    requires multiset(s) == multiset(t)
    requires DistinctKeys(s, key)
    requires x in t && y in t && key(x) == key(y)
    ensures x == y
  {
    assert x in multiset(t) && y in multiset(t);
    assert x in s && y in s;
  }

  lemma {:induction false} AtMostOnce<T>(s: seq<T>, x: T, key: T -> Key)
    requires DistinctKeys(s, key)
    ensures multiset(s)[x] <= 1
  {
    if s != [] {
      AtMostOnce(s[1..], x, key);
      assert s == [s[0]] + s[1..];
      assert forall j :: 0 <= j < |s[1..]| ==> s[1..][j] == s[j + 1] && key(s[0]) != key(s[j + 1]);
    }
  }

  lemma SameHead<T>(s: seq<T>, t: seq<T>, key: T -> Key)
    requires s != [] && multiset(s) == multiset(t)
    requires DistinctKeys(s, key)
    requires Ordered(s, key) && Ordered(t, key)
    ensures t != [] && s[0] == t[0]
  {
    assert s[0] in multiset(s) && s[0] in t;
    assert t[0] in multiset(t) && t[0] in s;
    HeadIsLeast(s, t[0], key);
    HeadIsLeast(t, s[0], key);
    KeyLessTotal(key(s[0]), key(t[0]));
    SameKeySameElement(s, t, s[0], t[0], key);
  }

  lemma TailMultiset<T>(s: seq<T>)
    requires s != []
    ensures multiset(s[1..]) == multiset(s) - multiset{s[0]}
  {
    assert s == [s[0]] + s[1..];
  }

  /** With distinct keys, an ordered permutation is unique: the list's original order is forgotten. */
  lemma {:induction false} OrderedUnique<T>(s: seq<T>, t: seq<T>, key: T -> Key)
    requires multiset(s) == multiset(t)
    requires DistinctKeys(s, key)
    requires Ordered(s, key) && Ordered(t, key)
    ensures s == t
    decreases |s|
  {
    if s == [] {
      assert |multiset(t)| == 0;
    } else {
      SameHead(s, t, key);
      TailMultiset(s);
      TailMultiset(t);
      OrderedUnique(s[1..], t[1..], key);
      assert s == [s[0]] + s[1..];
      assert t == [t[0]] + t[1..];
    }
  }

  lemma HeadIsLeast<T>(s: seq<T>, x: T, key: T -> Key)
    requires Ordered(s, key) && x in s
    ensures !KeyLess(key(x), key(s[0]))
  {
    var i :| 0 <= i < |s| && s[i] == x;
    if i == 0 {
      KeyLessIrreflexive(key(x));
    }
  }

  // ---------- a functional sort, to talk about the result in specifications ----------

  function Insert<T>(x: T, s: seq<T>, key: T -> Key): seq<T> {
    if s == [] then [x]
    else if KeyLess(key(s[0]), key(x)) then [s[0]] + Insert(x, s[1..], key)
    else [x] + s
  }

  function Sort<T>(s: seq<T>, key: T -> Key): seq<T> {
    if s == [] then [] else Insert(s[0], Sort(s[1..], key), key)
  }

  lemma {:induction false} InsertElements<T>(x: T, s: seq<T>, key: T -> Key)
    ensures multiset(Insert(x, s, key)) == multiset(s) + multiset{x}
  {
    hide KeyLess;
    if s != [] && KeyLess(key(s[0]), key(x)) {
      InsertElements(x, s[1..], key);
      assert s == [s[0]] + s[1..];
    }
  }

  /** An element that is not above the head of an ordered list is above no element of it. */
  lemma BelowHead<T>(x: T, s: seq<T>, key: T -> Key, j: nat)
    requires Ordered(s, key) && j < |s| && !KeyLess(key(s[0]), key(x))
    ensures !KeyLess(key(s[j]), key(x))
  {
    hide KeyLess;
    if KeyLess(key(s[j]), key(x)) {
      KeyLessTotal(key(s[0]), key(s[j]));
      if KeyLess(key(s[0]), key(s[j])) {
        KeyLessTransitive(key(s[0]), key(s[j]), key(x));
      }
    }
  }

  lemma {:induction false} InsertOrdered<T>(x: T, s: seq<T>, key: T -> Key)
    requires Ordered(s, key)
    ensures Ordered(Insert(x, s, key), key)
  {
    hide KeyLess;
    if s != [] && KeyLess(key(s[0]), key(x)) {
      InsertOrdered(x, s[1..], key);
      InsertElements(x, s[1..], key);
      var r := Insert(x, s[1..], key);
      forall j | 0 <= j < |r| ensures !KeyLess(key(r[j]), key(s[0])) {
        assert r[j] in multiset(r);
        if r[j] == x {
          if KeyLess(key(x), key(s[0])) {
            KeyLessTransitive(key(x), key(s[0]), key(x));
            KeyLessIrreflexive(key(x));
          }
        } else {
          assert r[j] in s[1..];
        }
      }
    } else {
      forall j | 0 <= j < |s| ensures !KeyLess(key(s[j]), key(x)) {
        BelowHead(x, s, key, j);
      }
    }
  }

  lemma {:induction false} SortFacts<T>(s: seq<T>, key: T -> Key)
    ensures multiset(Sort(s, key)) == multiset(s)
    ensures Ordered(Sort(s, key), key)
  {
    if s != [] {
      SortFacts(s[1..], key);
      InsertElements(s[0], Sort(s[1..], key), key);
      InsertOrdered(s[0], Sort(s[1..], key), key);
      assert s == [s[0]] + s[1..];
    }
  }

  lemma SortLength<T>(s: seq<T>, key: T -> Key)
    ensures |Sort(s, key)| == |s|
  {
    SortFacts(s, key);
    assert |Sort(s, key)| == |multiset(Sort(s, key))| == |multiset(s)| == |s|;
  }

  /** Every list with these elements sorts to the same result. */
  lemma SortForgetsOrder<T>(s: seq<T>, t: seq<T>, key: T -> Key)
    requires multiset(s) == multiset(t)
    requires DistinctKeys(s, key)
    ensures Sort(s, key) == Sort(t, key)
  {
    SortFacts(s, key);
    SortFacts(t, key);
    DistinctKeysPermute(s, Sort(s, key), key);
    OrderedUnique(Sort(s, key), Sort(t, key), key);
  }

  // ---------- the in-place sort ----------

  /** Insertion behind the elements with the same key. */
  function InsertAfter<T>(x: T, s: seq<T>, key: T -> Key): seq<T> {
    if s == [] then [x]
    else if KeyLess(key(x), key(s[0])) then [x] + s
    else [s[0]] + InsertAfter(x, s[1..], key)
  }

  lemma {:induction false} InsertionsCommute<T>(a: T, x: T, s: seq<T>, key: T -> Key)
    ensures Insert(a, InsertAfter(x, s, key), key) == InsertAfter(x, Insert(a, s, key), key)
  {
    hide KeyLess;
    if s == [] {
      assert [x][1..] == [] && [a][1..] == [];
    } else {
      var h, t := s[0], s[1..];
      assert ([x] + s)[1..] == s && ([a] + s)[1..] == s;
      if KeyLess(key(x), key(h)) {
        if KeyLess(key(h), key(a)) {
          KeyLessTransitive(key(x), key(h), key(a));
          assert ([h] + Insert(a, t, key))[0] == h;
        }
      } else {
        assert ([h] + InsertAfter(x, t, key))[1..] == InsertAfter(x, t, key);
        if KeyLess(key(h), key(a)) {
          InsertionsCommute(a, x, t, key);
          assert ([h] + Insert(a, t, key))[1..] == Insert(a, t, key);
        } else {
          NotBelow(key(x), key(a), key(h));
        }
      }
    }
  }

  /** What is not below `h` is not below anything up to `h`. */
  lemma NotBelow(x: Key, a: Key, h: Key)
    requires !KeyLess(x, h) && !KeyLess(h, a)
    ensures !KeyLess(x, a)
  {
    hide KeyLess;
    if KeyLess(x, a) {
      KeyLessTotal(a, h);
      if KeyLess(a, h) {
        KeyLessTransitive(x, a, h);
      }
    }
  }

  /** Sorting one more element inserts it behind its equals. */
  lemma {:induction false} SortOneMore<T>(s: seq<T>, x: T, key: T -> Key)
    ensures Sort(s + [x], key) == InsertAfter(x, Sort(s, key), key)
  {
    hide KeyLess, Insert, InsertAfter;
    if s == [] {
      assert [x][1..] == [];
      InsertAlone(x, key);
    } else {
      assert (s + [x])[1..] == s[1..] + [x];
      SortOneMore(s[1..], x, key);
      InsertionsCommute(s[0], x, Sort(s[1..], key), key);
    }
  }

  lemma InsertAlone<T>(x: T, key: T -> Key)
    ensures Insert(x, [], key) == InsertAfter(x, [], key) == [x]
  {
  }

  lemma SortNone<T>(s: seq<T>, key: T -> Key)
    ensures Sort(s[..0], key) == []
  {
  }

  /** Insertion of each element into the ordered part before it. */
  method SortInPlace<T>(s: seq<T>, key: T -> Key) returns (r: seq<T>)
    ensures r == Sort(s, key)
    ensures multiset(r) == multiset(s) && Ordered(r, key)
  {
    hide KeyLess, Ordered, Sort, InsertAfter;
    r := [];
    SortNone(s, key);
    for i := 0 to |s|
      invariant r == Sort(s[..i], key)
    {
      SortFacts(s[..i], key);
      r := InsertInPlace(r, s[i], key);
      assert s[..i + 1] == s[..i] + [s[i]];
      SortOneMore(s[..i], s[i], key);
    }
    assert s[..|s|] == s;
    SortFacts(s, key);
  }

  method InsertInPlace<T>(s: seq<T>, x: T, key: T -> Key) returns (r: seq<T>)
    requires Ordered(s, key)
    ensures r == InsertAfter(x, s, key)
  {
    var k := |s|;
    while k > 0 && KeyLess(key(x), key(s[k - 1]))
      invariant 0 <= k <= |s|
      invariant forall j :: k <= j < |s| ==> KeyLess(key(x), key(s[j]))
    {
      k := k - 1;
    }
    r := s[..k] + [x] + s[k..];
    InsertedAt(s, x, k, key);
  }

  lemma {:induction false} InsertedAt<T>(s: seq<T>, x: T, k: nat, key: T -> Key)
    requires Ordered(s, key) && k <= |s|
    requires k > 0 ==> !KeyLess(key(x), key(s[k - 1]))
    requires forall m :: k <= m < |s| ==> KeyLess(key(x), key(s[m]))
    ensures s[..k] + [x] + s[k..] == InsertAfter(x, s, key)
  {
    hide KeyLess;
    if k > 0 {
      if k > 1 {
        NotBelow(key(x), key(s[0]), key(s[k - 1]));
      }
      assert s[..k] == [s[0]] + s[1..][..k - 1] && s[k..] == s[1..][k - 1..];
      InsertedAt(s[1..], x, k - 1, key);
    }
  }
}
