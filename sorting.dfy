/**
 * Sorting newest first. Every list the application shows is ordered by one
 * timestamp, descending: `ORDER BY <field> DESC` on the server and
 * `Array.prototype.sort((a, b) => key(b) - key(a))` on both sides.
 * ECMAScript requires `sort` to be stable, so rows with equal timestamps keep
 * their input order; `SortDesc` is a stable insertion sort and
 * `StableSortIsUnique` shows that every stable descending sort returns the
 * same list, so the model does not depend on the engine's algorithm.
 */
module Sorting {

  /** Keys never increase from left to right. */
  ghost predicate SortedDesc<T>(s: seq<T>, key: T -> int) {
    forall i, j :: 0 <= i < j < |s| ==> key(s[i]) >= key(s[j])
  }

  /** The elements of `s` whose key is `k`, in their order in `s`. */
  function WithKey<T>(s: seq<T>, key: T -> int, k: int): seq<T> {
    if s == [] then []
    else if key(s[0]) == k then [s[0]] + WithKey(s[1..], key, k)
    else WithKey(s[1..], key, k)
  }

  /** `r` is `s` sorted newest first, with equal keys in their order in `s`. */
  ghost predicate StablySortedDesc<T>(r: seq<T>, s: seq<T>, key: T -> int) {
    && SortedDesc(r, key)
    && multiset(r) == multiset(s)
    && forall k :: WithKey(r, key, k) == WithKey(s, key, k)
  }

  /** Inserts `x` in front of the first element whose key is not larger. */
  function Insert<T>(x: T, s: seq<T>, key: T -> int): (r: seq<T>)
    ensures |r| == |s| + 1
    ensures multiset(r) == multiset(s) + multiset{x}
    ensures SortedDesc(s, key) ==> SortedDesc(r, key)
  {
    if s == [] || key(s[0]) <= key(x) then [x] + s
    else
      var t := Insert(x, s[1..], key);
      assert s == [s[0]] + s[1..];
      assert multiset([s[0]] + t) == multiset{s[0]} + multiset(t);
      InsertStep(x, s, t, key);
      [s[0]] + t
  }

  /** The step of `Insert` that keeps a descending list descending. */
  lemma InsertStep<T>(x: T, s: seq<T>, t: seq<T>, key: T -> int)
    requires s != [] && key(s[0]) > key(x)
    requires multiset(t) == multiset(s[1..]) + multiset{x}
    requires SortedDesc(s[1..], key) ==> SortedDesc(t, key)
    ensures SortedDesc(s, key) ==> SortedDesc([s[0]] + t, key)
  {
    if SortedDesc(s, key) {
      assert SortedDesc(s[1..], key);
      forall y | y in t ensures key(s[0]) >= key(y) {
        assert y in multiset(t);
        if y != x {
          assert y in multiset(s[1..]);
          var j :| 0 <= j < |s[1..]| && s[1..][j] == y;
          assert s[j + 1] == y;
        }
      }
      SortedCons(s[0], t, key);
    }
  }

  /** An element no smaller than every key of a descending list can go in front of it. */
  lemma SortedCons<T>(h: T, t: seq<T>, key: T -> int)
    requires SortedDesc(t, key)
    requires forall y :: y in t ==> key(h) >= key(y)
    ensures SortedDesc([h] + t, key)
  {
    var r := [h] + t;
    forall i, j | 0 <= i < j < |r| ensures key(r[i]) >= key(r[j]) {
      assert r[j] == t[j - 1];
      if i > 0 {
        assert r[i] == t[i - 1];
      }
    }
  }

  /** Sorts `s` newest first, stably. */
  function SortDesc<T>(s: seq<T>, key: T -> int): (r: seq<T>)
    ensures |r| == |s|
    ensures multiset(r) == multiset(s)
    ensures SortedDesc(r, key)
  {
    if s == [] then []
    else
      var t := SortDesc(s[1..], key);
      assert s == [s[0]] + s[1..];
      assert |multiset(t)| == |t|;
      Insert(s[0], t, key)
  }

  lemma {:induction false} InsertWithKey<T>(x: T, s: seq<T>, key: T -> int, k: int)
    ensures WithKey(Insert(x, s, key), key, k)
         == if key(x) == k then [x] + WithKey(s, key, k) else WithKey(s, key, k)
  {
    if s == [] || key(s[0]) <= key(x) {
      assert ([x] + s)[1..] == s;
    } else {
      var t := Insert(x, s[1..], key);
      assert ([s[0]] + t)[1..] == t;
      InsertWithKey(x, s[1..], key, k);
    }
  }

  /** `SortDesc` keeps equal keys in input order. */
  lemma {:induction false} SortDescIsStable<T>(s: seq<T>, key: T -> int)
    ensures StablySortedDesc(SortDesc(s, key), s, key)
  {
    if s != [] {
      SortDescIsStable(s[1..], key);
      forall k ensures WithKey(SortDesc(s, key), key, k) == WithKey(s, key, k) {
        InsertWithKey(s[0], SortDesc(s[1..], key), key, k);
      }
    }
  }

  lemma {:induction false} WithKeyMembers<T>(s: seq<T>, key: T -> int, k: int)
    ensures forall y :: y in WithKey(s, key, k) ==> y in s && key(y) == k
  {
    if s != [] {
      WithKeyMembers(s[1..], key, k);
    }
  }

  lemma FirstGroupNonEmpty<T>(s: seq<T>, key: T -> int)
    ensures s != [] ==> WithKey(s, key, key(s[0])) != []
  {
  }

  /** Two sorted lists that agree on the order of each key's elements are equal. */
  lemma {:induction false} SortedAgreeingListsAreEqual<T>(a: seq<T>, b: seq<T>, key: T -> int)
    requires SortedDesc(a, key) && SortedDesc(b, key)
    requires forall k :: WithKey(a, key, k) == WithKey(b, key, k)
    ensures a == b
    decreases |a| + |b|
  {
    if a == [] {
      FirstGroupNonEmpty(b, key);
    } else if b == [] {
      FirstGroupNonEmpty(a, key);
    } else {
      var ka, kb := key(a[0]), key(b[0]);
      assert ka <= kb by {
        var w := WithKey(b, key, ka);
        assert w == WithKey(a, key, ka) && w != [];
        WithKeyMembers(b, key, ka);
        var i :| 0 <= i < |b| && b[i] == w[0];
      }
      assert kb <= ka by {
        var w := WithKey(a, key, kb);
        assert w == WithKey(b, key, kb) && w != [];
        WithKeyMembers(a, key, kb);
        var i :| 0 <= i < |a| && a[i] == w[0];
      }
      assert WithKey(a, key, ka) == [a[0]] + WithKey(a[1..], key, ka);
      assert WithKey(b, key, ka) == [b[0]] + WithKey(b[1..], key, ka);
      assert ka == kb;
      assert WithKey(a, key, ka)[0] == a[0] && WithKey(b, key, ka)[0] == b[0];
      forall k ensures WithKey(a[1..], key, k) == WithKey(b[1..], key, k) {
        if k == ka {
          assert ([a[0]] + WithKey(a[1..], key, ka))[1..] == WithKey(a[1..], key, ka);
          assert ([b[0]] + WithKey(b[1..], key, ka))[1..] == WithKey(b[1..], key, ka);
        } else {
          assert WithKey(a, key, k) == WithKey(a[1..], key, k);
          assert WithKey(b, key, k) == WithKey(b[1..], key, k);
        }
      }
      SortedAgreeingListsAreEqual(a[1..], b[1..], key);
      assert a == [a[0]] + a[1..] && b == [b[0]] + b[1..];
    }
  }

  /** There is exactly one stable descending sort of a list: the one `SortDesc` computes. */
  lemma StableSortIsUnique<T>(r: seq<T>, s: seq<T>, key: T -> int)
    requires StablySortedDesc(r, s, key)
    ensures r == SortDesc(s, key)
  {
    SortDescIsStable(s, key);
    SortedAgreeingListsAreEqual(r, SortDesc(s, key), key);
  }

  /** The elements with key `k` in a concatenation: those of the left part first. */
  lemma {:induction false} WithKeyConcat<T>(a: seq<T>, b: seq<T>, key: T -> int, k: int)
    ensures WithKey(a + b, key, k) == WithKey(a, key, k) + WithKey(b, key, k)
  {
    if a == [] {
      assert a + b == b;
    } else {
      assert (a + b)[1..] == a[1..] + b;
      WithKeyConcat(a[1..], b, key, k);
    }
  }
}
