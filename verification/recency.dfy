/** Python's `sorted(items, key=..., reverse=True)[:n]` on integer keys: a
    stable sort that puts the newest items first, then a truncation. */
module Recency {
  /** No item is newer than one before it. */
  predicate Descending<T>(s: seq<T>, key: T -> int) {
    forall i, j :: 0 <= i < j < |s| ==> key(s[i]) >= key(s[j])
  }

  /** The items of `s` whose key is `k`, in their order in `s`. */
  function WithKey<T>(s: seq<T>, key: T -> int, k: int): (r: seq<T>)
    ensures |r| <= |s|
    ensures forall i :: 0 <= i < |r| ==> key(r[i]) == k
  {
    if |s| == 0 then []
    else (if key(s[0]) == k then [s[0]] else []) + WithKey(s[1..], key, k)
  }

  /** Inserts `x` after every strictly newer item and before the rest. */
  function Insert<T(==)>(x: T, s: seq<T>, key: T -> int): (r: seq<T>)
    ensures |r| == |s| + 1
    ensures multiset(r) == multiset(s) + multiset{x}
  {
    if |s| == 0 then [x]
    else if key(s[0]) <= key(x) then [x] + s
    else
      assert s == [s[0]] + s[1..];
      [s[0]] + Insert(x, s[1..], key)
  }

  /** Every item of an insertion is the inserted one or one of the old ones. */
  lemma InsertMembers<T>(x: T, s: seq<T>, key: T -> int, y: T)
    requires y in Insert(x, s, key)
    ensures y == x || y in s
  {
    assert y in multiset(Insert(x, s, key));
    assert y in multiset(s) + multiset{x};
  }

  /** Insertion keeps a descending sequence descending. */
  lemma {:induction false} InsertSorted<T>(x: T, s: seq<T>, key: T -> int)
    requires Descending(s, key)
    ensures Descending(Insert(x, s, key), key)
  {
    if |s| > 0 && key(s[0]) > key(x) {
      var t := Insert(x, s[1..], key);
      assert Descending(s[1..], key);
      InsertSorted(x, s[1..], key);
      var r := [s[0]] + t;
      assert Insert(x, s, key) == r;
      forall i, j | 0 <= i < j < |r| ensures key(r[i]) >= key(r[j]) {
        if i == 0 {
          assert r[j] == t[j - 1];
          InsertMembers(x, s[1..], key, t[j - 1]);
          if t[j - 1] != x {
            var k :| 0 <= k < |s[1..]| && s[1..][k] == t[j - 1];
            assert s[k + 1] == t[j - 1];
          }
        } else {
          assert r[i] == t[i - 1] && r[j] == t[j - 1];
        }
      }
    }
  }

  /** The stable newest-first sort. */
  function SortNewestFirst<T(==)>(s: seq<T>, key: T -> int): (r: seq<T>)
    ensures |r| == |s|
    ensures multiset(r) == multiset(s)
    ensures Descending(r, key)
  {
    if |s| == 0 then []
    else
      assert s == [s[0]] + s[1..];
      InsertSorted(s[0], SortNewestFirst(s[1..], key), key);
      Insert(s[0], SortNewestFirst(s[1..], key), key)
  }

  /** Inserting `x` adds it in front of the items that share its key. */
  lemma {:induction false} InsertStable<T>(x: T, s: seq<T>, key: T -> int, k: int)
    ensures WithKey(Insert(x, s, key), key, k)
         == (if key(x) == k then [x] else []) + WithKey(s, key, k)
  {
    if |s| == 0 {
      assert WithKey([x], key, k) == (if key(x) == k then [x] else []) + WithKey([x][1..], key, k);
      assert [x][1..] == [];
    } else if key(s[0]) <= key(x) {
      var r := [x] + s;
      assert r[1..] == s;
    } else {
      var t := Insert(x, s[1..], key);
      var r := [s[0]] + t;
      assert Insert(x, s, key) == r;
      assert r[1..] == t && r[0] == s[0];
      InsertStable(x, s[1..], key, k);
      var head := if key(s[0]) == k then [s[0]] else [];
      var mine := if key(x) == k then [x] else [];
      assert WithKey(r, key, k) == head + WithKey(t, key, k);
      assert WithKey(s, key, k) == head + WithKey(s[1..], key, k);
      // x is strictly older than s[0], so at most one of them has key k.
      assert head == [] || mine == [];
    }
  }

  /** Items with equal keys keep their original relative order. */
  lemma {:induction false} SortStable<T>(s: seq<T>, key: T -> int, k: int)
    ensures WithKey(SortNewestFirst(s, key), key, k) == WithKey(s, key, k)
  {
    if |s| > 0 {
      SortStable(s[1..], key, k);
      InsertStable(s[0], SortNewestFirst(s[1..], key), key, k);
    }
  }

  /** `a` is an initial segment of `b`. */
  ghost predicate IsPrefix<T>(a: seq<T>, b: seq<T>) {
    |a| <= |b| && a == b[..|a|]
  }

  /** The `n` newest items, newest first. Every item left out is no newer
      than any item kept, and among items with equal keys the ones kept are
      the earliest in the input, in input order. */
  function Newest<T(==)>(s: seq<T>, key: T -> int, n: nat): (r: seq<T>)
    ensures |r| == if |s| < n then |s| else n
    ensures Descending(r, key)
    ensures multiset(r) <= multiset(s)
    ensures forall x, i :: x in multiset(s) - multiset(r) && 0 <= i < |r| ==> key(x) <= key(r[i])
    ensures forall k :: IsPrefix(WithKey(r, key, k), WithKey(s, key, k))
  {
    var sorted := SortNewestFirst(s, key);
    var m := if |s| < n then |s| else n;
    CutOff(sorted, key, m);
    assert multiset(sorted) == multiset(s);
    PrefixDescending(sorted, key, m);
    CutStable(s, key, m);
    sorted[..m]
  }

  /** Cutting the stable sort keeps, for every key, a leading run of the
      input's items with that key. */
  lemma CutStable<T>(s: seq<T>, key: T -> int, m: nat)
    requires m <= |s|
    ensures forall k :: IsPrefix(WithKey(SortNewestFirst(s, key)[..m], key, k), WithKey(s, key, k))
  {
    var sorted := SortNewestFirst(s, key);
    forall k ensures IsPrefix(WithKey(sorted[..m], key, k), WithKey(s, key, k)) {
      SortStable(s, key, k);
      CutSelection(sorted, s, key, k, m);
    }
  }

  /** When `t` selects the same items with key `k` as `s`, any prefix of `t`
      selects a prefix of them. */
  lemma CutSelection<T>(t: seq<T>, s: seq<T>, key: T -> int, k: int, m: nat)
    requires m <= |t| && WithKey(t, key, k) == WithKey(s, key, k)
    ensures IsPrefix(WithKey(t[..m], key, k), WithKey(s, key, k))
  {
    assert t == t[..m] + t[m..];
    WithKeyAppend(t[..m], t[m..], key, k);
  }

  /** Selecting one key distributes over concatenation. */
  lemma {:induction false} WithKeyAppend<T>(a: seq<T>, b: seq<T>, key: T -> int, k: int)
    ensures WithKey(a + b, key, k) == WithKey(a, key, k) + WithKey(b, key, k)
  {
    if |a| == 0 {
      assert a + b == b;
    } else {
      assert (a + b)[0] == a[0] && (a + b)[1..] == a[1..] + b;
      WithKeyAppend(a[1..], b, key, k);
    }
  }

  /** A prefix of a descending sequence is descending. */
  lemma PrefixDescending<T>(s: seq<T>, key: T -> int, m: nat)
    requires Descending(s, key) && m <= |s|
    ensures Descending(s[..m], key)
  {
    forall i, j | 0 <= i < j < m ensures key(s[..m][i]) >= key(s[..m][j]) {
      assert s[..m][i] == s[i] && s[..m][j] == s[j];
    }
  }

  /** In a descending sequence, what follows a cut is no newer than what precedes it. */
  lemma CutOff<T>(sorted: seq<T>, key: T -> int, m: nat)
    requires Descending(sorted, key) && m <= |sorted|
    ensures multiset(sorted[..m]) <= multiset(sorted)
    ensures forall x, i :: x in multiset(sorted) - multiset(sorted[..m]) && 0 <= i < m ==> key(x) <= key(sorted[i])
  {
    var r := sorted[..m];
    var rest := sorted[m..];
    assert sorted == r + rest;
    assert multiset(sorted) - multiset(r) == multiset(rest);
    forall x, i | x in multiset(sorted) - multiset(r) && 0 <= i < m
      ensures key(x) <= key(sorted[i])
    {
      assert x in rest;
      var j :| 0 <= j < |rest| && rest[j] == x;
      assert sorted[m + j] == x;
    }
  }

  // ------------------------------------------------------------ mapping

  /** `[f(x) for x in s]`. */
  function MapSeq<A, B>(s: seq<A>, f: A -> B): (r: seq<B>)
    ensures |r| == |s|
    ensures forall i :: 0 <= i < |s| ==> r[i] == f(s[i])
  {
    seq(|s|, i requires 0 <= i < |s| => f(s[i]))
  }

  /** Mapping a sub-multiset gives a sub-multiset of the mapped items. */
  lemma {:induction false} MapSubMultiset<A, B>(a: seq<A>, b: seq<A>, f: A -> B)
    requires multiset(a) <= multiset(b)
    ensures multiset(MapSeq(a, f)) <= multiset(MapSeq(b, f))
    decreases |a|
  {
    if |a| > 0 {
      var x := a[0];
      MapCons(a, f);
      var j := Locate(b, x);
      var rest := b[..j] + b[j + 1..];
      MapRemove(b, j, f);
      Cancel(multiset(a[1..]), multiset(rest), x);
      MapSubMultiset(a[1..], rest, f);
      AddBoth(multiset(MapSeq(a[1..], f)), multiset(MapSeq(rest, f)), f(x));
    }
  }

  /** The first item and its image, split off. */
  lemma MapCons<A, B>(a: seq<A>, f: A -> B)
    requires |a| > 0
    ensures a[0] in multiset(a)
    ensures multiset(a) == multiset(a[1..]) + multiset{a[0]}
    ensures multiset(MapSeq(a, f)) == multiset(MapSeq(a[1..], f)) + multiset{f(a[0])}
  {
    assert a == [a[0]] + a[1..];
    assert MapSeq(a, f) == [f(a[0])] + MapSeq(a[1..], f);
  }

  /** A position of an item the sequence holds. */
  lemma Locate<A>(b: seq<A>, x: A) returns (j: nat)
    requires x in multiset(b)
    ensures j < |b| && b[j] == x
  {
    assert x in b;
    j :| 0 <= j < |b| && b[j] == x;
  }

  /** One more copy of `y` on both sides keeps the inclusion. */
  lemma AddBoth<B>(p: multiset<B>, q: multiset<B>, y: B)
    requires p <= q
    ensures p + multiset{y} <= q + multiset{y}
  {
  }

  /** Taking out item `j` takes its image out of the mapped multiset. */
  lemma MapRemove<A, B>(b: seq<A>, j: nat, f: A -> B)
    requires j < |b|
    ensures multiset(b) == multiset(b[..j] + b[j + 1..]) + multiset{b[j]}
    ensures multiset(MapSeq(b, f)) == multiset(MapSeq(b[..j] + b[j + 1..], f)) + multiset{f(b[j])}
  {
    var l, x, r := b[..j], b[j], b[j + 1..];
    assert b == (l + [x]) + r;
    MapAppend(l + [x], r, f);
    MapAppend(l, [x], f);
    MapAppend(l, r, f);
    assert MapSeq([x], f) == [f(x)];
  }

  /** Mapping distributes over concatenation. */
  lemma MapAppend<A, B>(a: seq<A>, b: seq<A>, f: A -> B)
    ensures MapSeq(a + b, f) == MapSeq(a, f) + MapSeq(b, f)
  {
  }

  /** Mapping by a function that carries the key over commutes with picking
      the items of one key. */
  lemma {:induction false} MapWithKey<A, B>(s: seq<A>, f: A -> B, keyA: A -> int, keyB: B -> int, k: int)
    requires forall x :: keyB(f(x)) == keyA(x)
    ensures WithKey(MapSeq(s, f), keyB, k) == MapSeq(WithKey(s, keyA, k), f)
    decreases |s|
  {
    if |s| > 0 {
      var head := if keyA(s[0]) == k then [s[0]] else [];
      assert MapSeq(s, f)[1..] == MapSeq(s[1..], f);
      assert MapSeq(s, f)[0] == f(s[0]);
      MapWithKey(s[1..], f, keyA, keyB, k);
      MapAppend(head, WithKey(s[1..], keyA, k), f);
    }
  }

  /** Mapping keeps a prefix a prefix. */
  lemma MapPrefix<A, B>(a: seq<A>, b: seq<A>, f: A -> B)
    requires IsPrefix(a, b)
    ensures IsPrefix(MapSeq(a, f), MapSeq(b, f))
  {
    assert MapSeq(a, f) == MapSeq(b, f)[..|a|];
  }

  /** A cut that keeps, key by key, the first items of its input still does
      so after mapping both by a function that carries the key over. */
  lemma MapKeepsTies<A, B>(kept: seq<A>, s: seq<A>, f: A -> B, keyA: A -> int, keyB: B -> int)
    requires forall x :: keyB(f(x)) == keyA(x)
    requires forall k :: IsPrefix(WithKey(kept, keyA, k), WithKey(s, keyA, k))
    ensures forall k :: IsPrefix(WithKey(MapSeq(kept, f), keyB, k), WithKey(MapSeq(s, f), keyB, k))
  {
    forall k ensures IsPrefix(WithKey(MapSeq(kept, f), keyB, k), WithKey(MapSeq(s, f), keyB, k)) {
      MapWithKey(kept, f, keyA, keyB, k);
      MapWithKey(s, f, keyA, keyB, k);
      MapPrefix(WithKey(kept, keyA, k), WithKey(s, keyA, k), f);
    }
  }

  /** One copy of `x` on both sides cancels. */
  lemma Cancel<A>(p: multiset<A>, q: multiset<A>, x: A)
    requires p + multiset{x} <= q + multiset{x}
    ensures p <= q
  {
    forall y ensures p[y] <= q[y] {
      assert (p + multiset{x})[y] <= (q + multiset{x})[y];
    }
  }
}
