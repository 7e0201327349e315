/**
 * `Array.prototype.sort` with a descending numeric comparator
 * (`(a, b) => key(b) - key(a)`), which the language requires to be stable:
 * modelled as an insertion sort that places each element after every element
 * whose key is at least its own.
 */
module Sorting {
  import Seqs

  /** Non-increasing by key. */
  predicate SortedDesc<T>(xs: seq<T>, key: T -> int)
  {
    forall i, j :: 0 <= i < j < |xs| ==> key(xs[i]) >= key(xs[j])
  }

  /** Insert `x` after the leading elements whose key is at least its own. */
  function Insert<T>(x: T, ys: seq<T>, key: T -> int): (r: seq<T>)
    ensures |r| == |ys| + 1
    ensures multiset(r) == multiset(ys) + multiset{x}
  {
    if ys == [] then [x]
    else if key(ys[0]) >= key(x) then
      assert ys == [ys[0]] + ys[1..];
      [ys[0]] + Insert(x, ys[1..], key)
    else [x] + ys
  }

  /** The sorted copy: each element of the input inserted in turn, first to last. */
  function SortDesc<T>(xs: seq<T>, key: T -> int): (r: seq<T>)
    ensures |r| == |xs|
    ensures multiset(r) == multiset(xs)
  {
    if xs == [] then []
    else
      assert xs == xs[..|xs| - 1] + [xs[|xs| - 1]];
      Insert(xs[|xs| - 1], SortDesc(xs[..|xs| - 1], key), key)
  }

  /** Every key is at most `b`. */
  predicate AllAtMost<T>(xs: seq<T>, key: T -> int, b: int)
  {
    forall i :: 0 <= i < |xs| ==> key(xs[i]) <= b
  }

  /** Inserting keeps every key at most a bound that `x` also respects. */
  lemma {:induction false} InsertAtMost<T>(x: T, ys: seq<T>, key: T -> int, b: int)
    requires AllAtMost(ys, key, b) && key(x) <= b
    ensures AllAtMost(Insert(x, ys, key), key, b)
  {
    var r := Insert(x, ys, key);
    if ys != [] && key(ys[0]) >= key(x) {
      var t := Insert(x, ys[1..], key);
      assert AllAtMost(ys[1..], key, b) by {
        forall i | 0 <= i < |ys| - 1 ensures key(ys[1..][i]) <= b { assert ys[1..][i] == ys[i + 1]; }
      }
      InsertAtMost(x, ys[1..], key, b);
      assert r == [ys[0]] + t;
      forall i | 0 <= i < |r| ensures key(r[i]) <= b { if i > 0 { assert r[i] == t[i - 1]; } }
    } else if ys != [] {
      assert r == [x] + ys;
      forall i | 0 <= i < |r| ensures key(r[i]) <= b { if i > 0 { assert r[i] == ys[i - 1]; } }
    }
  }

  lemma {:induction false} InsertSorted<T>(x: T, ys: seq<T>, key: T -> int)
    requires SortedDesc(ys, key)
    ensures SortedDesc(Insert(x, ys, key), key)
  {
    var r := Insert(x, ys, key);
    if ys != [] && key(ys[0]) >= key(x) {
      var t := Insert(x, ys[1..], key);
      assert SortedDesc(ys[1..], key) by {
        forall i, j | 0 <= i < j < |ys| - 1 ensures key(ys[1..][i]) >= key(ys[1..][j]) {
          assert ys[1..][i] == ys[i + 1] && ys[1..][j] == ys[j + 1];
        }
      }
      InsertSorted(x, ys[1..], key);
      assert AllAtMost(ys[1..], key, key(ys[0])) by {
        forall i | 0 <= i < |ys| - 1 ensures key(ys[1..][i]) <= key(ys[0]) { assert ys[1..][i] == ys[i + 1]; }
      }
      InsertAtMost(x, ys[1..], key, key(ys[0]));
      assert r == [ys[0]] + t;
      forall i, j | 0 <= i < j < |r| ensures key(r[i]) >= key(r[j]) {
        assert r[j] == t[j - 1];
        if i > 0 { assert r[i] == t[i - 1]; }
      }
    } else if ys != [] {
      assert r == [x] + ys;
      forall i, j | 0 <= i < j < |r| ensures key(r[i]) >= key(r[j]) {
        assert r[j] == ys[j - 1];
        if i > 0 { assert r[i] == ys[i - 1]; }
      }
    }
  }

  /** The result is ordered by non-increasing key and is a permutation of the input. */
  lemma {:induction false} SortDescSorted<T>(xs: seq<T>, key: T -> int)
    ensures SortedDesc(SortDesc(xs, key), key)
    ensures multiset(SortDesc(xs, key)) == multiset(xs)
  {
    if xs != [] {
      SortDescSorted(xs[..|xs| - 1], key);
      InsertSorted(xs[|xs| - 1], SortDesc(xs[..|xs| - 1], key), key);
    }
  }

  function HasKey<T>(key: T -> int, k: int): T -> bool
  {
    (t: T) => key(t) == k
  }

  /** `x` goes in front of a sorted sequence whose keys are all below its own. */
  lemma {:induction false} InsertStableFront<T>(x: T, ys: seq<T>, key: T -> int, k: int)
    requires SortedDesc(ys, key) && ys != [] && key(ys[0]) < key(x)
    ensures Seqs.Filter(Insert(x, ys, key), HasKey(key, k))
      == Seqs.Filter(ys, HasKey(key, k)) + (if key(x) == k then [x] else [])
  {
    var p := HasKey(key, k);
    Seqs.FilterConcat([x], ys, p);
    Seqs.FilterSingleton(x, p);
    if key(x) == k {
      forall i | 0 <= i < |ys| ensures !p(ys[i]) {
        assert i == 0 || key(ys[0]) >= key(ys[i]);
      }
      Seqs.FilterNonEmpty(ys, p);
    }
  }

  lemma {:induction false} InsertStable<T>(x: T, ys: seq<T>, key: T -> int, k: int)
    requires SortedDesc(ys, key)
    ensures Seqs.Filter(Insert(x, ys, key), HasKey(key, k))
      == Seqs.Filter(ys, HasKey(key, k)) + (if key(x) == k then [x] else [])
  {
    var p := HasKey(key, k);
    if ys == [] {
      Seqs.FilterSingleton(x, p);
    } else if key(ys[0]) >= key(x) {
      assert SortedDesc(ys[1..], key) by {
        assert forall i, j :: 0 <= i < j < |ys| - 1 ==> ys[1..][i] == ys[i + 1] && ys[1..][j] == ys[j + 1];
      }
      InsertStable(x, ys[1..], key, k);
      InsertStableSkip(x, ys, key, k);
    } else {
      InsertStableFront(x, ys, key, k);
    }
  }

  /** `x` passes the head of the sequence: filtering commutes with that step. */
  lemma {:induction false} InsertStableSkip<T>(x: T, ys: seq<T>, key: T -> int, k: int)
    requires ys != [] && key(ys[0]) >= key(x)
    requires Seqs.Filter(Insert(x, ys[1..], key), HasKey(key, k))
      == Seqs.Filter(ys[1..], HasKey(key, k)) + (if key(x) == k then [x] else [])
    ensures Seqs.Filter(Insert(x, ys, key), HasKey(key, k))
      == Seqs.Filter(ys, HasKey(key, k)) + (if key(x) == k then [x] else [])
  {
    var p := HasKey(key, k);
    var rest := Insert(x, ys[1..], key);
    var r := [ys[0]] + rest;
    assert Insert(x, ys, key) == r;
    assert r[0] == ys[0] && r[1..] == rest;
    var h: seq<T> := if p(ys[0]) then [ys[0]] else [];
    var tail: seq<T> := if key(x) == k then [x] else [];
    assert Seqs.Filter(r, p) == h + Seqs.Filter(rest, p);
    assert Seqs.Filter(ys, p) == h + Seqs.Filter(ys[1..], p);
    assert h + (Seqs.Filter(ys[1..], p) + tail) == (h + Seqs.Filter(ys[1..], p)) + tail;
  }

  /**
   * Stability: for every key, the elements with that key keep their relative
   * order.
   */
  lemma {:induction false} SortDescStable<T>(xs: seq<T>, key: T -> int, k: int)
    ensures Seqs.Filter(SortDesc(xs, key), HasKey(key, k)) == Seqs.Filter(xs, HasKey(key, k))
  {
    if xs != [] {
      var n := |xs| - 1;
      SortDescStable(xs[..n], key, k);
      SortDescSorted(xs[..n], key);
      InsertStable(xs[n], SortDesc(xs[..n], key), key, k);
      Seqs.FilterSnoc(xs, n, HasKey(key, k));
      assert xs[..n + 1] == xs;
    }
  }

  /** The first `n` elements, or all of them when there are fewer (`slice(0, n)`). */
  function Take<T>(xs: seq<T>, n: nat): (r: seq<T>)
    ensures |r| <= n && |r| <= |xs| && r == xs[..|r|]
    ensures |r| == n || r == xs
  {
    if |xs| <= n then xs else xs[..n]
  }

  /**
   * In a sorted sequence the first `n` elements are sorted, drawn from the
   * sequence, and carry keys at least those of every later element.
   */
  lemma {:induction false} TakeSortedIsTop<T>(xs: seq<T>, key: T -> int, n: nat)
    requires SortedDesc(xs, key)
    ensures forall i, j :: 0 <= i < |Take(xs, n)| <= j < |xs| ==> key(Take(xs, n)[i]) >= key(xs[j])
    ensures SortedDesc(Take(xs, n), key)
    ensures multiset(Take(xs, n)) <= multiset(xs)
  {
    var top := Take(xs, n);
    assert xs == top + xs[|top|..];
    assert multiset(xs) == multiset(top) + multiset(xs[|top|..]);
  }

  /**
   * The first `n` of the sorted copy: at most `n` elements (exactly `n` when
   * there are enough), ordered by key, drawn from the input, none with a
   * smaller key than an element left out.
   */
  lemma {:induction false} TopOfSorted<T>(xs: seq<T>, key: T -> int, n: nat)
    ensures var sorted := SortDesc(xs, key);
      var top := Take(sorted, n);
      && |top| <= n
      && (|xs| >= n ==> |top| == n)
      && SortedDesc(top, key)
      && multiset(top) <= multiset(xs)
      && (forall i, j :: 0 <= i < |top| <= j < |sorted| ==> key(top[i]) >= key(sorted[j]))
  {
    SortDescSorted(xs, key);
    TakeSortedIsTop(SortDesc(xs, key), key, n);
  }

  /** In a sorted rearrangement of `xs`, the head has the largest key of `xs` and the next element the largest of the rest. */
  lemma {:induction false} SortedHead<T>(s: seq<T>, xs: seq<T>, key: T -> int)
    requires |s| >= 2 && SortedDesc(s, key) && multiset(s) == multiset(xs)
    ensures multiset{s[0], s[1]} <= multiset(xs)
    ensures forall i :: 0 <= i < |xs| ==> key(xs[i]) <= key(s[0])
    ensures forall i :: 1 <= i < |s| ==> key(s[i]) <= key(s[1]) || i == 1
  {
    assert s == [s[0], s[1]] + s[2..];
    assert multiset(s) == multiset{s[0], s[1]} + multiset(s[2..]);
    forall i | 0 <= i < |xs| ensures key(xs[i]) <= key(s[0]) {
      assert xs[i] in multiset(s);
      var k :| 0 <= k < |s| && s[k] == xs[i];
      assert k == 0 || key(s[0]) >= key(s[k]);
    }
  }

  /** The head of the sorted copy has the largest key of the input, and the next element the largest of the rest. */
  lemma {:induction false} SortDescHead<T>(xs: seq<T>, key: T -> int)
    requires |xs| >= 2
    ensures var s := SortDesc(xs, key);
      && multiset{s[0], s[1]} <= multiset(xs)
      && (forall i :: 0 <= i < |xs| ==> key(xs[i]) <= key(s[0]))
      && (forall i :: 1 <= i < |s| ==> key(s[i]) <= key(s[1]) || i == 1)
  {
    SortDescSorted(xs, key);
    SortedHead(SortDesc(xs, key), xs, key);
  }
}
