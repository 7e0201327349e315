/**
 * JavaScript objects used as records (`Record<string, V>`) and `Set<string>`
 * values, modelled as the sequence of their entries in insertion order,
 * which is the order `Object.entries`, `Object.keys` and `Set.forEach` visit them.
 */
module OrderedMap {
  import opened Wrappers

  /** The entries of a string-keyed record, oldest key first. */
  type Entries<V> = seq<(string, V)>

  function Keys<V>(m: Entries<V>): (ks: seq<string>)
    ensures |ks| == |m|
    ensures forall i :: 0 <= i < |m| ==> ks[i] == m[i].0
  {
    seq(|m|, i requires 0 <= i < |m| => m[i].0)
  }

  predicate NoDup(xs: seq<string>)
  {
    forall i, j :: 0 <= i < j < |xs| ==> xs[i] != xs[j]
  }

  /** `obj[k]`: the value stored under `k`, if any. */
  function Get<V>(m: Entries<V>, k: string): (r: Option<V>)
    ensures r.Some? <==> k in Keys(m)
  {
    if m == [] then None
    else if m[0].0 == k then Some(m[0].1)
    else
      assert Keys(m) == [m[0].0] + Keys(m[1..]);
      Get(m[1..], k)
  }

  /** `obj[k] = v`: overwrites the value in place when `k` is present, otherwise appends a new last key. */
  function Put<V>(m: Entries<V>, k: string, v: V): (r: Entries<V>)
  {
    if m == [] then [(k, v)]
    else if m[0].0 == k then [(k, v)] + m[1..]
    else [m[0]] + Put(m[1..], k, v)
  }

  /** Reading back after `Put`: the new value under `k`, every other key untouched. */
  lemma {:induction false} GetPut<V>(m: Entries<V>, k: string, v: V, k': string)
    ensures Get(Put(m, k, v), k') == if k' == k then Some(v) else Get(m, k')
  {
    if m != [] && m[0].0 != k {
      GetPut(m[1..], k, v, k');
    }
  }

  /** The keys of an entry in front of a record. */
  lemma KeysCons<V>(e: (string, V), m: Entries<V>)
    ensures Keys([e] + m) == [e.0] + Keys(m)
  {
    var l, r := Keys([e] + m), [e.0] + Keys(m);
    assert |l| == |r|;
    forall i | 0 <= i < |l| ensures l[i] == r[i] {
      if i > 0 {
        assert ([e] + m)[i] == m[i - 1];
      }
    }
  }

  /** `Put` keeps the key order; a new key goes last. */
  lemma {:induction false} KeysPut<V>(m: Entries<V>, k: string, v: V)
    ensures Keys(Put(m, k, v)) == if k in Keys(m) then Keys(m) else Keys(m) + [k]
  {
    if m == [] {
      assert Keys(Put(m, k, v)) == [k];
    } else {
      KeysCons(m[0], m[1..]);
      assert [m[0]] + m[1..] == m;
      if m[0].0 == k {
        KeysCons((k, v), m[1..]);
        assert Keys(m)[0] == k;
      } else {
        KeysPut(m[1..], k, v);
        KeysCons(m[0], Put(m[1..], k, v));
        assert k in Keys(m) <==> k in Keys(m[1..]);
      }
    }
  }

  // ----- Set<string> -----

  /** `set.add(x)` on an insertion-ordered set. */
  function AddUnique(s: seq<string>, x: string): seq<string>
  {
    if x in s then s else s + [x]
  }

  /** `Array.from(new Set(xs))`: each element once, in order of first occurrence. */
  function Dedup(xs: seq<string>): seq<string>
  {
    if xs == [] then [] else AddUnique(Dedup(xs[..|xs| - 1]), xs[|xs| - 1])
  }

  /** Adding one more element to the input adds it to the set unless already present. */
  lemma DedupSnoc(xs: seq<string>, y: string)
    ensures Dedup(xs + [y]) == AddUnique(Dedup(xs), y)
  {
    assert (xs + [y])[..|xs|] == xs;
  }

  /** Position of the first occurrence of `x` in `xs` (or `|xs|`). */
  function FirstPos(xs: seq<string>, x: string): (k: nat)
    ensures k <= |xs|
    ensures k < |xs| ==> xs[k] == x
    ensures forall j :: 0 <= j < k ==> xs[j] != x
    ensures x in xs <==> k < |xs|
  {
    if xs == [] then 0 else if xs[0] == x then 0 else 1 + FirstPos(xs[1..], x)
  }

  lemma {:induction false} FirstPosPrefix(xs: seq<string>, y: string, x: string)
    requires x in xs
    ensures FirstPos(xs + [y], x) == FirstPos(xs, x)
  {
    if xs[0] != x {
      assert (xs + [y])[1..] == xs[1..] + [y];
      FirstPosPrefix(xs[1..], y, x);
    }
  }

  /**
   * `Dedup` lists every element of `xs` exactly once and nothing else, and in
   * the order of their first occurrences in `xs`.
   */
  lemma {:induction false} DedupSpec(xs: seq<string>)
    ensures NoDup(Dedup(xs))
    ensures forall x :: x in Dedup(xs) <==> x in xs
    ensures forall i, j :: 0 <= i < j < |Dedup(xs)| ==> FirstPos(xs, Dedup(xs)[i]) < FirstPos(xs, Dedup(xs)[j])
  {
    if xs != [] {
      var init, y := xs[..|xs| - 1], xs[|xs| - 1];
      assert xs == init + [y];
      DedupSpec(init);
      var d := Dedup(init);
      forall x | x in d ensures FirstPos(xs, x) == FirstPos(init, x) {
        FirstPosPrefix(init, y, x);
      }
      if y !in d {
        assert FirstPos(xs, y) == |init| by {
          assert xs[|init|] == y;
          assert forall j :: 0 <= j < |init| ==> xs[j] == init[j];
        }
        forall i | 0 <= i < |d| ensures FirstPos(xs, d[i]) < |init| {
          assert d[i] in init;
        }
      }
    }
  }

  // ----- counting records: acc[k] = (acc[k] || 0) + 1 -----

  /** `acc[k] = (acc[k] || 0) + 1`. */
  function Bump(m: Entries<nat>, k: string): Entries<nat>
  {
    Put(m, k, Get(m, k).GetOr(0) + 1)
  }

  /** The record a counting loop over `xs` builds: one key per distinct element, valued by its count. */
  function Tally(xs: seq<string>): Entries<nat>
  {
    if xs == [] then [] else Bump(Tally(xs[..|xs| - 1]), xs[|xs| - 1])
  }

  /** Number of occurrences of `k` in `xs`. */
  function Occurrences(xs: seq<string>, k: string): (n: nat)
    ensures n <= |xs|
    ensures n > 0 <==> k in xs
  {
    if xs == [] then 0
    else
      assert xs == xs[..|xs| - 1] + [xs[|xs| - 1]];
      Occurrences(xs[..|xs| - 1], k) + (if xs[|xs| - 1] == k then 1 else 0)
  }

  /** Sum of the values of a counting record. */
  function Total(m: Entries<nat>): nat
  {
    if m == [] then 0 else m[0].1 + Total(m[1..])
  }

  lemma {:induction false} TotalPut(m: Entries<nat>, k: string, v: nat)
    ensures Total(Put(m, k, v)) == Total(m) - Get(m, k).GetOr(0) + v
  {
    if m != [] && m[0].0 != k {
      TotalPut(m[1..], k, v);
    }
  }

  /** The keys of the counting record of `xs` are its distinct elements, in order of first occurrence. */
  lemma {:induction false} TallyKeys(xs: seq<string>)
    ensures Keys(Tally(xs)) == Dedup(xs)
  {
    if xs != [] {
      var init, y := xs[..|xs| - 1], xs[|xs| - 1];
      assert Tally(xs) == Bump(Tally(init), y);
      assert Dedup(xs) == AddUnique(Dedup(init), y);
      TallyKeys(init);
      KeysPut(Tally(init), y, Get(Tally(init), y).GetOr(0) + 1);
    }
  }

  /** The counting record of `xs` maps each element to its number of occurrences and knows no other key. */
  lemma {:induction false} TallyGet(xs: seq<string>, k: string)
    ensures Get(Tally(xs), k) == if k in xs then Some(Occurrences(xs, k)) else None
  {
    if xs != [] {
      var init, y := xs[..|xs| - 1], xs[|xs| - 1];
      var t := Tally(init);
      var v := Get(t, y).GetOr(0) + 1;
      assert Tally(xs) == Put(t, y, v);
      assert Occurrences(xs, k) == Occurrences(init, k) + (if y == k then 1 else 0);
      assert k in xs <==> k in init || k == y by {
        assert xs == init + [y];
      }
      TallyGet(init, k);
      GetPut(t, y, v, k);
      if k == y {
        assert v == Occurrences(init, k) + 1;
      }
    }
  }

  /** The values of the counting record of `xs` add up to `|xs|`. */
  lemma {:induction false} TallyTotal(xs: seq<string>)
    ensures Total(Tally(xs)) == |xs|
  {
    if xs != [] {
      var init, y := xs[..|xs| - 1], xs[|xs| - 1];
      TallyTotal(init);
      TallyGet(init, y);
      TotalPut(Tally(init), y, Get(Tally(init), y).GetOr(0) + 1);
    }
  }
}
