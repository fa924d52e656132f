/**
 * Ordered key/value entries and first-match search.
 *
 * A JavaScript object is modelled as a sequence of (key, value) entries in
 * the order `Object.entries` reports them; property access `obj[key]` is a
 * lookup of the first entry with that key.
 */
module Seqs {
  import opened Wrappers

  /** `obj[key]`: the value of the first entry whose key is `key`. */
  function Lookup<V>(entries: seq<(string, V)>, key: string): (r: Option<V>)
    ensures r.None? <==> forall i :: 0 <= i < |entries| ==> entries[i].0 != key
    ensures r.Some? ==> exists i :: 0 <= i < |entries| && entries[i] == (key, r.value)
    decreases |entries|
  {
    if entries == [] then None
    else if entries[0].0 == key then Some(entries[0].1)
    else
      var r := Lookup(entries[1..], key);
      assert r.Some? ==> exists i :: 1 <= i < |entries| && entries[i] == (key, r.value) by {
        if r.Some? {
          var i :| 0 <= i < |entries[1..]| && entries[1..][i] == (key, r.value);
          assert entries[i + 1] == (key, r.value);
        }
      }
      r
  }

  /** `Object.keys(obj)`. */
  function Keys<V>(entries: seq<(string, V)>): seq<string>
  {
    seq(|entries|, i requires 0 <= i < |entries| => entries[i].0)
  }

  /** `Object.values(obj)`. */
  function Values<V>(entries: seq<(string, V)>): seq<V>
  {
    seq(|entries|, i requires 0 <= i < |entries| => entries[i].1)
  }

  /**
   * `xs.findIndex(p)`, with |xs| standing for "none": the position of the
   * first element satisfying `p`.
   */
  function FirstIndex<T>(xs: seq<T>, p: T -> bool): (i: nat)
    ensures i <= |xs|
    ensures i < |xs| ==> p(xs[i])
    ensures forall k :: 0 <= k < i ==> !p(xs[k])
    decreases |xs|
  {
    if xs == [] then 0
    else if p(xs[0]) then 0
    else
      var j := FirstIndex(xs[1..], p);
      assert forall k :: 1 <= k < j + 1 ==> xs[k] == xs[1..][k - 1];
      1 + j
  }

  /** Two tests that agree on every element find the same first index. */
  lemma FirstIndexAgree<T>(xs: seq<T>, p: T -> bool, q: T -> bool)
    requires forall k :: 0 <= k < |xs| ==> p(xs[k]) == q(xs[k])
    ensures FirstIndex(xs, p) == FirstIndex(xs, q)
  {
  }

  /** A prefix one longer is the prefix followed by the next element. */
  lemma PrefixSnoc<T>(xs: seq<T>, i: nat)
    requires i < |xs|
    ensures xs[..i + 1] == xs[..i] + [xs[i]]
  {
  }

  /** `xs.flatMap(f)`: the results of `f` on the elements, one after another. */
  function FlatMap<T, U>(xs: seq<T>, f: T -> seq<U>): seq<U>
    decreases |xs|
  {
    if xs == [] then [] else FlatMap(xs[..|xs| - 1], f) + f(xs[|xs| - 1])
  }

  /** One more element contributes its results at the end. */
  lemma FlatMapSnoc<T, U>(xs: seq<T>, x: T, f: T -> seq<U>)
    ensures FlatMap(xs + [x], f) == FlatMap(xs, f) + f(x)
  {
    assert (xs + [x])[..|xs|] == xs;
  }

  /** `flatMap` over a list of five elements. */
  lemma FlatMapFive<T, U>(a: T, b: T, c: T, d: T, e: T, f: T -> seq<U>)
    ensures FlatMap([a, b, c, d, e], f) == f(a) + f(b) + f(c) + f(d) + f(e)
  {
    var s1, s2, s3, s4 := [a], [a, b], [a, b, c], [a, b, c, d];
    assert FlatMap(s1, f) == f(a) by {
      FlatMapSnoc([], a, f);
      assert [] + [a] == s1;
    }
    assert FlatMap(s2, f) == f(a) + f(b) by {
      FlatMapSnoc(s1, b, f);
      assert s1 + [b] == s2;
    }
    assert FlatMap(s3, f) == f(a) + f(b) + f(c) by {
      FlatMapSnoc(s2, c, f);
      assert s2 + [c] == s3;
    }
    assert FlatMap(s4, f) == f(a) + f(b) + f(c) + f(d) by {
      FlatMapSnoc(s3, d, f);
      assert s3 + [d] == s4;
    }
    FlatMapSnoc(s4, e, f);
    assert s4 + [e] == [a, b, c, d, e];
  }

  /** The results of consecutive lists follow each other. */
  lemma {:induction false} FlatMapAppend<T, U>(xs: seq<T>, ys: seq<T>, f: T -> seq<U>)
    ensures FlatMap(xs + ys, f) == FlatMap(xs, f) + FlatMap(ys, f)
    decreases |ys|
  {
    if ys == [] {
      assert xs + ys == xs;
    } else {
      var init, last := ys[..|ys| - 1], ys[|ys| - 1];
      assert xs + ys == (xs + init) + [last];
      FlatMapSnoc(xs + init, last, f);
      FlatMapAppend(xs, init, f);
      calc {
        FlatMap(xs + ys, f);
        FlatMap(xs + init, f) + f(last);
        (FlatMap(xs, f) + FlatMap(init, f)) + f(last);
        FlatMap(xs, f) + (FlatMap(init, f) + f(last));
        FlatMap(xs, f) + FlatMap(ys, f);
      }
    }
  }

  /** A result is produced exactly when some element produces it. */
  lemma {:induction false} FlatMapMembership<T, U>(xs: seq<T>, f: T -> seq<U>, u: U)
    ensures u in FlatMap(xs, f) <==> exists i :: 0 <= i < |xs| && u in f(xs[i])
    decreases |xs|
  {
    if xs != [] {
      var init := xs[..|xs| - 1];
      FlatMapMembership(init, f, u);
      if exists i :: 0 <= i < |init| && u in f(init[i]) {
        var i :| 0 <= i < |init| && u in f(init[i]);
        assert xs[i] == init[i];
      }
      if exists i :: 0 <= i < |xs| && u in f(xs[i]) {
        var i :| 0 <= i < |xs| && u in f(xs[i]);
        if i < |init| {
          assert init[i] == xs[i];
        }
      }
    }
  }
}
