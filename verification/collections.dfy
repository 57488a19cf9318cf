/** Small sequence utilities shared by the validator and the compose compiler:
    counting the elements that satisfy a predicate (the model of
    `array.filter(p).length`) and concatenating per-element blocks (the model of
    a `forEach` loop that pushes a few entries per element onto one list). */
module Collections {

  /** Number of elements of `s` satisfying `p`. */
  function CountIf<T>(s: seq<T>, p: T -> bool): (r: nat)
    ensures r <= |s|
  {
    if |s| == 0 then 0
    else CountIf(s[..|s| - 1], p) + (if p(s[|s| - 1]) then 1 else 0)
  }

  /** The count is zero exactly when no element matches. */
  lemma {:induction false} CountIfNone<T>(s: seq<T>, p: T -> bool)
    ensures CountIf(s, p) == 0 <==> forall i :: 0 <= i < |s| ==> !p(s[i])
  {
    if |s| > 0 {
      var init := s[..|s| - 1];
      CountIfNone(init, p);
      assert forall i :: 0 <= i < |init| ==> init[i] == s[i];
    }
  }

  /** The count is the length exactly when every element matches. */
  lemma {:induction false} CountIfAll<T>(s: seq<T>, p: T -> bool)
    ensures CountIf(s, p) == |s| <==> forall i :: 0 <= i < |s| ==> p(s[i])
  {
    if |s| > 0 {
      var init := s[..|s| - 1];
      CountIfAll(init, p);
      assert forall i :: 0 <= i < |init| ==> init[i] == s[i];
    }
  }

  /** Counting distributes over concatenation. */
  lemma {:induction false} CountIfAppend<T>(a: seq<T>, b: seq<T>, p: T -> bool)
    ensures CountIf(a + b, p) == CountIf(a, p) + CountIf(b, p)
    decreases |b|
  {
    if |b| == 0 {
      assert a + b == a;
    } else {
      assert (a + b)[..|a + b| - 1] == a + b[..|b| - 1];
      CountIfAppend(a, b[..|b| - 1], p);
    }
  }

  /** Counting over a singleton. */
  lemma CountIfSingleton<T>(x: T, p: T -> bool)
    ensures CountIf([x], p) == if p(x) then 1 else 0
  {
    assert [x][..0] == [];
  }

  /** Counting over a sequence extended by one element. */
  lemma CountIfSnoc<T>(s: seq<T>, x: T, p: T -> bool)
    ensures CountIf(s + [x], p) == CountIf(s, p) + if p(x) then 1 else 0
  {
    assert (s + [x])[..|s|] == s;
  }

  /** The concatenation of the blocks `f(x)` for the elements `x` of `xs`, in order. */
  function FlatMap<A, B>(xs: seq<A>, f: A -> seq<B>): seq<B>
  {
    if |xs| == 0 then []
    else FlatMap(xs[..|xs| - 1], f) + f(xs[|xs| - 1])
  }

  /** Concatenating blocks over a sequence extended by one element. */
  lemma FlatMapSnoc<A, B>(xs: seq<A>, x: A, f: A -> seq<B>)
    ensures FlatMap(xs + [x], f) == FlatMap(xs, f) + f(x)
  {
    assert (xs + [x])[..|xs|] == xs;
  }

  /** Every element of a concatenation of blocks comes from one of the blocks,
      so a property every block has is a property of the whole. */
  lemma {:induction false} FlatMapAll<A, B>(xs: seq<A>, f: A -> seq<B>, P: B -> bool)
    requires forall i, k :: 0 <= i < |xs| && 0 <= k < |f(xs[i])| ==> P(f(xs[i])[k])
    ensures forall k :: 0 <= k < |FlatMap(xs, f)| ==> P(FlatMap(xs, f)[k])
    decreases |xs|
  {
    if |xs| > 0 {
      var init := xs[..|xs| - 1];
      assert forall i, k :: 0 <= i < |init| && 0 <= k < |f(init[i])| ==> P(f(init[i])[k]) by {
        forall i, k | 0 <= i < |init| && 0 <= k < |f(init[i])|
          ensures P(f(init[i])[k])
        {
          assert init[i] == xs[i];
        }
      }
      FlatMapAll(init, f, P);
      var last := f(xs[|xs| - 1]);
      forall k | 0 <= k < |FlatMap(xs, f)|
        ensures P(FlatMap(xs, f)[k])
      {
        var front := FlatMap(init, f);
        if k >= |front| {
          assert FlatMap(xs, f)[k] == last[k - |front|];
        }
      }
    }
  }

  /** When every block holds exactly one matching element if `q` holds of its
      source element and none otherwise, the matches in the concatenation are
      counted by `q` over the sources. */
  lemma {:induction false} CountIfFlatMap<A, B>(xs: seq<A>, f: A -> seq<B>, p: B -> bool, q: A -> bool)
    requires forall i :: 0 <= i < |xs| ==> CountIf(f(xs[i]), p) == if q(xs[i]) then 1 else 0
    ensures CountIf(FlatMap(xs, f), p) == CountIf(xs, q)
    decreases |xs|
  {
    if |xs| > 0 {
      var init := xs[..|xs| - 1];
      assert forall i :: 0 <= i < |init| ==> init[i] == xs[i];
      CountIfFlatMap(init, f, p, q);
      CountIfAppend(FlatMap(init, f), f(xs[|xs| - 1]), p);
    }
  }

  /** Counts over sequences whose elements agree position by position on the
      predicate are equal. */
  lemma {:induction false} CountIfCongruent<A, B>(xs: seq<A>, ys: seq<B>, p: A -> bool, q: B -> bool)
    requires |xs| == |ys|
    requires forall i :: 0 <= i < |xs| ==> p(xs[i]) == q(ys[i])
    ensures CountIf(xs, p) == CountIf(ys, q)
  {
    if |xs| > 0 {
      var xi, yi := xs[..|xs| - 1], ys[..|ys| - 1];
      assert forall i :: 0 <= i < |xi| ==> xi[i] == xs[i] && yi[i] == ys[i];
      CountIfCongruent(xi, yi, p, q);
    }
  }

  /** Concatenations of blocks that agree position by position are equal. */
  lemma {:induction false} FlatMapCongruent<A, B, C>(xs: seq<A>, ys: seq<B>, f: A -> seq<C>, g: B -> seq<C>)
    requires |xs| == |ys|
    requires forall i :: 0 <= i < |xs| ==> f(xs[i]) == g(ys[i])
    ensures FlatMap(xs, f) == FlatMap(ys, g)
  {
    if |xs| > 0 {
      var xi, yi := xs[..|xs| - 1], ys[..|ys| - 1];
      assert forall i :: 0 <= i < |xi| ==> xi[i] == xs[i] && yi[i] == ys[i];
      FlatMapCongruent(xi, yi, f, g);
    }
  }

  /** Two matching elements at distinct positions make a count of at least two. */
  lemma {:induction false} CountIfTwo<T>(s: seq<T>, p: T -> bool, i: int, j: int)
    requires 0 <= i < j < |s| && p(s[i]) && p(s[j])
    ensures CountIf(s, p) >= 2
  {
    var init := s[..|s| - 1];
    assert init[i] == s[i];
    CountIfNone(init, p);
    if j < |s| - 1 {
      assert init[j] == s[j];
      CountIfTwo(init, p, i, j);
    }
  }

  /** A concatenation of blocks has no match exactly when no block has one. */
  lemma {:induction false} CountIfFlatMapZero<A, B>(xs: seq<A>, f: A -> seq<B>, p: B -> bool)
    ensures CountIf(FlatMap(xs, f), p) == 0 <==> forall i :: 0 <= i < |xs| ==> CountIf(f(xs[i]), p) == 0
    decreases |xs|
  {
    if |xs| > 0 {
      var init := xs[..|xs| - 1];
      assert forall i :: 0 <= i < |init| ==> init[i] == xs[i];
      CountIfFlatMapZero(init, f, p);
      CountIfAppend(FlatMap(init, f), f(xs[|xs| - 1]), p);
      assert FlatMap(xs, f) == FlatMap(init, f) + f(xs[|xs| - 1]);
      assert (forall i :: 0 <= i < |xs| ==> CountIf(f(xs[i]), p) == 0)
             <==> (forall i :: 0 <= i < |init| ==> CountIf(f(init[i]), p) == 0) && CountIf(f(xs[|xs| - 1]), p) == 0;
    }
  }

  /** The map built by setting `val(x)` under `key(x)` for each `x` of `xs`,
      in order: a later element overwrites an earlier one with the same key
      (the model of assigning into a record inside a `forEach` loop). */
  function MapFold<A, K(==), V>(xs: seq<A>, key: A -> K, val: A -> V): map<K, V>
  {
    if |xs| == 0 then map[]
    else MapFold(xs[..|xs| - 1], key, val)[key(xs[|xs| - 1]) := val(xs[|xs| - 1])]
  }

  /** The keys of the fold are exactly the keys of the elements. */
  lemma {:induction false} MapFoldKeys<A, K, V>(xs: seq<A>, key: A -> K, val: A -> V)
    ensures forall k :: k in MapFold(xs, key, val) <==> exists i :: 0 <= i < |xs| && key(xs[i]) == k
  {
    if |xs| > 0 {
      var init := xs[..|xs| - 1];
      MapFoldKeys(init, key, val);
      assert forall i :: 0 <= i < |init| ==> init[i] == xs[i];
    }
  }

  /** When elements sharing a key also share a value, every element's key maps
      to its own value, whatever overwrote it. */
  lemma {:induction false} MapFoldValues<A, K, V>(xs: seq<A>, key: A -> K, val: A -> V)
    requires forall i, j :: 0 <= i < |xs| && 0 <= j < |xs| && key(xs[i]) == key(xs[j]) ==> val(xs[i]) == val(xs[j])
    ensures forall i :: 0 <= i < |xs| ==> key(xs[i]) in MapFold(xs, key, val) && MapFold(xs, key, val)[key(xs[i])] == val(xs[i])
  {
    if |xs| > 0 {
      var init := xs[..|xs| - 1];
      assert forall i :: 0 <= i < |init| ==> init[i] == xs[i];
      MapFoldValues(init, key, val);
    }
  }

  /** A key no element has is not in the fold. */
  lemma MapFoldAbsent<A, K, V>(xs: seq<A>, key: A -> K, val: A -> V, k: K)
    requires forall i :: 0 <= i < |xs| ==> key(xs[i]) != k
    ensures k !in MapFold(xs, key, val)
  {
    MapFoldKeys(xs, key, val);
  }

  /** With pairwise distinct keys the fold has one entry per element. */
  lemma {:induction false} MapFoldSize<A, K, V>(xs: seq<A>, key: A -> K, val: A -> V)
    requires forall i, j :: 0 <= i < j < |xs| ==> key(xs[i]) != key(xs[j])
    ensures |MapFold(xs, key, val)| == |xs|
  {
    if |xs| > 0 {
      var init := xs[..|xs| - 1];
      assert forall i :: 0 <= i < |init| ==> init[i] == xs[i];
      MapFoldSize(init, key, val);
      var last := xs[|xs| - 1];
      assert forall i :: 0 <= i < |init| ==> key(init[i]) != key(last);
      MapFoldAbsent(init, key, val, key(last));
      assert MapFold(xs, key, val) == MapFold(init, key, val)[key(last) := val(last)];
    }
  }

  /** Folds over sequences whose elements agree position by position on key
      and value are equal. */
  lemma {:induction false} MapFoldCongruent<A, B, K, V>(xs: seq<A>, ys: seq<B>, key1: A -> K, val1: A -> V, key2: B -> K, val2: B -> V)
    requires |xs| == |ys|
    requires forall i :: 0 <= i < |xs| ==> key1(xs[i]) == key2(ys[i]) && val1(xs[i]) == val2(ys[i])
    ensures MapFold(xs, key1, val1) == MapFold(ys, key2, val2)
  {
    if |xs| > 0 {
      var xi, yi := xs[..|xs| - 1], ys[..|ys| - 1];
      assert forall i :: 0 <= i < |xi| ==> xi[i] == xs[i] && yi[i] == ys[i];
      MapFoldCongruent(xi, yi, key1, val1, key2, val2);
    }
  }

  // Short literal sequences

  lemma FlatMapPair<A, B>(a: A, b: A, f: A -> seq<B>)
    ensures FlatMap([a, b], f) == f(a) + f(b)
  {
    assert [a, b] == [] + [a] + [b];
    FlatMapSnoc([], a, f);
    FlatMapSnoc([a], b, f);
  }

  lemma FlatMapTriple<A, B>(a: A, b: A, c: A, f: A -> seq<B>)
    ensures FlatMap([a, b, c], f) == f(a) + f(b) + f(c)
  {
    assert [a, b, c] == [a, b] + [c];
    FlatMapPair(a, b, f);
    FlatMapSnoc([a, b], c, f);
  }

  lemma CountIfPair<T>(a: T, b: T, p: T -> bool)
    ensures CountIf([a, b], p) == (if p(a) then 1 else 0) + (if p(b) then 1 else 0)
  {
    assert [a, b] == [] + [a] + [b];
    CountIfSnoc([], a, p);
    CountIfSnoc([a], b, p);
  }

  lemma CountIfTriple<T>(a: T, b: T, c: T, p: T -> bool)
    ensures CountIf([a, b, c], p) == (if p(a) then 1 else 0) + (if p(b) then 1 else 0) + (if p(c) then 1 else 0)
  {
    assert [a, b, c] == [a, b] + [c];
    CountIfPair(a, b, p);
    CountIfSnoc([a, b], c, p);
  }
}
