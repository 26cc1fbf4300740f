/** Optional values and results with an error, as the scripts use `null` and `throw`. */
module Wrappers {

  datatype Option<T> = None | Some(value: T)
  {
    /** `x || d` / `x ?? d` for an optional value. */
    function GetOr(d: T): T
    {
      if Some? then value else d
    }
  }

  /** The outcome of a function that may throw: its value, or the thrown message. */
  datatype Result<T, E> = Success(value: T) | Failure(error: E)
}

/** Array operations with their JavaScript meaning. */
module Seqs {

  /** `xs.filter(y => y !== x)` */
  function Without<T(==,!new)>(xs: seq<T>, x: T): (r: seq<T>)
    ensures forall y :: y in r <==> y in xs && y != x
    ensures |r| <= |xs|
  {
    if xs == [] then [] else (if xs[0] == x then [] else [xs[0]]) + Without(xs[1..], x)
  }

  /** Removing an absent element keeps the sequence as it is. */
  lemma {:induction false} WithoutAbsent<T(!new)>(xs: seq<T>, x: T)
    requires x !in xs
    ensures Without(xs, x) == xs
  {
    if xs != [] {
      WithoutAbsent(xs[1..], x);
      assert xs == [xs[0]] + xs[1..];
    }
  }

  /** Removing from a sequence extended by one element. */
  lemma {:induction false} WithoutSnoc<T(!new)>(xs: seq<T>, y: T, x: T)
    ensures Without(xs + [y], x) == Without(xs, x) + (if y == x then [] else [y])
  {
    if xs == [] {
      assert [y][1..] == [];
    } else {
      assert (xs + [y])[1..] == xs[1..] + [y];
      WithoutSnoc(xs[1..], y, x);
    }
  }

  /** Removing an element that occurs once shortens the sequence by one. */
  lemma {:induction false} WithoutUniqueLength<T(!new)>(xs: seq<T>, x: T)
    requires NoDuplicates(xs) && x in xs
    ensures |Without(xs, x)| == |xs| - 1
  {
    assert forall j | 1 <= j < |xs| :: xs[j] != xs[0];
    assert xs[0] !in xs[1..];
    if xs[0] == x {
      WithoutAbsent(xs[1..], x);
    } else {
      WithoutUniqueLength(xs[1..], x);
    }
  }

  /**
   * `xs.unshift(x)` followed by `xs = xs.slice(0, cap)` when it grew past
   * `cap`: newest first, the oldest entries dropped.
   */
  function PushFrontCapped<T>(xs: seq<T>, x: T, cap: nat): (r: seq<T>)
    requires cap > 0
    ensures |r| == if |xs| + 1 > cap then cap else |xs| + 1
    ensures r[0] == x && r[1..] == xs[..|r| - 1]
  {
    var h := [x] + xs;
    if |h| > cap then h[..cap] else h
  }

  /** `[...new Set(xs)]`: the distinct elements in order of first appearance. */
  function Distinct<T(==,!new)>(xs: seq<T>): (r: seq<T>)
    ensures forall y :: y in r <==> y in xs
    ensures forall i, j | 0 <= i < j < |r| :: r[i] != r[j]
    ensures |r| <= |xs|
  {
    if xs == [] then []
    else
      var d := Distinct(xs[..|xs| - 1]);
      assert forall y :: y in xs <==> y in xs[..|xs| - 1] || y == xs[|xs| - 1];
      if xs[|xs| - 1] in d then d else d + [xs[|xs| - 1]]
  }

  /** Appending one element to the input only possibly appends it to the output. */
  lemma DistinctSnoc<T(!new)>(xs: seq<T>, x: T)
    ensures Distinct(xs + [x]) == if x in Distinct(xs) then Distinct(xs) else Distinct(xs) + [x]
  {
    assert (xs + [x])[..|xs|] == xs;
  }

  /** Extending a prefix by the next element. */
  lemma TakeSnoc<T>(xs: seq<T>, i: nat)
    requires i < |xs|
    ensures xs[..i] + [xs[i]] == xs[..i + 1]
  {
  }

  /** The prefix as long as the sequence is the sequence. */
  lemma TakeAll<T>(xs: seq<T>)
    ensures xs[..|xs|] == xs
  {
  }

  lemma AppendEmpty<T>(xs: seq<T>)
    ensures xs + [] == xs
  {
  }

  /** The number of occurrences of `x` in `xs`. */
  function Count<T(==,!new)>(xs: seq<T>, x: T): (r: nat)
    ensures r <= |xs|
    ensures r > 0 <==> x in xs
  {
    if xs == [] then 0 else (if xs[0] == x then 1 else 0) + Count(xs[1..], x)
  }

  lemma {:induction false} CountSnoc<T(!new)>(xs: seq<T>, x: T, k: T)
    ensures Count(xs + [x], k) == Count(xs, k) + (if x == k then 1 else 0)
  {
    if xs == [] {
      assert [x][1..] == [];
    } else {
      assert (xs + [x])[1..] == xs[1..] + [x];
      CountSnoc(xs[1..], x, k);
    }
  }

  lemma CountSnocAll<T(!new)>(xs: seq<T>, x: T)
    ensures forall k :: Count(xs + [x], k) == Count(xs, k) + (if x == k then 1 else 0)
  {
    forall k ensures Count(xs + [x], k) == Count(xs, k) + (if x == k then 1 else 0) {
      CountSnoc(xs, x, k);
    }
  }

  /** Occurrences in a concatenation add up. */
  lemma {:induction false} CountConcat<T(!new)>(xs: seq<T>, ys: seq<T>, k: T)
    ensures Count(xs + ys, k) == Count(xs, k) + Count(ys, k)
  {
    if xs == [] {
      assert xs + ys == ys;
    } else {
      assert (xs + ys)[1..] == xs[1..] + ys;
      CountConcat(xs[1..], ys, k);
    }
  }

  /** `n` copies of `x`. */
  function Copies<T>(x: T, n: nat): (r: seq<T>)
    ensures |r| == n && forall i | 0 <= i < n :: r[i] == x
  {
    seq(n, _ => x)
  }

  /** `xs.filter(f)` */
  function Filter<T(==,!new)>(xs: seq<T>, f: T -> bool): (r: seq<T>)
    ensures |r| <= |xs|
    ensures forall x :: x in r <==> x in xs && f(x)
  {
    if xs == [] then []
    else
      var init := xs[..|xs| - 1];
      assert forall y :: y in xs <==> y in init || y == xs[|xs| - 1];
      Filter(init, f) + (if f(xs[|xs| - 1]) then [xs[|xs| - 1]] else [])
  }

  /**
   * The counting loop over a keyed object: the keys in order of first
   * appearance, and how often each occurs.
   */
  method CountOccurrences<T(==,!new)>(xs: seq<T>) returns (order: seq<T>, counts: map<T, nat>)
    ensures order == Distinct(xs)
    ensures forall k :: k in counts <==> k in order
    ensures forall k | k in counts :: counts[k] == Count(xs, k)
  {
    order, counts := [], map[];
    ghost var seen: seq<T> := [];
    var i := 0;
    while i < |xs|
      invariant 0 <= i <= |xs| && seen == xs[..i]
      invariant order == Distinct(seen)
      invariant forall k :: k in counts <==> k in order
      invariant forall k | k in counts :: counts[k] == Count(seen, k)
    {
      var x := xs[i];
      DistinctSnoc(seen, x);
      forall k ensures Count(seen + [x], k) == Count(seen, k) + (if x == k then 1 else 0) {
        CountSnoc(seen, x, k);
      }
      if x in counts {
        counts := counts[x := counts[x] + 1];
      } else {
        assert Count(seen, x) == 0;
        counts := counts[x := 1];
        order := order + [x];
      }
      TakeSnoc(xs, i);
      seen := seen + [x];
      i := i + 1;
    }
    assert seen == xs;
  }

  /** `xs.reverse()` */
  function Reverse<T>(xs: seq<T>): (r: seq<T>)
    ensures |r| == |xs| && forall i | 0 <= i < |xs| :: r[i] == xs[|xs| - 1 - i]
  {
    if xs == [] then [] else [xs[|xs| - 1]] + Reverse(xs[..|xs| - 1])
  }

  /** Every element of a duplicate-free sequence occurs once. */
  predicate NoDuplicates<T(==,!new)>(xs: seq<T>)
  {
    forall i, j | 0 <= i < j < |xs| :: xs[i] != xs[j]
  }

  /** `keys` enumerates the set `s` once each, as `Object.keys` does for an object. */
  predicate Enumerates<T(==,!new)>(keys: seq<T>, s: set<T>)
  {
    NoDuplicates(keys) && (forall k | k in keys :: k in s) && (forall k | k in s :: k in keys)
  }
}
