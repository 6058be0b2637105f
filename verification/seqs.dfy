/** Mapping and filtering sequences, the two shapes of the source's `for` loops. */
module Seqs {

  /** `[f(x) for x in xs]`. */
  function Map<A, B>(f: A -> B, xs: seq<A>): (r: seq<B>)
    ensures |r| == |xs|
    ensures forall i :: 0 <= i < |xs| ==> r[i] == f(xs[i])
  {
    if |xs| == 0 then [] else [f(xs[0])] + Map(f, xs[1..])
  }

  /** `[x for x in xs if p(x)]`. */
  function Filter<T>(p: T -> bool, xs: seq<T>): (r: seq<T>)
    ensures |r| <= |xs|
  {
    if |xs| == 0 then [] else (if p(xs[0]) then [xs[0]] else []) + Filter(p, xs[1..])
  }

  lemma {:induction false} MapConcat<A, B>(f: A -> B, xs: seq<A>, ys: seq<A>)
    ensures Map(f, xs + ys) == Map(f, xs) + Map(f, ys)
  {
  }

  lemma {:induction false} FilterConcat<T>(p: T -> bool, xs: seq<T>, ys: seq<T>)
    ensures Filter(p, xs + ys) == Filter(p, xs) + Filter(p, ys)
    decreases |xs|
  {
    if |xs| == 0 {
      assert xs + ys == ys;
    } else {
      var head := if p(xs[0]) then [xs[0]] else [];
      assert (xs + ys)[0] == xs[0];
      assert (xs + ys)[1..] == xs[1..] + ys;
      FilterConcat(p, xs[1..], ys);
      calc {
        Filter(p, xs + ys);
        head + Filter(p, xs[1..] + ys);
        head + (Filter(p, xs[1..]) + Filter(p, ys));
        (head + Filter(p, xs[1..])) + Filter(p, ys);
      }
    }
  }

  lemma HeadTail<T>(xs: seq<T>)
    requires |xs| > 0
    ensures xs == [xs[0]] + xs[1..]
  {
  }

  lemma ConsParts<T>(x: T, t: seq<T>)
    ensures ([x] + t)[0] == x && ([x] + t)[1..] == t
  {
  }

  lemma MapTail<A, B>(f: A -> B, xs: seq<A>)
    requires |xs| > 0
    ensures Map(f, xs)[1..] == Map(f, xs[1..])
  {
  }

  lemma TakeSnoc<T>(xs: seq<T>, i: nat)
    requires i < |xs|
    ensures xs[..i + 1] == xs[..i] + [xs[i]]
  {
  }

  /** One more input element adds its image to a filtered map exactly when it passes the filter. */
  lemma MapFilterSnoc<A, B>(f: A -> B, p: A -> bool, xs: seq<A>, x: A)
    ensures Map(f, Filter(p, xs + [x])) == Map(f, Filter(p, xs)) + (if p(x) then [f(x)] else [])
  {
    FilterConcat(p, xs, [x]);
    var tail := Filter(p, [x]);
    assert [x][1..] == [];
    assert tail == (if p(x) then [x] else []);
    MapConcat(f, Filter(p, xs), tail);
    if p(x) {
      assert Map(f, tail) == [f(x)];
    } else {
      assert Map(f, tail) == [];
    }
  }

  /**
   The loop `for x in xs: if not p(x): continue; ys.append(f(x))`: the images
   of the elements that pass the filter, in input order.
   */
  method CollectWhere<A, B>(f: A -> B, p: A -> bool, xs: seq<A>) returns (ys: seq<B>)
    ensures ys == Map(f, Filter(p, xs))
  {
    ys := [];
    var i := 0;
    while i < |xs|
      invariant 0 <= i <= |xs|
      invariant ys == Map(f, Filter(p, xs[..i]))
    {
      MapFilterStep(f, p, xs, i);
      if p(xs[i]) {
        ys := ys + [f(xs[i])];
      }
      i := i + 1;
    }
    TakeAll(xs);
  }

  lemma MapTwo<A, B>(f: A -> B, a: A, b: A)
    ensures Map(f, [a, b]) == [f(a), f(b)]
  {
  }

  /** Each of six concatenated pieces is recovered by slicing at the sums of the lengths before it. */
  lemma SixPieces<T>(a: seq<T>, b: seq<T>, c: seq<T>, d: seq<T>, e: seq<T>, f: seq<T>)
    ensures var t := a + b + c + d + e + f;
      && t[..|a|] == a
      && t[|a|..|a| + |b|] == b
      && t[|a| + |b|..|a| + |b| + |c|] == c
      && t[|a| + |b| + |c|..|a| + |b| + |c| + |d|] == d
      && t[|a| + |b| + |c| + |d|..|t| - |f|] == e
      && t[|t| - |f|..] == f
  {
  }

  /** The loop step of a filtered map over a prefix: the prefix grows by one element. */
  lemma MapFilterStep<A, B>(f: A -> B, p: A -> bool, xs: seq<A>, i: nat)
    requires i < |xs|
    ensures Map(f, Filter(p, xs[..i + 1])) == Map(f, Filter(p, xs[..i])) + (if p(xs[i]) then [f(xs[i])] else [])
  {
    TakeSnoc(xs, i);
    MapFilterSnoc(f, p, xs[..i], xs[i]);
  }

  lemma TakeAll<T>(xs: seq<T>)
    ensures xs[..|xs|] == xs
  {
  }

  /** The positions, counted from `base`, of the elements of `xs` that satisfy `p`, in increasing order. */
  function Selected<T>(p: T -> bool, xs: seq<T>, base: nat): seq<nat>
  {
    if |xs| == 0 then [] else (if p(xs[0]) then [base] else []) + Selected(p, xs[1..], base + 1)
  }

  predicate Within(idx: seq<nat>, lo: int, hi: int) {
    forall k :: 0 <= k < |idx| ==> lo <= idx[k] < hi
  }

  predicate Increasing(idx: seq<nat>) {
    forall k, l :: 0 <= k < l < |idx| ==> idx[k] < idx[l]
  }

  /** Putting a smaller position in front of increasing positions within range keeps them increasing and within range. */
  lemma ConsPosition(idx: seq<nat>, base: nat, hi: int)
    requires base < hi && Within(idx, base + 1, hi) && Increasing(idx)
    ensures Within([base] + idx, base, hi) && Increasing([base] + idx)
  {
    var pos := [base] + idx;
    forall k | 0 <= k < |pos|
      ensures base <= pos[k] < hi
    {
      if k > 0 { assert pos[k] == idx[k - 1]; }
    }
    forall k, l | 0 <= k < l < |pos|
      ensures pos[k] < pos[l]
    {
      assert pos[l] == idx[l - 1];
      if k > 0 { assert pos[k] == idx[k - 1]; }
    }
  }

  /** Selected positions lie within the input, counted from `base`, and strictly increase. */
  lemma {:induction false} SelectedInRange<T>(p: T -> bool, xs: seq<T>, base: nat)
    ensures Within(Selected(p, xs, base), base, base + |xs|)
    ensures Increasing(Selected(p, xs, base))
    decreases |xs|
  {
    if |xs| > 0 {
      SelectedInRange(p, xs[1..], base + 1);
      if p(xs[0]) {
        ConsPosition(Selected(p, xs[1..], base + 1), base, base + |xs|);
      }
    }
  }

  /** A position is selected exactly when its element satisfies `p`. */
  lemma {:induction false} SelectedExactly<T>(p: T -> bool, xs: seq<T>, base: nat, i: nat)
    requires i < |xs|
    ensures p(xs[i]) <==> base + i in Selected(p, xs, base)
    decreases |xs|
  {
    SelectedInRange(p, xs[1..], base + 1);
    if i > 0 {
      assert xs[i] == xs[1..][i - 1];
      SelectedExactly(p, xs[1..], base + 1, i - 1);
    }
  }

  /** `kept[k]` is the element of `xs` at position `idx[k]`, positions counted from `base`. */
  ghost predicate PicksFrom<T>(kept: seq<T>, xs: seq<T>, idx: seq<nat>, base: nat) {
    && |idx| == |kept|
    && forall k :: 0 <= k < |idx| ==> base <= idx[k] < base + |xs| && kept[k] == xs[idx[k] - base]
  }

  /** Picking from the tail of `xs` is picking from `xs`, one position further on. */
  lemma PicksFromTail<T>(kept: seq<T>, xs: seq<T>, idx: seq<nat>, base: nat)
    requires |xs| > 0 && PicksFrom(kept, xs[1..], idx, base + 1)
    ensures PicksFrom(kept, xs, idx, base)
  {
    forall k | 0 <= k < |idx|
      ensures base <= idx[k] < base + |xs| && kept[k] == xs[idx[k] - base]
    {
      assert kept[k] == xs[1..][idx[k] - (base + 1)];
    }
  }

  /** Picking the head of `xs` first, then from its tail. */
  lemma PicksFromCons<T>(kept: seq<T>, xs: seq<T>, idx: seq<nat>, base: nat)
    requires |xs| > 0 && PicksFrom(kept, xs, idx, base)
    ensures PicksFrom([xs[0]] + kept, xs, [base] + idx, base)
  {
    var all, pos := [xs[0]] + kept, [base] + idx;
    forall k | 0 <= k < |pos|
      ensures base <= pos[k] < base + |xs| && all[k] == xs[pos[k] - base]
    {
      if k > 0 {
        assert all[k] == kept[k - 1];
        assert pos[k] == idx[k - 1];
      }
    }
  }

  /** The k-th kept element is the input element at the k-th selected position. */
  lemma {:induction false} FilterAtSelected<T>(p: T -> bool, xs: seq<T>, base: nat)
    ensures PicksFrom(Filter(p, xs), xs, Selected(p, xs, base), base)
    decreases |xs|
  {
    if |xs| > 0 {
      FilterAtSelected(p, xs[1..], base + 1);
      PicksFromTail(Filter(p, xs[1..]), xs, Selected(p, xs[1..], base + 1), base);
      if p(xs[0]) {
        PicksFromCons(Filter(p, xs[1..]), xs, Selected(p, xs[1..], base + 1), base);
      }
    }
  }

  /**
   The filter keeps exactly the elements that satisfy `p`, in their input
   order: its k-th element is the input element at the k-th selected
   position, the positions strictly increase, and a position is selected
   exactly when its element satisfies `p`.
   */
  lemma FilterSelects<T>(p: T -> bool, xs: seq<T>)
    ensures var idx := Selected(p, xs, 0);
      && |idx| == |Filter(p, xs)|
      && (forall k :: 0 <= k < |idx| ==> idx[k] < |xs| && Filter(p, xs)[k] == xs[idx[k]])
      && (forall k, l :: 0 <= k < l < |idx| ==> idx[k] < idx[l])
      && (forall i :: 0 <= i < |xs| ==> (p(xs[i]) <==> i in idx))
  {
    SelectedInRange(p, xs, 0);
    FilterAtSelected(p, xs, 0);
    forall i | 0 <= i < |xs|
      ensures p(xs[i]) <==> i in Selected(p, xs, 0)
    {
      SelectedExactly(p, xs, 0, i);
    }
  }
}
