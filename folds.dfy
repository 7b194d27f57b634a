/**
 * Sums and selections over sequences, shared by the aggregations in the CLI,
 * the history statistics and the snapshot rollup. Every fold is defined from
 * the back of the sequence, the way the Go loops accumulate.
 */
module Folds {

  /** Some element of a non-empty set (a witness for `:|` over it). */
  lemma Pick<T>(xs: set<T>) returns (x: T)
    requires xs != {}
    ensures x in xs
  {
    x :| x in xs;
  }

  /** Weight function that counts elements. */
  function One<T>(x: T): int { 1 }

  /** The images of the elements of `xs` under `f`, in order. */
  function Map<T, U>(xs: seq<T>, f: T -> U): (r: seq<U>)
    ensures |r| == |xs|
    ensures forall i :: 0 <= i < |xs| ==> r[i] == f(xs[i])
  {
    seq(|xs|, i requires 0 <= i < |xs| => f(xs[i]))
  }

  lemma MapSnoc<T, U>(xs: seq<T>, x: T, f: T -> U)
    ensures Map(xs + [x], f) == Map(xs, f) + [f(x)]
  {
  }

  function Sum<T>(xs: seq<T>, w: T -> int): int {
    if xs == [] then 0 else Sum(xs[..|xs| - 1], w) + w(xs[|xs| - 1])
  }

  /** The elements of `xs` whose key is `k`, in their order in `xs`. */
  function Select<T, K(==)>(xs: seq<T>, key: T -> K, k: K): (r: seq<T>)
    ensures |r| <= |xs|
    ensures forall i :: 0 <= i < |r| ==> r[i] in xs && key(r[i]) == k
    ensures forall i :: 0 <= i < |xs| && key(xs[i]) == k ==> xs[i] in r
  {
    if xs == [] then []
    else
      var front := Select(xs[..|xs| - 1], key, k);
      var x := xs[|xs| - 1];
      if key(x) == k then front + [x] else front
  }

  function SumWhere<T, K(==)>(xs: seq<T>, key: T -> K, k: K, w: T -> int): int {
    Sum(Select(xs, key, k), w)
  }

  predicate Distinct<K(==)>(ks: seq<K>) {
    forall i, j :: 0 <= i < j < |ks| ==> ks[i] != ks[j]
  }

  /** A sequence of distinct elements stays distinct when permuted. */
  lemma DistinctPermuted<T>(xs: seq<T>, ys: seq<T>)
    requires Distinct(xs) && multiset(xs) == multiset(ys)
    ensures Distinct(ys)
  {
    forall i, j | 0 <= i < j < |ys|
      ensures ys[i] != ys[j]
    {
      if ys[i] == ys[j] {
        TwiceInMultiset(ys, i, j);
        OnceInMultiset(xs, ys[i]);
        assert false;
      }
    }
  }

  lemma TwiceInMultiset<T>(ys: seq<T>, i: nat, j: nat)
    requires i < j < |ys| && ys[i] == ys[j]
    ensures multiset(ys)[ys[i]] >= 2
  {
    var x := ys[i];
    assert ys == ys[..j] + [ys[j]] + ys[j + 1..];
    assert ys[..j] == ys[..i] + [ys[i]] + ys[i + 1..j];
    assert multiset(ys) == multiset(ys[..i]) + multiset{x} + multiset(ys[i + 1..j]) + multiset{x} + multiset(ys[j + 1..]);
  }

  lemma {:induction false} OnceInMultiset<T>(xs: seq<T>, x: T)
    requires Distinct(xs)
    ensures multiset(xs)[x] <= 1
  {
    if xs != [] {
      var front := xs[..|xs| - 1];
      var last := xs[|xs| - 1];
      assert xs == front + [last];
      assert Distinct(front);
      OnceInMultiset(front, x);
      if last == x {
        assert x !in front;
        assert multiset(front)[x] == 0;
      }
    }
  }

  /** The per-key sums of `xs` added up over the keys `ks`. */
  function SumGroups<T, K(==)>(ks: seq<K>, xs: seq<T>, key: T -> K, w: T -> int): int {
    if ks == [] then 0
    else SumGroups(ks[..|ks| - 1], xs, key, w) + SumWhere(xs, key, ks[|ks| - 1], w)
  }

  lemma SumSnoc<T>(xs: seq<T>, x: T, w: T -> int)
    ensures Sum(xs + [x], w) == Sum(xs, w) + w(x)
  {
    assert (xs + [x])[..|xs|] == xs;
  }

  lemma SumAppend<T>(xs: seq<T>, ys: seq<T>, w: T -> int)
    ensures Sum(xs + ys, w) == Sum(xs, w) + Sum(ys, w)
    decreases |ys|
  {
    if ys != [] {
      var ys' := ys[..|ys| - 1];
      assert xs + ys == (xs + ys') + [ys[|ys| - 1]];
      SumSnoc(xs + ys', ys[|ys| - 1], w);
      SumAppend(xs, ys', w);
      SumSnoc(ys', ys[|ys| - 1], w);
      assert ys == ys' + [ys[|ys| - 1]];
    } else {
      assert xs + ys == xs;
    }
  }

  /** Steps of a loop over a prefix of `xs`: one more element adds its weight or its image. */
  lemma SumStep<T>(xs: seq<T>, i: nat, w: T -> int)
    requires i < |xs|
    ensures Sum(xs[..i + 1], w) == Sum(xs[..i], w) + w(xs[i])
  {
    assert xs[..i + 1] == xs[..i] + [xs[i]];
    SumSnoc(xs[..i], xs[i], w);
  }

  lemma MapStep<T, U>(xs: seq<T>, i: nat, f: T -> U)
    requires i < |xs|
    ensures Map(xs[..i + 1], f) == Map(xs[..i], f) + [f(xs[i])]
  {
    assert xs[..i + 1] == xs[..i] + [xs[i]];
    MapSnoc(xs[..i], xs[i], f);
  }

  lemma SumWhereStep<T, K>(xs: seq<T>, i: nat, key: T -> K, k: K, w: T -> int)
    requires i < |xs|
    ensures SumWhere(xs[..i + 1], key, k, w) == SumWhere(xs[..i], key, k, w) + (if key(xs[i]) == k then w(xs[i]) else 0)
  {
    assert xs[..i + 1] == xs[..i] + [xs[i]];
    SumWhereSnoc(xs[..i], xs[i], key, k, w);
  }

  /** One more element of a prefix adds its image when it is selected, and nothing otherwise. */
  lemma MapSelectStep<T, K, U>(xs: seq<T>, i: nat, key: T -> K, k: K, f: T -> U)
    requires i < |xs|
    ensures Map(Select(xs[..i + 1], key, k), f)
            == Map(Select(xs[..i], key, k), f) + (if key(xs[i]) == k then [f(xs[i])] else [])
  {
    assert xs[..i + 1] == xs[..i] + [xs[i]];
    SelectSnoc(xs[..i], xs[i], key, k);
    if key(xs[i]) == k {
      MapSnoc(Select(xs[..i], key, k), xs[i], f);
    }
  }

  lemma SelectSnoc<T, K>(xs: seq<T>, x: T, key: T -> K, k: K)
    ensures Select(xs + [x], key, k) == if key(x) == k then Select(xs, key, k) + [x] else Select(xs, key, k)
  {
    assert (xs + [x])[..|xs|] == xs;
  }

  lemma SumWhereSnoc<T, K>(xs: seq<T>, x: T, key: T -> K, k: K, w: T -> int)
    ensures SumWhere(xs + [x], key, k, w) == SumWhere(xs, key, k, w) + (if key(x) == k then w(x) else 0)
  {
    SelectSnoc(xs, x, key, k);
    if key(x) == k {
      SumSnoc(Select(xs, key, k), x, w);
    }
  }

  lemma SumOneIsLength<T>(xs: seq<T>)
    ensures Sum(xs, One) == |xs|
  {
    if xs != [] {
      SumOneIsLength(xs[..|xs| - 1]);
    }
  }

  /** Appending one element adds its weight to exactly the group of its key. */
  lemma {:induction false} SumGroupsSnoc<T, K>(ks: seq<K>, xs: seq<T>, x: T, key: T -> K, w: T -> int)
    requires Distinct(ks)
    ensures SumGroups(ks, xs + [x], key, w) == SumGroups(ks, xs, key, w) + (if key(x) in ks then w(x) else 0)
  {
    if ks != [] {
      var ks' := ks[..|ks| - 1];
      var last := ks[|ks| - 1];
      assert Distinct(ks');
      SumGroupsSnoc(ks', xs, x, key, w);
      SumWhereSnoc(xs, x, key, last, w);
      assert ks == ks' + [last];
      assert key(x) in ks <==> key(x) in ks' || key(x) == last;
      assert key(x) == last ==> key(x) !in ks';
    }
  }

  /**
   * Adding up the per-key sums over a list of distinct keys that covers every
   * key of `xs` gives the sum of the whole of `xs`.
   */
  lemma {:induction false} SumGroupsTotal<T, K>(ks: seq<K>, xs: seq<T>, key: T -> K, w: T -> int)
    requires Distinct(ks)
    requires forall i :: 0 <= i < |xs| ==> key(xs[i]) in ks
    ensures SumGroups(ks, xs, key, w) == Sum(xs, w)
  {
    if xs == [] {
      SumGroupsEmpty(ks, key, w);
    } else {
      var p := xs[..|xs| - 1];
      var x := xs[|xs| - 1];
      assert xs == p + [x];
      SumGroupsTotal(ks, p, key, w);
      SumGroupsSnoc(ks, p, x, key, w);
    }
  }

  lemma SumGroupsEmpty<T, K>(ks: seq<K>, key: T -> K, w: T -> int)
    ensures SumGroups(ks, [], key, w) == 0
  {
    if ks != [] {
      SumGroupsEmpty(ks[..|ks| - 1], key, w);
    }
  }

  /** Counting version of `SumGroupsTotal`: the group sizes add up to `|xs|`. */
  lemma SumGroupsCount<T, K>(ks: seq<K>, xs: seq<T>, key: T -> K)
    requires Distinct(ks)
    requires forall i :: 0 <= i < |xs| ==> key(xs[i]) in ks
    ensures SumGroups(ks, xs, key, One) == |xs|
  {
    SumGroupsTotal(ks, xs, key, One);
    SumOneIsLength(xs);
  }

  /** `ys` is `xs` with some elements left out and the rest in their order. */
  predicate IsSubseq<T(==)>(ys: seq<T>, xs: seq<T>)
    decreases |xs|
  {
    if ys == [] then true
    else if xs == [] then false
    else if ys[|ys| - 1] == xs[|xs| - 1] then IsSubseq(ys[..|ys| - 1], xs[..|xs| - 1])
    else IsSubseq(ys, xs[..|xs| - 1])
  }

  lemma SelectIsSubseq<T, K>(xs: seq<T>, key: T -> K, k: K)
    ensures IsSubseq(Select(xs, key, k), xs)
  {
    if xs != [] {
      var p := xs[..|xs| - 1];
      SelectIsSubseq(p, key, k);
      var s := Select(p, key, k);
      if key(xs[|xs| - 1]) == k {
        assert (s + [xs[|xs| - 1]])[..|s|] == s;
      } else {
        SubseqSnoc(s, p, xs[|xs| - 1]);
      }
    }
  }

  lemma SubseqSnoc<T>(ys: seq<T>, xs: seq<T>, x: T)
    requires IsSubseq(ys, xs)
    ensures IsSubseq(ys, xs + [x])
    decreases |xs|, 1
  {
    assert (xs + [x])[..|xs|] == xs;
    if ys != [] && ys[|ys| - 1] == x {
      SubseqOfPrefix(ys, xs);
    }
  }

  lemma SubseqOfPrefix<T>(ys: seq<T>, xs: seq<T>)
    requires ys != [] && IsSubseq(ys, xs)
    ensures IsSubseq(ys[..|ys| - 1], xs)
    decreases |xs|, 0
  {
    if xs != [] && |ys| > 1 && ys[|ys| - 1] != xs[|xs| - 1] {
      SubseqOfPrefix(ys, xs[..|xs| - 1]);
      SubseqSnoc(ys[..|ys| - 1], xs[..|xs| - 1], xs[|xs| - 1]);
      assert xs[..|xs| - 1] + [xs[|xs| - 1]] == xs;
    } else if xs != [] && |ys| > 1 {
      SubseqSnoc(ys[..|ys| - 1], xs[..|xs| - 1], xs[|xs| - 1]);
      assert xs[..|xs| - 1] + [xs[|xs| - 1]] == xs;
    }
  }

  /** The images under `mk` of the elements of `xs` that `keep` accepts. */
  lemma MapSelectMembers<T, U>(xs: seq<T>, keep: T -> bool, mk: T -> U, u: U)
    ensures u in Map(Select(xs, keep, true), mk) <==> exists i :: 0 <= i < |xs| && keep(xs[i]) && u == mk(xs[i])
  {
    var sel := Select(xs, keep, true);
    if u in Map(sel, mk) {
      var i :| 0 <= i < |sel| && Map(sel, mk)[i] == u;
      var j :| 0 <= j < |xs| && xs[j] == sel[i];
      assert keep(xs[j]) && u == mk(xs[j]);
    }
    if exists i :: 0 <= i < |xs| && keep(xs[i]) && u == mk(xs[i]) {
      var i :| 0 <= i < |xs| && keep(xs[i]) && u == mk(xs[i]);
      assert xs[i] in sel;
      var j :| 0 <= j < |sel| && sel[j] == xs[i];
      assert Map(sel, mk)[j] == u;
    }
  }

  /** The sequences `f` gives for the elements of `xs`, one after another. */
  function Concat<T, U>(xs: seq<T>, f: T -> seq<U>): seq<U> {
    if xs == [] then [] else Concat(xs[..|xs| - 1], f) + f(xs[|xs| - 1])
  }

  lemma ConcatSnoc<T, U>(xs: seq<T>, x: T, f: T -> seq<U>)
    ensures Concat(xs + [x], f) == Concat(xs, f) + f(x)
  {
    assert (xs + [x])[..|xs|] == xs;
  }

  /** An element of a concatenation comes from the part of one of the elements. */
  lemma {:induction false} ConcatMembers<T, U>(xs: seq<T>, f: T -> seq<U>, u: U)
    ensures u in Concat(xs, f) <==> exists k :: 0 <= k < |xs| && u in f(xs[k])
  {
    if xs != [] {
      var front := xs[..|xs| - 1];
      ConcatMembers(front, f, u);
      if u in Concat(front, f) {
        var k :| 0 <= k < |front| && u in f(front[k]);
        assert front[k] == xs[k];
      }
      if exists k :: 0 <= k < |xs| && u in f(xs[k]) {
        var k :| 0 <= k < |xs| && u in f(xs[k]);
        if k < |front| {
          assert front[k] == xs[k];
        }
      }
    }
  }

  /** The concatenation over a prefix of `xs` is a prefix of the whole concatenation. */
  lemma {:induction false} ConcatPrefix<T, U>(xs: seq<T>, n: nat, f: T -> seq<U>)
    requires n <= |xs|
    ensures Concat(xs[..n], f) <= Concat(xs, f)
    decreases |xs| - n
  {
    if n < |xs| {
      ConcatPrefix(xs, n + 1, f);
      assert xs[..n + 1] == xs[..n] + [xs[n]];
      ConcatSnoc(xs[..n], xs[n], f);
    } else {
      assert xs[..n] == xs;
    }
  }

  lemma {:induction false} ConcatAppend<T, U>(xs: seq<T>, ys: seq<T>, f: T -> seq<U>)
    ensures Concat(xs + ys, f) == Concat(xs, f) + Concat(ys, f)
    decreases |ys|
  {
    if ys == [] {
      assert xs + ys == xs;
    } else {
      var front := ys[..|ys| - 1];
      var last := ys[|ys| - 1];
      assert ys == front + [last];
      assert xs + ys == (xs + front) + [last];
      calc {
        Concat(xs + ys, f);
        { ConcatSnoc(xs + front, last, f); }
        Concat(xs + front, f) + f(last);
        { ConcatAppend(xs, front, f); }
        Concat(xs, f) + Concat(front, f) + f(last);
        { ConcatSnoc(front, last, f); }
        Concat(xs, f) + Concat(ys, f);
      }
    }
  }

  lemma {:induction false} SelectAppend<T, K>(xs: seq<T>, ys: seq<T>, key: T -> K, k: K)
    ensures Select(xs + ys, key, k) == Select(xs, key, k) + Select(ys, key, k)
    decreases |ys|
  {
    if ys == [] {
      assert xs + ys == xs;
    } else {
      var front := ys[..|ys| - 1];
      var last := ys[|ys| - 1];
      assert ys == front + [last];
      assert xs + ys == (xs + front) + [last];
      SelectAppend(xs, front, key, k);
      SelectSnoc(xs + front, last, key, k);
      SelectSnoc(front, last, key, k);
    }
  }

  /** Two keys that agree on every element select the same elements. */
  lemma {:induction false} SelectCongruent<T, K>(xs: seq<T>, key1: T -> K, key2: T -> K, k: K)
    requires forall i :: 0 <= i < |xs| ==> (key1(xs[i]) == k <==> key2(xs[i]) == k)
    ensures Select(xs, key1, k) == Select(xs, key2, k)
  {
    if xs != [] {
      var front := xs[..|xs| - 1];
      assert forall i :: 0 <= i < |front| ==> front[i] == xs[i];
      SelectCongruent(front, key1, key2, k);
    }
  }

  /** A key that holds for every element selects all of them. */
  lemma {:induction false} SelectAll<T, K>(xs: seq<T>, key: T -> K, k: K)
    requires forall i :: 0 <= i < |xs| ==> key(xs[i]) == k
    ensures Select(xs, key, k) == xs
  {
    if xs != [] {
      var front := xs[..|xs| - 1];
      assert forall i :: 0 <= i < |front| ==> front[i] == xs[i];
      SelectAll(front, key, k);
      assert xs == front + [xs[|xs| - 1]];
    }
  }

  /** Elements of equal weight add up to that weight times their number. */
  lemma {:induction false} SumConstant<T>(xs: seq<T>, w: T -> int, c: int)
    requires forall i :: 0 <= i < |xs| ==> w(xs[i]) == c
    ensures Sum(xs, w) == c * |xs|
  {
    if xs != [] {
      var front := xs[..|xs| - 1];
      assert forall i :: 0 <= i < |front| ==> front[i] == xs[i];
      SumConstant(front, w, c);
    }
  }

  /** A key that fails only for the first element selects all the others. */
  lemma {:induction false} SelectAllButFirst<T, K>(xs: seq<T>, key: T -> K, k: K)
    requires |xs| >= 1 && key(xs[0]) != k
    requires forall i :: 1 <= i < |xs| ==> key(xs[i]) == k
    ensures Select(xs, key, k) == xs[1..]
  {
    var front := xs[..|xs| - 1];
    if |xs| > 1 {
      assert forall i :: 0 <= i < |front| ==> front[i] == xs[i];
      SelectAllButFirst(front, key, k);
      assert xs[1..] == front[1..] + [xs[|xs| - 1]];
    }
  }
}
