/**
 * The count-weighted running average kept in each `stats` row: a row holds
 * the average of the values observed at its slot and how many there were.
 */
module Averaging {
  import opened Wrappers

  /** A `stats` row without its key: the REAL `value` and INTEGER `weight` columns. */
  datatype Stat = Stat(value: real, weight: nat)

  /**
   * Folds one observation into the row for its slot: a missing row starts at
   * the value with weight 1; an existing one gains one unit of weight and its
   * average moves to the weighted mean of the old average and the value.
   */
  function Fold(existing: Option<Stat>, v: real): (r: Stat)
    ensures existing.None? ==> r == Stat(v, 1)
    ensures existing.Some? ==> r.weight == existing.value.weight + 1
  {
    match existing
    case None => Stat(v, 1)
    case Some(Stat(average, weight)) =>
      Stat((average * weight as real + v) / (weight + 1) as real, weight + 1)
  }

  /** Folding keeps the row's total: the new average times the new weight is the old total plus the value. */
  lemma FoldKeepsTotal(s: Stat, v: real)
    ensures Fold(Some(s), v).value * Fold(Some(s), v).weight as real == s.value * s.weight as real + v
  {
  }

  /** The total of some observations. */
  function Sum(vs: seq<real>): real
  {
    if vs == [] then 0.0 else Sum(vs[..|vs| - 1]) + vs[|vs| - 1]
  }

  /** Their arithmetic mean. */
  function Mean(vs: seq<real>): real
    requires vs != []
  {
    Sum(vs) / |vs| as real
  }

  /** The row that holds exactly the observations `vs`: their mean, weighted by their number. */
  function MeanOf(vs: seq<real>): (r: Stat)
    requires vs != []
    ensures r.weight >= 1
  {
    Stat(Mean(vs), |vs|)
  }

  /** Folds observations one after another, starting from no row. */
  function FoldAll(vs: seq<real>): Option<Stat>
  {
    if vs == [] then None else Some(Fold(FoldAll(vs[..|vs| - 1]), vs[|vs| - 1]))
  }

  /** Folding keeps a row equal to the mean and count of everything folded into it. */
  lemma FoldStep(vs: seq<real>, v: real)
    ensures vs == [] ==> Fold(None, v) == MeanOf(vs + [v])
    ensures vs != [] ==> Fold(Some(MeanOf(vs)), v) == MeanOf(vs + [v])
  {
    var ws := vs + [v];
    assert ws[..|ws| - 1] == vs;
    var n := |vs| as real;
    if vs != [] {
      assert Mean(vs) * n == Sum(vs);
      assert (Mean(vs) * n + v) / (n + 1.0) == Sum(ws) / (n + 1.0);
    }
  }

  /** After n observations a row has weight n and holds their arithmetic mean. */
  lemma {:induction false} FoldAllIsMean(vs: seq<real>)
    ensures vs == [] <==> FoldAll(vs).None?
    ensures vs != [] ==> FoldAll(vs) == Some(MeanOf(vs))
  {
    if vs != [] {
      var init := vs[..|vs| - 1];
      assert vs == init + [vs[|vs| - 1]];
      FoldAllIsMean(init);
      FoldStep(init, vs[|vs| - 1]);
    }
  }

  lemma {:induction false} SumConcat(a: seq<real>, b: seq<real>)
    ensures Sum(a + b) == Sum(a) + Sum(b)
    decreases |b|
  {
    if b == [] {
      assert a + b == a;
    } else {
      var b' := b[..|b| - 1];
      assert (a + b)[..|a + b| - 1] == a + b';
      SumConcat(a, b');
    }
  }

  /** Taking out the element at `i` takes it out of the sum. */
  lemma SumRemoveAt(b: seq<real>, i: nat)
    requires i < |b|
    ensures Sum(b) == Sum(b[..i] + b[i + 1..]) + b[i]
  {
    var x := b[i];
    assert b == (b[..i] + [x]) + b[i + 1..];
    SumConcat(b[..i], b[i + 1..]);
    SumConcat(b[..i] + [x], b[i + 1..]);
    SumConcat(b[..i], [x]);
    assert Sum([x]) == x by {
      assert [x][..0] == [];
    }
  }

  /** Taking out the element at `i` takes one copy of it out of the multiset. */
  lemma MultisetRemoveAt(b: seq<real>, i: nat)
    requires i < |b|
    ensures multiset(b[..i] + b[i + 1..]) == multiset(b) - multiset{b[i]}
  {
    assert b == b[..i] + [b[i]] + b[i + 1..];
    assert multiset(b) == multiset(b[..i]) + multiset{b[i]} + multiset(b[i + 1..]);
  }

  lemma {:induction false} SumPermutation(a: seq<real>, b: seq<real>)
    requires multiset(a) == multiset(b)
    ensures Sum(a) == Sum(b)
    decreases |a|
  {
    if a == [] {
      assert |b| == |multiset(b)| == 0;
    } else {
      var x, a' := a[|a| - 1], a[..|a| - 1];
      assert a == a' + [x];
      assert multiset(a') == multiset(a) - multiset{x};
      assert x in multiset(b);
      var i :| 0 <= i < |b| && b[i] == x;
      SumRemoveAt(b, i);
      MultisetRemoveAt(b, i);
      SumPermutation(a', b[..i] + b[i + 1..]);
    }
  }

  /** The row a sequence of observations leaves does not depend on their order. */
  lemma FoldOrderIndependent(a: seq<real>, b: seq<real>)
    requires multiset(a) == multiset(b)
    ensures FoldAll(a) == FoldAll(b)
  {
    assert |a| == |multiset(a)| == |multiset(b)| == |b|;
    FoldAllIsMean(a);
    FoldAllIsMean(b);
    SumPermutation(a, b);
  }
}
