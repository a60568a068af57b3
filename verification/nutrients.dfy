/** The four-field nutrient record that every part of the tracker produces or
    consumes (a Python dict with keys calories/protein/carbs/fat, the
    `NutritionSummary` interface in React), and its running total. */
module NutrientTotals {

  datatype Nutrients = Nutrients(calories: real, protein: real, carbs: real, fat: real)

  const Zero := Nutrients(0.0, 0.0, 0.0, 0.0)

  function Add(a: Nutrients, b: Nutrients): Nutrients
  {
    Nutrients(a.calories + b.calories, a.protein + b.protein, a.carbs + b.carbs, a.fat + b.fat)
  }

  function Sub(a: Nutrients, b: Nutrients): Nutrients
  {
    Nutrients(a.calories - b.calories, a.protein - b.protein, a.carbs - b.carbs, a.fat - b.fat)
  }

  lemma AddRightSwap(a: Nutrients, b: Nutrients, c: Nutrients)
    ensures Add(Add(a, b), c) == Add(Add(a, c), b)
  {
  }

  /** Every field multiplied by `k`. */
  function Scale(n: Nutrients, k: real): (r: Nutrients)
    ensures k == 1.0 ==> r == n
    ensures NonNegative(n) && k >= 0.0 ==> NonNegative(r)
  {
    Nutrients(n.calories * k, n.protein * k, n.carbs * k, n.fat * k)
  }

  predicate NonNegative(n: Nutrients)
  {
    n.calories >= 0.0 && n.protein >= 0.0 && n.carbs >= 0.0 && n.fat >= 0.0
  }

  /** The field-wise sum of `xs`, accumulated left to right from zero, the way
      the accumulation loops and `reduce` of the tracker do it. */
  function Total(xs: seq<Nutrients>): Nutrients
  {
    if xs == [] then Zero else Add(Total(xs[..|xs| - 1]), xs[|xs| - 1])
  }

  /** The sum of one field of `xs`, added up from the front: an independent
      reference for what one field of `Total(xs)` must be. */
  function FieldSum(xs: seq<Nutrients>, field: Nutrients -> real): real
  {
    if xs == [] then 0.0 else field(xs[0]) + FieldSum(xs[1..], field)
  }

  lemma {:induction false} TotalOfSingleton(x: Nutrients)
    ensures Total([x]) == x
  {
    assert [x][..0] == [];
  }

  /** Totalling a concatenation is adding the two totals. */
  lemma {:induction false} TotalConcat(xs: seq<Nutrients>, ys: seq<Nutrients>)
    ensures Total(xs + ys) == Add(Total(xs), Total(ys))
  {
    if ys == [] {
      assert xs + ys == xs;
    } else {
      var init := ys[..|ys| - 1];
      assert (xs + ys)[..|xs + ys| - 1] == xs + init;
      TotalConcat(xs, init);
    }
  }

  /** Totalling from the front gives the same record as from the back. */
  lemma {:induction false} TotalCons(x: Nutrients, xs: seq<Nutrients>)
    ensures Total([x] + xs) == Add(x, Total(xs))
  {
    TotalConcat([x], xs);
    TotalOfSingleton(x);
  }

  /** Each field of the total is the sum of that field over the records, and
      of nothing else. */
  lemma {:induction false} TotalIsFieldwiseSum(xs: seq<Nutrients>)
    ensures Total(xs) == Nutrients(FieldSum(xs, (n: Nutrients) => n.calories), FieldSum(xs, (n: Nutrients) => n.protein),
                                   FieldSum(xs, (n: Nutrients) => n.carbs), FieldSum(xs, (n: Nutrients) => n.fat))
  {
    if xs != [] {
      TotalCons(xs[0], xs[1..]);
      assert [xs[0]] + xs[1..] == xs;
      TotalIsFieldwiseSum(xs[1..]);
    }
  }

  /** Taking one record out of the middle takes it out of the total. */
  lemma {:induction false} TotalRemoveAt(ys: seq<Nutrients>, j: nat)
    requires j < |ys|
    ensures Total(ys) == Add(Total(ys[..j] + ys[j + 1..]), ys[j])
  {
    assert ys == ys[..j] + [ys[j]] + ys[j + 1..];
    TotalConcat(ys[..j] + [ys[j]], ys[j + 1..]);
    TotalConcat(ys[..j], [ys[j]]);
    TotalConcat(ys[..j], ys[j + 1..]);
    TotalOfSingleton(ys[j]);
  }

  lemma MultisetRemoveAt<T>(ys: seq<T>, j: nat)
    requires j < |ys|
    ensures multiset(ys[..j] + ys[j + 1..]) == multiset(ys) - multiset{ys[j]}
  {
    assert ys == ys[..j] + [ys[j]] + ys[j + 1..];
  }

  /** The total does not depend on the order of the records. */
  lemma {:induction false} TotalPermutation(xs: seq<Nutrients>, ys: seq<Nutrients>)
    requires multiset(xs) == multiset(ys)
    ensures Total(xs) == Total(ys)
    decreases |xs|
  {
    if xs == [] {
      assert |ys| == |multiset(ys)| == 0;
    } else {
      var n := |xs| - 1;
      var x := xs[n];
      assert x in multiset(ys);
      var j :| 0 <= j < |ys| && ys[j] == x;
      MultisetRemoveAt(xs, n);
      MultisetRemoveAt(ys, j);
      assert xs[..n] + xs[n + 1..] == xs[..n];
      TotalPermutation(xs[..n], ys[..j] + ys[j + 1..]);
      TotalRemoveAt(ys, j);
    }
  }

  /** Totalling nothing but zeros gives zero. */
  lemma {:induction false} TotalOfZeros(xs: seq<Nutrients>)
    requires forall i :: 0 <= i < |xs| ==> xs[i] == Zero
    ensures Total(xs) == Zero
  {
    if xs != [] {
      TotalOfZeros(xs[..|xs| - 1]);
    }
  }

  /** Totals of non-negative records are non-negative. */
  lemma {:induction false} TotalNonNegative(xs: seq<Nutrients>)
    requires forall i :: 0 <= i < |xs| ==> NonNegative(xs[i])
    ensures NonNegative(Total(xs))
  {
    if xs != [] {
      TotalNonNegative(xs[..|xs| - 1]);
    }
  }
}
