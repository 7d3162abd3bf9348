/** Gini impurity and information gain of the range decision tree
    (`_gini_impurity`, `_information_gain`), in exact real arithmetic. */
module Impurity {

  import Arith

  /** Number of occurrences of label `c` in `y`. */
  function Count<L(==)>(y: seq<L>, c: L): nat
  {
    multiset(y)[c]
  }

  predicate NoDups<L(==)>(s: seq<L>)
  {
    forall i, j :: 0 <= i < j < |s| ==> s[i] != s[j]
  }

  /** The distinct labels of `y` in order of first occurrence: the key order
      of a `collections.Counter` built from `y`. */
  function Distinct<L(==)>(y: seq<L>): seq<L>
  {
    if |y| == 0 then []
    else
      var prefix := y[..|y| - 1];
      if y[|y| - 1] in multiset(prefix) then Distinct(prefix)
      else Distinct(prefix) + [y[|y| - 1]]
  }

  /** `Distinct(y)` lists every label of `y` exactly once and nothing else. */
  lemma {:induction false} DistinctKeys<L>(y: seq<L>)
    ensures NoDups(Distinct(y))
    ensures forall c :: c in Distinct(y) <==> c in y
    ensures |Distinct(y)| <= |y|
  {
    if |y| > 0 {
      var prefix := y[..|y| - 1];
      var x := y[|y| - 1];
      assert y == prefix + [x];
      DistinctKeys(prefix);
      assert x in multiset(prefix) <==> x in prefix;
    }
  }

  /** Labels appear in `Distinct(y)` in order of first occurrence: a label
      listed no later than the label of sample i occurs at or before i. */
  lemma {:induction false} DistinctOrder<L>(y: seq<L>, k: nat, j: nat, i: nat)
    requires k <= j < |Distinct(y)| && i < |y| && y[i] == Distinct(y)[j]
    ensures Distinct(y)[k] in y[..i + 1]
  {
    var n := |y|;
    var prefix := y[..n - 1];
    var x := y[n - 1];
    DistinctKeys(prefix);
    assert x in multiset(prefix) <==> x in prefix;
    if x in multiset(prefix) {
      if i < n - 1 {
        DistinctOrder(prefix, k, j, i);
        assert prefix[..i + 1] == y[..i + 1];
      } else {
        var i' :| 0 <= i' < |prefix| && prefix[i'] == x;
        DistinctOrder(prefix, k, j, i');
        assert prefix[..i' + 1] == y[..i' + 1];
        InPrefixLater(y, Distinct(y)[k], i', i);
      }
    } else if j < |Distinct(prefix)| {
      if i == n - 1 {
        assert false;
      }
      DistinctOrder(prefix, k, j, i);
      assert prefix[..i + 1] == y[..i + 1];
    } else if k == j {
      assert y[..i + 1][i] == y[i];
    } else {
      if i < n - 1 {
        assert false;
      }
      assert Distinct(y) == Distinct(prefix) + [x];
      var c := Distinct(prefix)[k];
      KeyOccurs(prefix, k);
      var t :| 0 <= t < |prefix| && prefix[t] == c;
      assert y[..i + 1][t] == c;
    }
  }

  lemma KeyOccurs<L>(y: seq<L>, k: nat)
    requires k < |Distinct(y)|
    ensures Distinct(y)[k] in y
  {
    DistinctKeys(y);
    assert Distinct(y)[k] in Distinct(y);
  }

  lemma InPrefixLater<L>(y: seq<L>, c: L, i: nat, j: nat)
    requires i <= j < |y| && c in y[..i + 1]
    ensures c in y[..j + 1]
  {
    var t :| 0 <= t < i + 1 && y[..i + 1][t] == c;
    assert y[..j + 1][t] == c;
  }

  /** Sum over `keys` of the squared empirical frequency of each key in `y`. */
  function SumSqProb<L(==)>(y: seq<L>, keys: seq<L>): real
    requires |y| > 0
  {
    if |keys| == 0 then 0.0
    else
      SumSqProb(y, keys[..|keys| - 1]) + Square(Count(y, keys[|keys| - 1]) as real / |y| as real)
  }

  function Square(p: real): real
  {
    p * p
  }

  /** Gini impurity: 0 for no labels, otherwise one minus the sum of the
      squared frequencies of the distinct labels. */
  function Gini<L(==)>(y: seq<L>): real
  {
    if |y| == 0 then 0.0 else 1.0 - SumSqProb(y, Distinct(y))
  }

  /** `_gini_impurity`: one minus the squared frequency of each distinct
      label, subtracted in the key order of the label counter. */
  method GiniImpurity<L(==)>(y: seq<L>) returns (impurity: real)
    ensures impurity == Gini(y)
  {
    if |y| == 0 {
      return 0.0;
    }
    var keys := Distinct(y);
    impurity := 1.0;
    var k := 0;
    while k < |keys|
      invariant 0 <= k <= |keys|
      invariant impurity == 1.0 - SumSqProb(y, keys[..k])
    {
      var prob := Count(y, keys[k]) as real / |y| as real;
      assert keys[..k + 1][..k] == keys[..k];
      impurity := impurity - prob * prob;
      k := k + 1;
    }
    assert keys[..k] == keys;
  }

  /** Information gain of splitting `y` into `yl` and `yr`: 0 when either side
      is empty, otherwise the parent's impurity minus the size-weighted
      impurities of the two sides.  The source divides by `len(y)` only when
      both sides are non-empty, so only then must `y` be non-empty. */
  function InformationGain<L(==)>(y: seq<L>, yl: seq<L>, yr: seq<L>): real
    requires |yl| > 0 && |yr| > 0 ==> |y| > 0
  {
    if |yl| == 0 || |yr| == 0 then 0.0
    else
      Gini(y) - ((|yl| as real / |y| as real) * Gini(yl) + (|yr| as real / |y| as real) * Gini(yr))
  }

  // ---------------------------------------------------------------------
  // Integer view of the counts

  function CountSum<L(==)>(y: seq<L>, keys: seq<L>): nat
  {
    if |keys| == 0 then 0
    else CountSum(y, keys[..|keys| - 1]) + Count(y, keys[|keys| - 1])
  }

  function CountSqSum<L(==)>(y: seq<L>, keys: seq<L>): nat
  {
    if |keys| == 0 then 0
    else
      var c := Count(y, keys[|keys| - 1]);
      CountSqSum(y, keys[..|keys| - 1]) + c * c
  }

  /** Number of ordered pairs of positions of `y` that hold equal labels;
      it equals the sum of the squared counts over any key list (below). */
  function EqualPairs<L(==)>(y: seq<L>): nat
  {
    if |y| == 0 then 0
    else
      var p := y[..|y| - 1];
      EqualPairs(p) + 2 * Count(p, y[|y| - 1]) + 1
  }

  lemma {:induction false} CountAppend<L>(y: seq<L>, x: L, c: L)
    ensures Count(y + [x], c) == Count(y, c) + (if x == c then 1 else 0)
  {
    assert multiset(y + [x]) == multiset(y) + multiset{x};
  }

  lemma {:induction false} CountSumAppend<L>(y: seq<L>, x: L, keys: seq<L>)
    requires NoDups(keys)
    ensures CountSum(y + [x], keys) == CountSum(y, keys) + (if x in keys then 1 else 0)
  {
    if |keys| > 0 {
      var k := keys[..|keys| - 1];
      assert NoDups(k);
      CountSumAppend(y, x, k);
      CountAppend(y, x, keys[|keys| - 1]);
      assert keys == k + [keys[|keys| - 1]];
      assert x in keys <==> x in k || x == keys[|keys| - 1];
      assert x in k ==> x != keys[|keys| - 1];
    }
  }

  lemma {:induction false} CountSqSumAppend<L>(y: seq<L>, x: L, keys: seq<L>)
    requires NoDups(keys)
    ensures CountSqSum(y + [x], keys)
            == CountSqSum(y, keys) + (if x in keys then 2 * Count(y, x) + 1 else 0)
  {
    if |keys| > 0 {
      var k := keys[..|keys| - 1];
      var last := keys[|keys| - 1];
      assert NoDups(k);
      CountSqSumAppend(y, x, k);
      CountAppend(y, x, last);
      assert keys == k + [last];
      assert x in keys <==> x in k || x == last;
      assert x in k ==> x != last;
      var c := Count(y, last);
      if x == last {
        assert (c + 1) * (c + 1) == c * c + 2 * c + 1;
      }
    }
  }

  /** Over any duplicate-free key list covering the labels of `y`, the counts
      add up to `|y|` and their squares to the number of equal pairs. */
  lemma {:induction false} CoveringKeys<L>(y: seq<L>, keys: seq<L>)
    requires NoDups(keys)
    requires forall c :: c in y ==> c in keys
    ensures CountSum(y, keys) == |y|
    ensures CountSqSum(y, keys) == EqualPairs(y)
  {
    if |y| == 0 {
      ZeroCounts(y, keys);
    } else {
      var p := y[..|y| - 1];
      var x := y[|y| - 1];
      assert y == p + [x];
      forall c | c in p ensures c in keys { assert c in y; }
      CoveringKeys(p, keys);
      CountSumAppend(p, x, keys);
      CountSqSumAppend(p, x, keys);
    }
  }

  lemma {:induction false} ZeroCounts<L>(y: seq<L>, keys: seq<L>)
    requires |y| == 0
    ensures CountSum(y, keys) == 0 && CountSqSum(y, keys) == 0
  {
    if |keys| > 0 {
      ZeroCounts(y, keys[..|keys| - 1]);
    }
  }

  lemma {:induction false} SquaresBelowSquare<L>(y: seq<L>, keys: seq<L>)
    ensures CountSqSum(y, keys) <= CountSum(y, keys) * CountSum(y, keys)
  {
    if |keys| > 0 {
      var k := keys[..|keys| - 1];
      SquaresBelowSquare(y, k);
      var s := CountSum(y, k);
      var c := Count(y, keys[|keys| - 1]);
      Arith.SquareOfSum(s, c);
      Arith.MulNonNegInt(s, c);
    }
  }

  /** Two keys with positive counts make the inequality strict. */
  lemma {:induction false} SquaresStrictlyBelowSquare<L>(y: seq<L>, keys: seq<L>, i: nat, j: nat)
    requires i < j < |keys|
    requires Count(y, keys[i]) > 0 && Count(y, keys[j]) > 0
    ensures CountSqSum(y, keys) < CountSum(y, keys) * CountSum(y, keys)
  {
    var k := keys[..|keys| - 1];
    var s := CountSum(y, k);
    var c := Count(y, keys[|keys| - 1]);
    Arith.SquareOfSum(s, c);
    Arith.MulNonNegInt(s, c);
    if j < |keys| - 1 {
      SquaresStrictlyBelowSquare(y, k, i, j);
    } else {
      SquaresBelowSquare(y, k);
      KeyCountBelowSum(y, k, i);
      Arith.MulPosInt(s, c);
    }
  }

  lemma {:induction false} KeyCountBelowSum<L>(y: seq<L>, keys: seq<L>, i: nat)
    requires i < |keys|
    ensures Count(y, keys[i]) <= CountSum(y, keys)
  {
    if i < |keys| - 1 {
      KeyCountBelowSum(y, keys[..|keys| - 1], i);
    }
  }

  // ---------------------------------------------------------------------
  // From counts to frequencies

  /** The squared frequencies add up to the squared counts over |y|². */
  lemma {:induction false} SumSqProbClosed<L>(y: seq<L>, keys: seq<L>)
    requires |y| > 0
    ensures SumSqProb(y, keys) == CountSqSum(y, keys) as real / (|y| * |y|) as real
  {
    var m := |y| * |y|;
    assert m > 0;
    if |keys| == 0 {
    } else {
      var k := keys[..|keys| - 1];
      var c := Count(y, keys[|keys| - 1]);
      var a, b := CountSqSum(y, k) as real, (c * c) as real;
      SumSqProbClosed(y, k);
      Arith.SquareOfRatio(c, |y|);
      assert Square(c as real / |y| as real) == b / m as real;
      assert SumSqProb(y, keys) == a / m as real + b / m as real;
      Arith.AddSameDenominator(a, b, m as real);
      assert CountSqSum(y, keys) as real == a + b;
    }
  }

  /** Closed form: Gini(y) = 1 - EqualPairs(y) / |y|². */
  lemma {:induction false} GiniClosedForm<L>(y: seq<L>)
    requires |y| > 0
    ensures Gini(y) == 1.0 - EqualPairs(y) as real / (|y| * |y|) as real
  {
    DistinctKeys(y);
    SumSqProbClosed(y, Distinct(y));
    CoveringKeys(y, Distinct(y));
  }

  /** The same sum of squared counts, taken over any duplicate-free key list
      containing every label, gives the impurity. */
  lemma {:induction false} GiniOverKeys<L>(y: seq<L>, keys: seq<L>)
    requires |y| > 0
    requires NoDups(keys)
    requires forall c :: c in y ==> c in keys
    ensures Gini(y) == 1.0 - CountSqSum(y, keys) as real / (|y| * |y|) as real
  {
    GiniClosedForm(y);
    CoveringKeys(y, keys);
  }

  // ---------------------------------------------------------------------
  // Properties of the impurity

  /** Gini impurity lies in [0, 1); it is 0 exactly when all labels agree. */
  lemma {:induction false} GiniBounds<L>(y: seq<L>)
    ensures 0.0 <= Gini(y) < 1.0
    ensures Gini(y) == 0.0 <==> |Distinct(y)| <= 1
  {
    if |y| > 0 {
      var d := Distinct(y);
      DistinctKeys(y);
      SumSqProbClosed(y, d);
      SquareSumBounds(y);
      Arith.RatioBounds(CountSqSum(y, d) as real, (|y| * |y|) as real);
    }
  }

  /** The squared counts add up to a positive number of at most |y|², with
      equality exactly when one label accounts for all of `y`. */
  lemma {:induction false} SquareSumBounds<L>(y: seq<L>)
    requires |y| > 0
    ensures 0 < CountSqSum(y, Distinct(y)) <= |y| * |y|
    ensures CountSqSum(y, Distinct(y)) == |y| * |y| <==> |Distinct(y)| <= 1
  {
    var d := Distinct(y);
    var n := |y|;
    DistinctKeys(y);
    CoveringKeys(y, d);
    SquaresBelowSquare(y, d);
    assert CountSum(y, d) == n;
    assert y[0] in d;
    var i0 :| 0 <= i0 < |d| && d[i0] == y[0];
    PositiveSquares(y, d, i0);
    if |d| <= 1 {
      SingleKey(y, d);
    } else {
      assert d[0] in y && d[1] in y;
      SquaresStrictlyBelowSquare(y, d, 0, 1);
    }
  }

  lemma {:induction false} SingleKey<L>(y: seq<L>, keys: seq<L>)
    requires |keys| == 1
    ensures CountSqSum(y, keys) == CountSum(y, keys) * CountSum(y, keys)
  {
    assert keys[..0] == [];
  }

  lemma {:induction false} PositiveSquares<L>(y: seq<L>, keys: seq<L>, i: nat)
    requires i < |keys| && keys[i] in y
    ensures CountSqSum(y, keys) > 0
  {
    if i < |keys| - 1 {
      PositiveSquares(y, keys[..|keys| - 1], i);
    } else {
      var c := Count(y, keys[i]);
      assert c >= 1;
      assert c * c >= 1;
    }
  }

  // ---------------------------------------------------------------------
  // Properties of the information gain

  /** The gain never exceeds the parent's impurity. */
  lemma {:induction false} GainBelowParent<L>(y: seq<L>, yl: seq<L>, yr: seq<L>)
    requires |yl| > 0 && |yr| > 0 ==> |y| > 0
    ensures InformationGain(y, yl, yr) <= Gini(y)
  {
    if |yl| > 0 && |yr| > 0 {
      var n := |y| as real;
      var gl, gr := Gini(yl), Gini(yr);
      GiniBounds(yl);
      GiniBounds(yr);
      Arith.NonNegRatio(|yl| as real, n);
      Arith.NonNegRatio(|yr| as real, n);
      Arith.WeightedBelow(Gini(y), |yl| as real / n, gl, |yr| as real / n, gr);
    } else {
      GiniBounds(y);
    }
  }

  /** Splitting into two pure sides gains the whole parent impurity. */
  lemma {:induction false} GainOfPureSides<L>(y: seq<L>, yl: seq<L>, yr: seq<L>)
    requires |yl| > 0 && |yr| > 0 && |y| > 0
    requires |Distinct(yl)| == 1 && |Distinct(yr)| == 1
    ensures InformationGain(y, yl, yr) == Gini(y)
  {
    var n := |y| as real;
    var gl, gr := Gini(yl), Gini(yr);
    GiniBounds(yl);
    GiniBounds(yr);
    Arith.NonNegRatio(|yl| as real, n);
    Arith.NonNegRatio(|yr| as real, n);
    Arith.WeightedBelow(Gini(y), |yl| as real / n, gl, |yr| as real / n, gr);
  }

  /** The distinct labels of `y` cover every label of a part of `y`. */
  lemma PartKeys<L>(y: seq<L>, part: seq<L>)
    requires multiset(part) <= multiset(y)
    ensures NoDups(Distinct(y))
    ensures forall c :: c in part ==> c in Distinct(y)
  {
    DistinctKeys(y);
    forall c | c in part ensures c in Distinct(y) {
      assert c in multiset(part);
    }
  }

  /** A split of `y` into two parts never increases the weighted impurity:
      the information gain of any partition is non-negative (concavity of
      the Gini impurity). */
  lemma {:induction false} GainNonNegative<L>(y: seq<L>, yl: seq<L>, yr: seq<L>)
    requires multiset(yl) + multiset(yr) == multiset(y)
    ensures |yl| > 0 && |yr| > 0 ==> |y| > 0
    ensures InformationGain(y, yl, yr) >= 0.0
  {
    assert |multiset(y)| == |multiset(yl)| + |multiset(yr)|;
    if |yl| > 0 && |yr| > 0 {
      GainOfPartition(y, yl, yr);
    }
  }

  lemma GainOfPartition<L>(y: seq<L>, yl: seq<L>, yr: seq<L>)
    requires multiset(yl) + multiset(yr) == multiset(y)
    requires |yl| > 0 && |yr| > 0 && |y| == |yl| + |yr|
    ensures InformationGain(y, yl, yr) >= 0.0
  {
    var keys := Distinct(y);
    GiniOfPart(y, y);
    GiniOfPart(y, yl);
    GiniOfPart(y, yr);
    CrossTerms(y, yl, yr, keys);
    GainOfSquareCounts(y, yl, yr, keys);
    GainUnfold(y, yl, yr);
  }

  /** The weighted gain is non-negative once the impurities are written over
      squared counts and the per-key cross terms are summed. */
  lemma GainOfSquareCounts<L>(y: seq<L>, yl: seq<L>, yr: seq<L>, keys: seq<L>)
    requires |yl| > 0 && |yr| > 0 && |y| == |yl| + |yr|
    requires Gini(y) == 1.0 - CountSqSum(y, keys) as real / (|y| * |y|) as real
    requires Gini(yl) == 1.0 - CountSqSum(yl, keys) as real / (|yl| * |yl|) as real
    requires Gini(yr) == 1.0 - CountSqSum(yr, keys) as real / (|yr| * |yr|) as real
    requires |yr| * |y| * CountSqSum(yl, keys) + |yl| * |y| * CountSqSum(yr, keys)
             >= |yl| * |yr| * CountSqSum(y, keys)
    ensures Gini(y) - ((|yl| as real / |y| as real) * Gini(yl) + (|yr| as real / |y| as real) * Gini(yr)) >= 0.0
  {
    Arith.GainOfCounts(|yl|, |yr|, |y|, CountSqSum(yl, keys), CountSqSum(yr, keys), CountSqSum(y, keys),
                       Gini(y), Gini(yl), Gini(yr));
  }

  /** The impurity of a part of `y`, summed over the keys of `y`. */
  lemma GiniOfPart<L>(y: seq<L>, part: seq<L>)
    requires multiset(part) <= multiset(y) && |part| > 0
    ensures Gini(part) == 1.0 - CountSqSum(part, Distinct(y)) as real / (|part| * |part|) as real
  {
    PartKeys(y, part);
    GiniOverKeys(part, Distinct(y));
  }

  lemma GainUnfold<L>(y: seq<L>, yl: seq<L>, yr: seq<L>)
    requires |yl| > 0 && |yr| > 0 && |y| > 0
    ensures InformationGain(y, yl, yr)
            == Gini(y) - ((|yl| as real / |y| as real) * Gini(yl) + (|yr| as real / |y| as real) * Gini(yr))
  {
  }

  /** Summed over the keys, (l·b - r·a)² ≥ 0 where l and r count a key on
      the two sides and a, b are the side sizes. */
  lemma {:induction false} CrossTerms<L>(y: seq<L>, yl: seq<L>, yr: seq<L>, keys: seq<L>)
    requires multiset(yl) + multiset(yr) == multiset(y)
    requires |y| == |yl| + |yr|
    ensures |yr| * |y| * CountSqSum(yl, keys) + |yl| * |y| * CountSqSum(yr, keys)
            >= |yl| * |yr| * CountSqSum(y, keys)
  {
    if |keys| > 0 {
      var k := keys[..|keys| - 1];
      CrossTerms(y, yl, yr, k);
      var last := keys[|keys| - 1];
      var l, r := Count(yl, last), Count(yr, last);
      assert Count(y, last) == l + r;
      Arith.PerKey(l, r, |yl|, |yr|, |y|, CountSqSum(yl, k), CountSqSum(yr, k), CountSqSum(y, k));
    }
  }

}
