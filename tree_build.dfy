/** Tree construction of the range decision tree (`_build_tree`): the
    recursive construction, the shape of the split it uses at each node and
    the facts the rest of the classifier relies on. */
module TreeBuild {
  import opened Wrappers
  import opened Impurity
  import opened TreeSplit

  // ---------------------------------------------------------------------
  // Both sides of a chosen split are non-empty

  /** A split found on `X`: its mask is the mask of its own condition on its
      own feature column, it sends at least one row to each side and at
      least `minLeaf` rows to each side. */
  predicate Proper(X: seq<Row>, width: nat, minLeaf: int, info: SplitInfo)
    requires Rectangular(X, width)
  {
    info.feature < width
    && info.leftMask == Mask(Column(X, width, info.feature), info.split)
    && 0 < CountTrue(info.leftMask) < |X|
    && CountTrue(info.leftMask) >= minLeaf && |X| - CountTrue(info.leftMask) >= minLeaf
  }

  /** An element of `col` at which value `v` occurs. */
  lemma Occurrence(col: seq<real>, v: real) returns (i: nat)
    requires v in Unique(col)
    ensures i < |col| && col[i] == v
  {
    UniqueSpec(col);
    i :| i < |col| && col[i] == v;
  }

  /** A midpoint threshold has a value of the column on each side. */
  lemma StandardSides(col: seq<real>, k: nat)
    requires k + 1 < |Unique(col)|
    ensures 0 < CountTrue(Mask(col, Standard((Unique(col)[k] + Unique(col)[k + 1]) / 2.0))) < |col|
  {
    var u := Unique(col);
    UniqueSpec(col);
    var t := (u[k] + u[k + 1]) / 2.0;
    var i := Occurrence(col, u[k]);
    var j := Occurrence(col, u[k + 1]);
    BothSides(Mask(col, Standard(t)), i, j);
  }

  /** A tried range holds its lower value and misses the smallest value (when
      it starts above it) or else the largest value: the upper index stays
      below half the number of distinct values past the lower one. */
  lemma RangeSides(col: seq<real>, i: nat, j: nat)
    requires |Unique(col)| >= 3 && i < j < RangeEnd(i, |Unique(col)|)
    ensures 0 < CountTrue(Mask(col, Range(Unique(col)[i], Unique(col)[j]))) < |col|
  {
    var u := Unique(col);
    var n := |u|;
    UniqueSpec(col);
    var inside := Occurrence(col, u[i]);
    var outside;
    if i > 0 {
      outside := Occurrence(col, u[0]);
    } else {
      assert j < n - 1;
      outside := Occurrence(col, u[n - 1]);
    }
    BothSides(Mask(col, Range(u[i], u[j])), inside, outside);
  }

  /** Candidate k of the standard splits tries the k-th midpoint. */
  lemma StandardCandidateAt<L>(col: seq<real>, y: seq<L>, f: nat, minLeaf: int, k: nat)
    requires |col| == |y| && k + 1 < |Unique(col)|
    ensures k < |StandardCandidates(col, y, f, minLeaf)|
    ensures StandardCandidates(col, y, f, minLeaf)[k]
            == Evaluate(col, y, f, Standard((Unique(col)[k] + Unique(col)[k + 1]) / 2.0), minLeaf)
  {
    var u := Unique(col);
    var ts := Midpoints(u);
    assert ts[k] == (u[k] + u[k + 1]) / 2.0;
    var cs := StandardCandidates(col, y, f, minLeaf);
    assert cs[k] == Evaluate(col, y, f, Standard(ts[k]), minLeaf);
  }

  /** A split found on column `col` of feature `f`. */
  predicate ProperOn(col: seq<real>, f: nat, minLeaf: int, info: SplitInfo)
  {
    info.feature == f && info.leftMask == Mask(col, info.split) && 0 < CountTrue(info.leftMask) < |col|
    && CountTrue(info.leftMask) >= minLeaf && |col| - CountTrue(info.leftMask) >= minLeaf
  }

  /** A found candidate is proper when its condition has rows on both sides. */
  lemma EvaluateProper<L>(col: seq<real>, y: seq<L>, f: nat, s: Split, minLeaf: int)
    requires |col| == |y| && 0 < CountTrue(Mask(col, s)) < |col|
    ensures var r := Evaluate(col, y, f, s, minLeaf);
            r.Some? ==> ProperOn(col, f, minLeaf, r.value)
  {
  }

  lemma StandardSplitProper<L>(col: seq<real>, y: seq<L>, f: nat, minLeaf: int)
    requires |col| == |y|
    ensures var r := StandardSplit(col, y, f, minLeaf);
            r.Some? ==> ProperOn(col, f, minLeaf, r.value)
  {
    if |Unique(col)| > 1 {
      var cs := StandardCandidates(col, y, f, minLeaf);
      var k := BestOfIsCandidate(cs);
      if BestOf(cs).Some? {
        StandardCandidateProper(col, y, f, minLeaf, k);
      }
    }
  }

  /** Each found standard candidate is proper. */
  lemma StandardCandidateProper<L>(col: seq<real>, y: seq<L>, f: nat, minLeaf: int, k: nat)
    requires |col| == |y| && |Unique(col)| > 1 && k < |StandardCandidates(col, y, f, minLeaf)|
    ensures var c := StandardCandidates(col, y, f, minLeaf)[k];
            c.Some? ==> ProperOn(col, f, minLeaf, c.value)
  {
    var u := Unique(col);
    StandardCandidateAt(col, y, f, minLeaf, k);
    StandardSides(col, k);
    EvaluateProper(col, y, f, Standard((u[k] + u[k + 1]) / 2.0), minLeaf);
  }

  /** Every range candidate evaluates some pair i < j < RangeEnd(i, |u|). */
  lemma {:induction false} RangeCandidateAt<L>(col: seq<real>, y: seq<L>, f: nat, u: seq<real>,
                                               lows: seq<nat>, minLeaf: int, t: nat)
    returns (i: nat, j: nat)
    requires |col| == |y| && forall k :: 0 <= k < |lows| ==> lows[k] < |u|
    requires t < |RangeCandidates(col, y, f, u, lows, minLeaf)|
    ensures i < j < RangeEnd(i, |u|)
    ensures RangeCandidates(col, y, f, u, lows, minLeaf)[t] == Evaluate(col, y, f, Range(u[i], u[j]), minLeaf)
  {
    var front := lows[..|lows| - 1];
    var before := RangeCandidates(col, y, f, u, front, minLeaf);
    if t < |before| {
      i, j := RangeCandidateAt(col, y, f, u, front, minLeaf, t);
    } else {
      i := lows[|lows| - 1];
      j := i + 1 + (t - |before|);
    }
  }

  lemma RangeSplitProper<L>(col: seq<real>, y: seq<L>, f: nat, minLeaf: int, maxRangeSplits: nat,
                            draw: (nat, nat) -> seq<nat>)
    requires |col| == |y| && DrawsWithoutReplacement(draw)
    ensures var r := RangeSplit(col, y, f, minLeaf, maxRangeSplits, draw);
            r.Some? ==> ProperOn(col, f, minLeaf, r.value)
  {
    var u := Unique(col);
    if |u| > 2 {
      var lows := LowerIndices(|u|, maxRangeSplits, draw);
      var cs := RangeCandidates(col, y, f, u, lows, minLeaf);
      var k := BestOfIsCandidate(cs);
      if BestOf(cs).Some? {
        var i, j := RangeCandidateAt(col, y, f, u, lows, minLeaf, k);
        RangeSides(col, i, j);
        EvaluateProper(col, y, f, Range(u[i], u[j]), minLeaf);
      }
    }
  }

  /** Every found split of `cs` is proper on `X`. */
  predicate AllProper(X: seq<Row>, width: nat, minLeaf: int, cs: seq<Option<SplitInfo>>)
    requires Rectangular(X, width)
  {
    forall i :: 0 <= i < |cs| && cs[i].Some? ==> Proper(X, width, minLeaf, cs[i].value)
  }

  lemma AllProperAppend(X: seq<Row>, width: nat, minLeaf: int, a: seq<Option<SplitInfo>>, b: seq<Option<SplitInfo>>)
    requires Rectangular(X, width) && AllProper(X, width, minLeaf, a) && AllProper(X, width, minLeaf, b)
    ensures AllProper(X, width, minLeaf, a + b)
  {
    forall i | 0 <= i < |a + b| && (a + b)[i].Some?
      ensures Proper(X, width, minLeaf, (a + b)[i].value)
    {
      if i >= |a| {
        assert (a + b)[i] == b[i - |a|];
      }
    }
  }

  /** The results of one feature are proper. */
  lemma FeatureResultsProper<L>(X: seq<Row>, width: nat, y: seq<L>, f: nat, p: TreeParams,
                                draw: (nat, nat) -> seq<nat>)
    requires Rectangular(X, width) && f < width && |X| == |y| && DrawsWithoutReplacement(draw)
    ensures AllProper(X, width, p.minSamplesLeaf, StandardResult(X, width, y, f, p))
    ensures AllProper(X, width, p.minSamplesLeaf, RangeResult(X, width, y, f, p, draw))
  {
    var col := Column(X, width, f);
    StandardSplitProper(col, y, f, p.minSamplesLeaf);
    RangeSplitProper(col, y, f, p.minSamplesLeaf, p.maxRangeSplits, draw);
  }

  /** Every per-feature result of the first `m` features is proper. */
  lemma {:induction false} AllResultsProper<L>(X: seq<Row>, width: nat, y: seq<L>, m: nat, p: TreeParams,
                                               draw: (nat, nat) -> seq<nat>)
    requires Rectangular(X, width) && m <= width && |X| == |y| && DrawsWithoutReplacement(draw)
    ensures AllProper(X, width, p.minSamplesLeaf, AllResults(X, width, y, m, p, draw))
    decreases m
  {
    if m > 0 {
      var before := AllResults(X, width, y, m - 1, p, draw);
      var standard := StandardResult(X, width, y, m - 1, p);
      var range := RangeResult(X, width, y, m - 1, p, draw);
      AllResultsProper(X, width, y, m - 1, p, draw);
      FeatureResultsProper(X, width, y, m - 1, p, draw);
      AllProperAppend(X, width, p.minSamplesLeaf, before, standard);
      AllProperAppend(X, width, p.minSamplesLeaf, before + standard, range);
    }
  }

  /** The split `_find_best_split` returns sends rows to both sides. */
  lemma BestSplitProper<L>(X: seq<Row>, width: nat, y: seq<L>, p: TreeParams, draw: (nat, nat) -> seq<nat>)
    requires Rectangular(X, width) && |X| == |y| && DrawsWithoutReplacement(draw)
    ensures var r := BestSplit(X, width, y, p, draw);
            r.Some? ==> Proper(X, width, p.minSamplesLeaf, r.value)
  {
    if |y| >= p.minSamplesSplit {
      var cs := AllResults(X, width, y, width, p, draw);
      var k := BestOfIsCandidate(cs);
      if BestOf(cs).Some? {
        AllResultsProper(X, width, y, width, p, draw);
      }
    }
  }

  // ---------------------------------------------------------------------
  // Nodes

  /** A node of the tree: a leaf predicting `value`, or an internal node
      sending a sample left when its split condition holds on `feature`.
      Both record the number of training samples and their impurity. */
  datatype Node<L> =
    | Leaf(value: L, samples: nat, impurity: real)
    | Internal(feature: nat, split: Split, left: Node<L>, right: Node<L>, samples: nat, impurity: real)

  // ---------------------------------------------------------------------
  // Majority label (`Counter(y).most_common(1)[0][0]`)

  /** The first of `keys` with the largest count: `max` keeps the first
      maximal item, and the counter lists labels in order of first occurrence. */
  function MostCommonOf<L(==)>(y: seq<L>, keys: seq<L>): L
    requires |keys| > 0
  {
    if |keys| == 1 then keys[0]
    else if Count(y, keys[|keys| - 1]) > Count(y, MostCommonOf(y, keys[..|keys| - 1])) then keys[|keys| - 1]
    else MostCommonOf(y, keys[..|keys| - 1])
  }

  function MostCommon<L(==)>(y: seq<L>): L
    requires |y| > 0
  {
    DistinctKeys(y);
    assert y[0] in Distinct(y);
    MostCommonOf(y, Distinct(y))
  }

  /** `MostCommonOf` picks key k: no key has a larger count, and every key
      before k has a strictly smaller one. */
  lemma {:induction false} MostCommonOfSpec<L>(y: seq<L>, keys: seq<L>) returns (k: nat)
    requires |keys| > 0
    ensures k < |keys| && MostCommonOf(y, keys) == keys[k]
    ensures forall i :: 0 <= i < |keys| ==> Count(y, keys[i]) <= Count(y, keys[k])
    ensures forall i :: 0 <= i < k ==> Count(y, keys[i]) < Count(y, keys[k])
  {
    if |keys| == 1 {
      k := 0;
    } else {
      var front := keys[..|keys| - 1];
      var k0 := MostCommonOfSpec(y, front);
      assert forall i :: 0 <= i < |front| ==> front[i] == keys[i];
      if Count(y, keys[|keys| - 1]) > Count(y, MostCommonOf(y, front)) {
        k := |keys| - 1;
      } else {
        k := k0;
      }
    }
  }

  /** The majority label occurs in `y`, no label occurs more often, and among
      the labels that occur as often it is the first to appear in `y`. */
  lemma MostCommonSpec<L>(y: seq<L>)
    requires |y| > 0
    ensures MostCommon(y) in y
    ensures forall c :: c in y ==> Count(y, c) <= Count(y, MostCommon(y))
    ensures forall i :: 0 <= i < |y| && Count(y, y[i]) == Count(y, MostCommon(y))
              ==> MostCommon(y) in y[..i + 1]
  {
    var keys := Distinct(y);
    DistinctKeys(y);
    assert y[0] in keys;
    var k := MostCommonOfSpec(y, keys);
    assert keys[k] in keys;
    forall c | c in y ensures Count(y, c) <= Count(y, MostCommon(y)) {
      var i :| 0 <= i < |keys| && keys[i] == c;
    }
    forall i | 0 <= i < |y| && Count(y, y[i]) == Count(y, MostCommon(y))
      ensures MostCommon(y) in y[..i + 1]
    {
      assert y[i] in keys;
      var j :| 0 <= j < |keys| && keys[j] == y[i];
      assert j >= k;
      DistinctOrder(y, k, j, i);
    }
  }

  // ---------------------------------------------------------------------
  // Recursive construction

  /** Every element a mask selects is an element of the filtered sequence. */
  lemma FilterSubset<T>(xs: seq<T>, mask: seq<bool>)
    requires |xs| == |mask|
    ensures multiset(Filter(xs, mask)) <= multiset(xs)
    ensures forall x :: x in Filter(xs, mask) ==> x in xs
  {
    FilterPartition(xs, mask);
    forall x | x in Filter(xs, mask) ensures x in xs {
      assert x in multiset(Filter(xs, mask));
    }
  }

  /** Selecting rows keeps the matrix rectangular. */
  lemma FilterRectangular(X: seq<Row>, width: nat, mask: seq<bool>)
    requires Rectangular(X, width) && |X| == |mask|
    ensures Rectangular(Filter(X, mask), width)
  {
    FilterSubset(X, mask);
    forall i | 0 <= i < |Filter(X, mask)| ensures |Filter(X, mask)[i]| == width {
      var row := Filter(X, mask)[i];
      assert row in X;
    }
  }

  /** The stopping criteria of `_build_tree`. */
  predicate Stops<L(==)>(y: seq<L>, depth: nat, p: TreeParams)
  {
    (p.maxDepth.Some? && depth >= p.maxDepth.value) || |Distinct(y)| == 1 || |y| < p.minSamplesSplit
  }

  /** `_build_tree`: a leaf holding the majority label when a stopping
      criterion holds or no split is found, otherwise an internal node over
      the two sides of the best split.  An empty label sequence fails with
      `IndexError`, as `most_common(1)[0]` does; a split never produces an
      empty side, so that only happens at the root. */
  function Build<L(==)>(X: seq<Row>, width: nat, y: seq<L>, depth: nat, p: TreeParams,
                        draw: (nat, nat) -> seq<nat>): (r: Result<Node<L>>)
    requires Rectangular(X, width) && |X| == |y| && DrawsWithoutReplacement(draw)
    ensures r.Ok? <==> |y| > 0
    ensures r.Ok? ==> r.value.samples == |y| && r.value.impurity == Gini(y)
    decreases |y|
  {
    if |y| == 0 then Err(IndexError)
    else if Stops(y, depth, p) then Ok(Leaf(MostCommon(y), |y|, Gini(y)))
    else
      match BestSplit(X, width, y, p, draw)
      case None => Ok(Leaf(MostCommon(y), |y|, Gini(y)))
      case Some(info) =>
        BestSplitProper(X, width, y, p, draw);
        var mask := info.leftMask;
        CountTrueNegate(mask);
        FilterRectangular(X, width, mask);
        FilterRectangular(X, width, Negate(mask));
        var left :- Build(Filter(X, mask), width, Filter(y, mask), depth + 1, p, draw);
        var right :- Build(Filter(X, Negate(mask)), width, Filter(y, Negate(mask)), depth + 1, p, draw);
        Ok(Internal(info.feature, info.split, left, right, |y|, Gini(y)))
  }

  // ---------------------------------------------------------------------
  // Properties of built trees

  /** The facts the rest of the classifier relies on: every node holds
      training samples and an impurity in [0, 1); an internal node splits on
      a feature below `width`, its children share out its samples with at
      least `minLeaf` and at least one each, and the weighted impurity of
      the children is no more than its own. */
  /** The impurity decrease of a node of `n` samples and impurity `g` whose
      children hold `ls` and `rs` samples with impurities `gl` and `gr`. */
  function WeightedDecrease(n: nat, g: real, ls: nat, gl: real, rs: nat, gr: real): real
    requires n > 0
  {
    g - ((ls as real / n as real) * gl + (rs as real / n as real) * gr)
  }

  predicate WellFormed<L>(node: Node<L>, width: nat, minLeaf: int)
  {
    match node
    case Leaf(_, samples, impurity) => samples > 0 && 0.0 <= impurity < 1.0
    case Internal(f, _, left, right, samples, impurity) =>
      f < width && 0 < left.samples && 0 < right.samples
      && minLeaf <= left.samples && minLeaf <= right.samples
      && left.samples + right.samples == samples
      && 0.0 <= impurity < 1.0
      && WeightedDecrease(samples, impurity, left.samples, left.impurity, right.samples, right.impurity) >= 0.0
      && WellFormed(left, width, minLeaf) && WellFormed(right, width, minLeaf)
  }

  /** The shape of `Build` at a node that is split: the mask of the chosen
      split, with both filtered matrices rectangular, both sides non-empty,
      and the node built from the children built on each side. */
  lemma BuildInternal<L>(X: seq<Row>, width: nat, y: seq<L>, depth: nat, p: TreeParams,
                         draw: (nat, nat) -> seq<nat>) returns (mask: seq<bool>)
    requires Rectangular(X, width) && |X| == |y| && DrawsWithoutReplacement(draw)
    requires |y| > 0 && !Stops(y, depth, p) && BestSplit(X, width, y, p, draw).Some?
    ensures |mask| == |y| && mask == BestSplit(X, width, y, p, draw).value.leftMask
    ensures Rectangular(Filter(X, mask), width) && Rectangular(Filter(X, Negate(mask)), width)
    ensures |Filter(X, mask)| == |Filter(y, mask)| > 0
    ensures |Filter(X, Negate(mask))| == |Filter(y, Negate(mask))| > 0
    ensures |Filter(y, mask)| >= p.minSamplesLeaf && |Filter(y, Negate(mask))| >= p.minSamplesLeaf
    ensures |Filter(y, mask)| + |Filter(y, Negate(mask))| == |y|
    ensures BestSplit(X, width, y, p, draw).value.feature < width
    ensures Build(X, width, y, depth, p, draw)
            == Ok(Internal(BestSplit(X, width, y, p, draw).value.feature, BestSplit(X, width, y, p, draw).value.split,
                           Build(Filter(X, mask), width, Filter(y, mask), depth + 1, p, draw).value,
                           Build(Filter(X, Negate(mask)), width, Filter(y, Negate(mask)), depth + 1, p, draw).value,
                           |y|, Gini(y)))
  {
    var info := BestSplit(X, width, y, p, draw).value;
    BestSplitProper(X, width, y, p, draw);
    mask := info.leftMask;
    CountTrueNegate(mask);
    FilterRectangular(X, width, mask);
    FilterRectangular(X, width, Negate(mask));
  }

  /** The impurity decrease at a node whose children partition its samples
      is non-negative. */
  lemma SplitDecrease<L>(y: seq<L>, yl: seq<L>, yr: seq<L>)
    requires multiset(yl) + multiset(yr) == multiset(y)
    requires |yl| > 0 && |yr| > 0 && |y| == |yl| + |yr|
    ensures WeightedDecrease(|y|, Gini(y), |yl|, Gini(yl), |yr|, Gini(yr)) >= 0.0
  {
    GainNonNegative(y, yl, yr);
    GainUnfold(y, yl, yr);
  }

  /** An internal node is well formed when its own conditions hold and its
      children are well formed. */
  lemma InternalWellFormed<L>(f: nat, s: Split, left: Node<L>, right: Node<L>, n: nat, g: real,
                              width: nat, minLeaf: int)
    requires f < width && 0 < left.samples && 0 < right.samples
    requires minLeaf <= left.samples && minLeaf <= right.samples && left.samples + right.samples == n
    requires 0.0 <= g < 1.0
    requires WeightedDecrease(n, g, left.samples, left.impurity, right.samples, right.impurity) >= 0.0
    requires WellFormed(left, width, minLeaf) && WellFormed(right, width, minLeaf)
    ensures WellFormed(Internal(f, s, left, right, n, g), width, minLeaf)
  {
  }

  lemma {:induction false} BuildWellFormed<L>(X: seq<Row>, width: nat, y: seq<L>, depth: nat, p: TreeParams,
                                              draw: (nat, nat) -> seq<nat>)
    requires Rectangular(X, width) && |X| == |y| && DrawsWithoutReplacement(draw)
    ensures var r := Build(X, width, y, depth, p, draw);
            r.Ok? ==> WellFormed(r.value, width, p.minSamplesLeaf)
    decreases |y|
  {
    if |y| > 0 {
      if !Stops(y, depth, p) && BestSplit(X, width, y, p, draw).Some? {
        var info := BestSplit(X, width, y, p, draw).value;
        var mask := BuildInternal(X, width, y, depth, p, draw);
        var yl, yr := Filter(y, mask), Filter(y, Negate(mask));
        var left := Build(Filter(X, mask), width, yl, depth + 1, p, draw);
        var right := Build(Filter(X, Negate(mask)), width, yr, depth + 1, p, draw);
        BuildWellFormed(Filter(X, mask), width, yl, depth + 1, p, draw);
        BuildWellFormed(Filter(X, Negate(mask)), width, yr, depth + 1, p, draw);
        FilterPartition(y, mask);
        GiniBounds(y);
        InternalStep(y, yl, yr, info.feature, info.split, left.value, right.value, width, p.minSamplesLeaf);
      } else {
        GiniBounds(y);
      }
    }
  }

  /** The inductive step of `BuildWellFormed` at a node that is split. */
  lemma InternalStep<L>(y: seq<L>, yl: seq<L>, yr: seq<L>, f: nat, s: Split, left: Node<L>, right: Node<L>,
                        width: nat, minLeaf: int)
    requires multiset(yl) + multiset(yr) == multiset(y)
    requires |yl| > 0 && |yr| > 0 && |yl| + |yr| == |y| && f < width
    requires minLeaf <= |yl| && minLeaf <= |yr|
    requires left.samples == |yl| && left.impurity == Gini(yl) && WellFormed(left, width, minLeaf)
    requires right.samples == |yr| && right.impurity == Gini(yr) && WellFormed(right, width, minLeaf)
    requires 0.0 <= Gini(y) < 1.0
    ensures WellFormed(Internal(f, s, left, right, |y|, Gini(y)), width, minLeaf)
  {
    SplitDecrease(y, yl, yr);
    InternalWellFormed(f, s, left, right, |y|, Gini(y), width, minLeaf);
  }

  /** The labels the leaves of a tree predict. */
  function Labels<L(==)>(node: Node<L>): set<L>
  {
    match node
    case Leaf(value, _, _) => {value}
    case Internal(_, _, left, right, _, _) => Labels(left) + Labels(right)
  }

  /** A built tree only predicts labels seen in training. */
  lemma {:induction false} BuildLabels<L>(X: seq<Row>, width: nat, y: seq<L>, depth: nat, p: TreeParams,
                                          draw: (nat, nat) -> seq<nat>)
    requires Rectangular(X, width) && |X| == |y| && DrawsWithoutReplacement(draw)
    ensures var r := Build(X, width, y, depth, p, draw);
            r.Ok? ==> forall c :: c in Labels(r.value) ==> c in y
    decreases |y|
  {
    if |y| > 0 {
      MostCommonSpec(y);
      if !Stops(y, depth, p) && BestSplit(X, width, y, p, draw).Some? {
        var mask := BuildInternal(X, width, y, depth, p, draw);
        var yl, yr := Filter(y, mask), Filter(y, Negate(mask));
        BuildLabels(Filter(X, mask), width, yl, depth + 1, p, draw);
        BuildLabels(Filter(X, Negate(mask)), width, yr, depth + 1, p, draw);
        FilterSubset(y, mask);
        FilterSubset(y, Negate(mask));
      }
    }
  }

  function Height<L>(node: Node<L>): nat
  {
    match node
    case Leaf(_, _, _) => 0
    case Internal(_, _, left, right, _, _) => 1 + Max(Height(left), Height(right))
  }

  function Max(a: int, b: int): int { if a >= b then a else b }

  /** Every split removes at least one sample from each side, so a tree
      over n samples has height below n; with `max_depth` set, no leaf lies
      deeper than `max_depth` (counting from the depth the build starts at). */
  lemma {:induction false} BuildHeight<L>(X: seq<Row>, width: nat, y: seq<L>, depth: nat, p: TreeParams,
                                          draw: (nat, nat) -> seq<nat>)
    requires Rectangular(X, width) && |X| == |y| && DrawsWithoutReplacement(draw)
    ensures var r := Build(X, width, y, depth, p, draw);
            r.Ok? ==> Height(r.value) < |y|
                      && (p.maxDepth.Some? ==> depth + Height(r.value) <= Max(depth, p.maxDepth.value))
    decreases |y|
  {
    if |y| > 0 && !Stops(y, depth, p) && BestSplit(X, width, y, p, draw).Some? {
      var mask := BuildInternal(X, width, y, depth, p, draw);
      BuildHeight(Filter(X, mask), width, Filter(y, mask), depth + 1, p, draw);
      BuildHeight(Filter(X, Negate(mask)), width, Filter(y, Negate(mask)), depth + 1, p, draw);
    }
  }

  /** A node is split exactly when no stopping criterion holds and a split
      exists; a pure sample set becomes a leaf of zero impurity; a leaf
      predicts the majority label of its samples. */
  lemma BuildLeaves<L>(X: seq<Row>, width: nat, y: seq<L>, depth: nat, p: TreeParams,
                       draw: (nat, nat) -> seq<nat>)
    requires Rectangular(X, width) && |X| == |y| && DrawsWithoutReplacement(draw)
    ensures var r := Build(X, width, y, depth, p, draw);
            r.Ok? ==> (r.value.Internal? <==> !Stops(y, depth, p) && BestSplit(X, width, y, p, draw).Some?)
                      && (r.value.Leaf? ==> r.value.value == MostCommon(y))
                      && (|Distinct(y)| == 1 ==> r.value.Leaf? && r.value.impurity == 0.0)
  {
    GiniBounds(y);
  }
}
