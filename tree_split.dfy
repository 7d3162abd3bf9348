/** Split evaluation of the range decision tree: the candidate splits of one
    feature (`_evaluate_standard_splits`, `_evaluate_range_splits`) and the
    choice of the best split over all features (`_find_best_split`).
    Each evaluator is a method whose loop is proved to compute the fold
    `BestOf` of a sequence of candidates defined by functions. */
module TreeSplit {
  import opened Wrappers
  import opened Impurity

  type Row = seq<real>

  /** Every row of `X` has exactly `width` columns (a two-dimensional array). */
  predicate Rectangular(X: seq<Row>, width: nat)
  {
    forall i :: 0 <= i < |X| ==> |X[i]| == width
  }

  /** Column `f` of `X`, `X[:, f]`. */
  function Column(X: seq<Row>, width: nat, f: nat): (col: seq<real>)
    requires Rectangular(X, width) && f < width
    ensures |col| == |X|
  {
    seq(|X|, i requires 0 <= i < |X| => X[i][f])
  }

  // ---------------------------------------------------------------------
  // Boolean masks

  function CountTrue(mask: seq<bool>): nat
  {
    if |mask| == 0 then 0 else (if mask[0] then 1 else 0) + CountTrue(mask[1..])
  }

  /** `~mask`. */
  function Negate(mask: seq<bool>): (r: seq<bool>)
    ensures |r| == |mask|
  {
    if |mask| == 0 then [] else [!mask[0]] + Negate(mask[1..])
  }

  /** `xs[mask]`: the elements of `xs` whose mask entry is true, in order. */
  function Filter<T>(xs: seq<T>, mask: seq<bool>): (r: seq<T>)
    requires |xs| == |mask|
    ensures |r| == CountTrue(mask)
  {
    if |xs| == 0 then []
    else (if mask[0] then [xs[0]] else []) + Filter(xs[1..], mask[1..])
  }

  lemma FilterCons<T>(xs: seq<T>, mask: seq<bool>)
    requires |xs| == |mask| > 0
    ensures multiset(Filter(xs, mask))
            == (if mask[0] then multiset{xs[0]} else multiset{}) + multiset(Filter(xs[1..], mask[1..]))
  {
  }

  lemma FilterNegateCons<T>(xs: seq<T>, mask: seq<bool>)
    requires |xs| == |mask| > 0
    ensures multiset(Filter(xs, Negate(mask)))
            == (if mask[0] then multiset{} else multiset{xs[0]}) + multiset(Filter(xs[1..], Negate(mask[1..])))
  {
    var neg := Negate(mask);
    assert neg[0] == !mask[0];
    assert neg[1..] == Negate(mask[1..]);
  }

  lemma MultisetCons<T>(xs: seq<T>)
    requires |xs| > 0
    ensures multiset(xs) == multiset{xs[0]} + multiset(xs[1..])
  {
    assert xs == [xs[0]] + xs[1..];
  }

  /** A mask and its negation split `xs` into two parts that together hold
      exactly the elements of `xs`. */
  lemma {:induction false} FilterPartition<T>(xs: seq<T>, mask: seq<bool>)
    requires |xs| == |mask|
    ensures multiset(Filter(xs, mask)) + multiset(Filter(xs, Negate(mask))) == multiset(xs)
  {
    if |xs| > 0 {
      FilterCons(xs, mask);
      FilterNegateCons(xs, mask);
      FilterPartition(xs[1..], mask[1..]);
      MultisetCons(xs);
    }
  }

  /** Every element goes to exactly one side. */
  lemma {:induction false} CountTrueNegate(mask: seq<bool>)
    ensures CountTrue(mask) + CountTrue(Negate(mask)) == |mask|
  {
    if |mask| > 0 {
      var neg := Negate(mask);
      assert neg[0] == !mask[0];
      assert neg[1..] == Negate(mask[1..]);
      CountTrueNegate(mask[1..]);
    }
  }

  /** A mask with a true entry selects at least one element. */
  lemma {:induction false} CountTruePositive(mask: seq<bool>, i: nat)
    requires i < |mask| && mask[i]
    ensures CountTrue(mask) > 0
  {
    if i > 0 {
      CountTruePositive(mask[1..], i - 1);
    }
  }

  lemma {:induction false} NegateAt(mask: seq<bool>, i: nat)
    requires i < |mask|
    ensures Negate(mask)[i] == !mask[i]
  {
    if i > 0 {
      var neg := Negate(mask);
      assert neg[1..] == Negate(mask[1..]);
      NegateAt(mask[1..], i - 1);
    }
  }

  /** A mask with a true and a false entry splits into two non-empty sides. */
  lemma BothSides(mask: seq<bool>, i: nat, j: nat)
    requires i < |mask| && j < |mask| && mask[i] && !mask[j]
    ensures 0 < CountTrue(mask) < |mask|
    ensures CountTrue(Negate(mask)) == |mask| - CountTrue(mask)
  {
    CountTruePositive(mask, i);
    NegateAt(mask, j);
    CountTruePositive(Negate(mask), j);
    CountTrueNegate(mask);
  }

  // ---------------------------------------------------------------------
  // Sorted distinct values (`np.unique`)

  predicate StrictlyIncreasing(s: seq<real>)
  {
    forall i, j :: 0 <= i < j < |s| ==> s[i] < s[j]
  }

  function InsertSorted(s: seq<real>, x: real): seq<real>
  {
    if |s| == 0 then [x]
    else if x < s[0] then [x] + s
    else if x == s[0] then s
    else [s[0]] + InsertSorted(s[1..], x)
  }

  lemma {:induction false} InsertSortedSpec(s: seq<real>, x: real)
    requires StrictlyIncreasing(s)
    ensures StrictlyIncreasing(InsertSorted(s, x))
    ensures forall z :: z in InsertSorted(s, x) <==> z in s || z == x
  {
    if |s| > 0 && x > s[0] {
      InsertSortedSpec(s[1..], x);
      var rest := InsertSorted(s[1..], x);
      assert forall z :: z in s <==> z == s[0] || z in s[1..] by {
        assert s == [s[0]] + s[1..];
      }
      forall k | 0 <= k < |rest|
        ensures s[0] < rest[k]
      {
        assert rest[k] in rest;
      }
    }
  }

  /** The distinct values of `col` in ascending order. */
  function Unique(col: seq<real>): seq<real>
  {
    if |col| == 0 then [] else InsertSorted(Unique(col[..|col| - 1]), col[|col| - 1])
  }

  /** `Unique(col)` is strictly increasing and holds exactly the values of `col`. */
  lemma {:induction false} UniqueSpec(col: seq<real>)
    ensures StrictlyIncreasing(Unique(col))
    ensures forall z :: z in Unique(col) <==> z in col
  {
    if |col| > 0 {
      var prefix := col[..|col| - 1];
      assert col == prefix + [col[|col| - 1]];
      UniqueSpec(prefix);
      InsertSortedSpec(Unique(prefix), col[|col| - 1]);
    }
  }

  // ---------------------------------------------------------------------
  // Candidate splits

  /** The two split types: `x[f] <= threshold`, or `lower <= x[f] <= upper`.
      Samples for which the condition holds go to the left child. */
  datatype Split = Standard(threshold: real) | Range(lower: real, upper: real)

  predicate GoesLeft(s: Split, v: real)
  {
    match s
    case Standard(t) => v <= t
    case Range(lo, hi) => lo <= v && v <= hi
  }

  /** The left-branch mask of split `s` on column `col`. */
  function Mask(col: seq<real>, s: Split): (mask: seq<bool>)
    ensures |mask| == |col|
  {
    seq(|col|, i requires 0 <= i < |col| => GoesLeft(s, col[i]))
  }

  /** The information the evaluators return for a split. */
  datatype SplitInfo = SplitInfo(gain: real, feature: nat, split: Split, leftMask: seq<bool>)

  /** One candidate: rejected (`None`) when either side has fewer than
      `minLeaf` samples, otherwise scored by its information gain. */
  function Evaluate<L(==)>(col: seq<real>, y: seq<L>, f: nat, s: Split, minLeaf: int): (r: Option<SplitInfo>)
    requires |col| == |y|
    ensures r.Some? <==> CountTrue(Mask(col, s)) >= minLeaf && |y| - CountTrue(Mask(col, s)) >= minLeaf
    ensures r.Some? ==> r.value.feature == f && r.value.split == s && r.value.leftMask == Mask(col, s)
  {
    var mask := Mask(col, s);
    var outside := Negate(mask);
    CountTrueNegate(mask);
    if CountTrue(mask) < minLeaf || CountTrue(outside) < minLeaf then None
    else Some(SplitInfo(InformationGain(y, Filter(y, mask), Filter(y, outside)), f, s, mask))
  }

  // ---------------------------------------------------------------------
  // First strictly better candidate

  /** The evaluators' update rule: a candidate replaces the incumbent only
      when there is none yet (`best_gain` starts at minus infinity) or its
      gain is strictly greater. */
  function Better(incumbent: Option<SplitInfo>, candidate: Option<SplitInfo>): Option<SplitInfo>
  {
    if candidate.Some? && (incumbent.None? || candidate.value.gain > incumbent.value.gain)
    then candidate else incumbent
  }

  /** The result of scanning `cs` in order with `Better`. */
  function BestOf(cs: seq<Option<SplitInfo>>): Option<SplitInfo>
  {
    if |cs| == 0 then None else Better(BestOf(cs[..|cs| - 1]), cs[|cs| - 1])
  }

  /** The scan finds nothing exactly when every candidate was rejected;
      otherwise it returns the FIRST candidate of maximal gain. */
  lemma {:induction false} BestOfIsFirstMaximum(cs: seq<Option<SplitInfo>>)
    returns (k: nat)
    ensures BestOf(cs).None? <==> forall i :: 0 <= i < |cs| ==> cs[i].None?
    ensures BestOf(cs).Some? ==>
              k < |cs| && cs[k] == BestOf(cs)
              && (forall i :: 0 <= i < |cs| && cs[i].Some? ==> cs[i].value.gain <= cs[k].value.gain)
              && (forall i :: 0 <= i < k && cs[i].Some? ==> cs[i].value.gain < cs[k].value.gain)
  {
    if |cs| == 0 {
      k := 0;
    } else {
      var p := cs[..|cs| - 1];
      var k0 := BestOfIsFirstMaximum(p);
      var last := cs[|cs| - 1];
      assert forall i :: 0 <= i < |p| ==> p[i] == cs[i];
      if last.Some? && (BestOf(p).None? || last.value.gain > BestOf(p).value.gain) {
        k := |cs| - 1;
      } else {
        k := k0;
      }
    }
  }

  /** The scan returns one of the candidates. */
  lemma BestOfIsCandidate(cs: seq<Option<SplitInfo>>) returns (k: nat)
    ensures BestOf(cs).Some? ==> k < |cs| && cs[k] == BestOf(cs)
  {
    k := BestOfIsFirstMaximum(cs);
  }

  /** Scanning two runs one after the other is the same as keeping the
      better of the two runs' results: an outer loop over per-feature
      winners picks the same split as a single scan over all candidates. */
  lemma {:induction false} BestOfConcat(a: seq<Option<SplitInfo>>, b: seq<Option<SplitInfo>>)
    ensures BestOf(a + b) == Better(BestOf(a), BestOf(b))
  {
    if |b| == 0 {
      assert a + b == a;
      if BestOf(a).Some? {
        assert Better(BestOf(a), None) == BestOf(a);
      }
    } else {
      var b' := b[..|b| - 1];
      assert (a + b)[..|a + b| - 1] == a + b';
      assert (a + b)[|a + b| - 1] == b[|b| - 1];
      BestOfConcat(a, b');
    }
  }

  lemma BestOfSnoc(cs: seq<Option<SplitInfo>>, c: Option<SplitInfo>)
    ensures BestOf(cs + [c]) == Better(BestOf(cs), c)
  {
    assert (cs + [c])[..|cs|] == cs;
  }

  // ---------------------------------------------------------------------
  // Standard splits

  /** Midpoints of consecutive values, `(u[:-1] + u[1:]) / 2`. */
  function Midpoints(u: seq<real>): (ts: seq<real>)
    requires |u| >= 1
    ensures |ts| == |u| - 1
  {
    seq(|u| - 1, k requires 0 <= k < |u| - 1 => (u[k] + u[k + 1]) / 2.0)
  }

  function StandardCandidates<L(==)>(col: seq<real>, y: seq<L>, f: nat, minLeaf: int): (cs: seq<Option<SplitInfo>>)
    requires |col| == |y| && |Unique(col)| >= 1
    ensures |cs| == |Unique(col)| - 1
  {
    var ts := Midpoints(Unique(col));
    seq(|ts|, k requires 0 <= k < |ts| => Evaluate(col, y, f, Standard(ts[k]), minLeaf))
  }

  /** `_evaluate_standard_splits`: none with fewer than two distinct values,
      otherwise the first best threshold among the midpoints. */
  function StandardSplit<L(==)>(col: seq<real>, y: seq<L>, f: nat, minLeaf: int): Option<SplitInfo>
    requires |col| == |y|
  {
    if |Unique(col)| <= 1 then None else BestOf(StandardCandidates(col, y, f, minLeaf))
  }

  method EvaluateStandardSplits<L(==)>(X: seq<Row>, width: nat, y: seq<L>, f: nat, minLeaf: int)
    returns (r: Option<SplitInfo>)
    requires Rectangular(X, width) && f < width && |X| == |y|
    ensures r == StandardSplit(Column(X, width, f), y, f, minLeaf)
  {
    var col := Column(X, width, f);
    var u := Unique(col);
    if |u| <= 1 {
      return None;
    }
    var ts := Midpoints(u);
    ghost var cs := StandardCandidates(col, y, f, minLeaf);
    var best: Option<SplitInfo> := None;
    var k := 0;
    while k < |ts|
      invariant 0 <= k <= |ts|
      invariant best == BestOf(cs[..k])
    {
      ghost var previous := best;
      var mask := Mask(col, Standard(ts[k]));
      var outside := Negate(mask);
      CountTrueNegate(mask);
      if CountTrue(mask) >= minLeaf && CountTrue(outside) >= minLeaf {
        var gain := InformationGain(y, Filter(y, mask), Filter(y, outside));
        if best.None? || gain > best.value.gain {
          best := Some(SplitInfo(gain, f, Standard(ts[k]), mask));
        }
      }
      BestOfTakeStep(cs, k, previous, best);
      k := k + 1;
    }
    assert cs[..k] == cs;
    r := best;
  }

  // ---------------------------------------------------------------------
  // Range splits

  function Min(a: int, b: int): int { if a <= b then a else b }

  /** Exclusive end of the upper indices paired with lower index `i`:
      `min(i + n // 2, n)`. */
  function RangeEnd(i: nat, n: nat): nat
  {
    Min(i + n / 2, n)
  }

  /** The sampler `rng.choice(m, size=k, replace=False)` abstracted: for
      k <= m it yields k distinct indices below m. */
  ghost predicate DrawsWithoutReplacement(draw: (nat, nat) -> seq<nat>)
  {
    forall m: nat, k: nat :: k <= m ==> ValidDraw(draw(m, k), m, k)
  }

  predicate ValidDraw(s: seq<nat>, m: nat, k: nat)
  {
    |s| == k && NoDups(s) && forall i :: 0 <= i < |s| ==> s[i] < m
  }

  /** The lower indices tried: a random sample of `maxRangeSplits` of the
      `n - 1` possible ones when there are more than `maxRangeSplits`
      values, otherwise all of them in ascending order. */
  function LowerIndices(n: nat, maxRangeSplits: nat, draw: (nat, nat) -> seq<nat>): (lows: seq<nat>)
    requires n >= 1 && DrawsWithoutReplacement(draw)
    ensures forall k :: 0 <= k < |lows| ==> lows[k] < n - 1
    ensures n > maxRangeSplits ==> |lows| == maxRangeSplits
    ensures n <= maxRangeSplits ==> |lows| == n - 1 && forall k :: 0 <= k < |lows| ==> lows[k] == k
  {
    if n > maxRangeSplits then
      assert ValidDraw(draw(n - 1, maxRangeSplits), n - 1, maxRangeSplits);
      draw(n - 1, maxRangeSplits)
    else seq(n - 1, i requires 0 <= i < n - 1 => i)
  }

  /** The ranges `[u[i], u[j]]` for `i < j < RangeEnd(i, |u|)`, in order of j. */
  function RangeGroup<L(==)>(col: seq<real>, y: seq<L>, f: nat, u: seq<real>, i: nat, minLeaf: int)
    : (g: seq<Option<SplitInfo>>)
    requires |col| == |y| && i < |u|
    ensures |g| == if RangeEnd(i, |u|) > i + 1 then RangeEnd(i, |u|) - (i + 1) else 0
  {
    var len := if RangeEnd(i, |u|) > i + 1 then RangeEnd(i, |u|) - (i + 1) else 0;
    seq(len, d requires 0 <= d < len => Evaluate(col, y, f, Range(u[i], u[i + 1 + d]), minLeaf))
  }

  function RangeCandidates<L(==)>(col: seq<real>, y: seq<L>, f: nat, u: seq<real>, lows: seq<nat>, minLeaf: int)
    : seq<Option<SplitInfo>>
    requires |col| == |y| && forall k :: 0 <= k < |lows| ==> lows[k] < |u|
  {
    if |lows| == 0 then []
    else RangeCandidates(col, y, f, u, lows[..|lows| - 1], minLeaf)
         + RangeGroup(col, y, f, u, lows[|lows| - 1], minLeaf)
  }

  /** `_evaluate_range_splits`: none with fewer than three distinct values,
      otherwise the first best range over the tried lower indices. */
  function RangeSplit<L(==)>(col: seq<real>, y: seq<L>, f: nat, minLeaf: int, maxRangeSplits: nat,
                             draw: (nat, nat) -> seq<nat>): Option<SplitInfo>
    requires |col| == |y| && DrawsWithoutReplacement(draw)
  {
    var u := Unique(col);
    if |u| <= 2 then None
    else BestOf(RangeCandidates(col, y, f, u, LowerIndices(|u|, maxRangeSplits, draw), minLeaf))
  }

  /** Extending a scanned prefix of `cs` by its next element. */
  lemma BestOfTakeStep(cs: seq<Option<SplitInfo>>, k: nat, best: Option<SplitInfo>, next: Option<SplitInfo>)
    requires k < |cs| && best == BestOf(cs[..k]) && next == Better(best, cs[k])
    ensures next == BestOf(cs[..k + 1])
  {
    assert cs[..k + 1][..k] == cs[..k];
  }

  /** Extending a scanned prefix of `rest` by its next element. */
  lemma BestOfPrefixStep(before: seq<Option<SplitInfo>>, rest: seq<Option<SplitInfo>>, d: nat,
                         best: Option<SplitInfo>, next: Option<SplitInfo>)
    requires d < |rest| && best == BestOf(before + rest[..d])
    requires next == Better(best, rest[d])
    ensures next == BestOf(before + rest[..d + 1])
  {
    assert before + rest[..d + 1] == (before + rest[..d]) + [rest[d]];
    BestOfSnoc(before + rest[..d], rest[d]);
  }

  /** Entry d of a range group pairs lower index i with upper index i + 1 + d. */
  lemma RangeGroupAt<L>(col: seq<real>, y: seq<L>, f: nat, u: seq<real>, i: nat, j: nat, minLeaf: int)
    requires |col| == |y| && i < j < RangeEnd(i, |u|)
    ensures j - (i + 1) < |RangeGroup(col, y, f, u, i, minLeaf)|
    ensures RangeGroup(col, y, f, u, i, minLeaf)[j - (i + 1)] == Evaluate(col, y, f, Range(u[i], u[j]), minLeaf)
  {
  }

  /** One step of the inner loop over upper indices: scanning candidate
      `[u[i], u[j]]` extends the scanned prefix of the group by one. */
  lemma RangeInnerStep<L>(col: seq<real>, y: seq<L>, f: nat, u: seq<real>, i: nat, j: nat, minLeaf: int,
                          before: seq<Option<SplitInfo>>, previous: Option<SplitInfo>, next: Option<SplitInfo>)
    requires |col| == |y| && i < j < RangeEnd(i, |u|)
    requires previous == BestOf(before + RangeGroup(col, y, f, u, i, minLeaf)[..j - (i + 1)])
    requires next == Better(previous, Evaluate(col, y, f, Range(u[i], u[j]), minLeaf))
    ensures next == BestOf(before + RangeGroup(col, y, f, u, i, minLeaf)[..j + 1 - (i + 1)])
  {
    RangeGroupAt(col, y, f, u, i, j, minLeaf);
    BestOfPrefixStep(before, RangeGroup(col, y, f, u, i, minLeaf), j - (i + 1), previous, next);
  }

  /** The candidates of the first k + 1 lower indices. */
  lemma RangeCandidatesStep<L>(col: seq<real>, y: seq<L>, f: nat, u: seq<real>, lows: seq<nat>, k: nat,
                               minLeaf: int)
    requires |col| == |y| && k < |lows| && forall t :: 0 <= t < |lows| ==> lows[t] < |u|
    ensures RangeCandidates(col, y, f, u, lows[..k + 1], minLeaf)
            == RangeCandidates(col, y, f, u, lows[..k], minLeaf) + RangeGroup(col, y, f, u, lows[k], minLeaf)
  {
    assert lows[..k + 1][..k] == lows[..k];
  }

  /** The inner loop of `_evaluate_range_splits` for lower index `i`:
      scanning the ranges `[u[i], u[j]]` in order of j continues the scan
      of the candidates `before`. */
  method ScanRangeGroup<L(==)>(col: seq<real>, y: seq<L>, f: nat, u: seq<real>, i: nat, minLeaf: int,
                               ghost before: seq<Option<SplitInfo>>, incumbent: Option<SplitInfo>)
    returns (best: Option<SplitInfo>)
    requires |col| == |y| && i < |u| && incumbent == BestOf(before)
    ensures best == BestOf(before + RangeGroup(col, y, f, u, i, minLeaf))
  {
    ghost var group := RangeGroup(col, y, f, u, i, minLeaf);
    var n := |u|;
    best := incumbent;
    var j := i + 1;
    assert before + group[..0] == before;
    while j < RangeEnd(i, n)
      invariant i + 1 <= j && (j <= RangeEnd(i, n) || j == i + 1)
      invariant best == BestOf(before + group[..j - (i + 1)])
    {
      ghost var previous := best;
      var mask := Mask(col, Range(u[i], u[j]));
      var outside := Negate(mask);
      CountTrueNegate(mask);
      if CountTrue(mask) >= minLeaf && CountTrue(outside) >= minLeaf {
        var gain := InformationGain(y, Filter(y, mask), Filter(y, outside));
        if best.None? || gain > best.value.gain {
          best := Some(SplitInfo(gain, f, Range(u[i], u[j]), mask));
        }
      }
      RangeInnerStep(col, y, f, u, i, j, minLeaf, before, previous, best);
      j := j + 1;
    }
    assert group[..j - (i + 1)] == group;
  }

  method EvaluateRangeSplits<L(==)>(X: seq<Row>, width: nat, y: seq<L>, f: nat, minLeaf: int,
                                    maxRangeSplits: nat, draw: (nat, nat) -> seq<nat>)
    returns (r: Option<SplitInfo>)
    requires Rectangular(X, width) && f < width && |X| == |y| && DrawsWithoutReplacement(draw)
    ensures r == RangeSplit(Column(X, width, f), y, f, minLeaf, maxRangeSplits, draw)
  {
    var col := Column(X, width, f);
    var u := Unique(col);
    if |u| <= 2 {
      return None;
    }
    var lows := LowerIndices(|u|, maxRangeSplits, draw);
    var best: Option<SplitInfo> := None;
    var k := 0;
    while k < |lows|
      invariant 0 <= k <= |lows|
      invariant best == BestOf(RangeCandidates(col, y, f, u, lows[..k], minLeaf))
    {
      best := ScanRangeGroup(col, y, f, u, lows[k], minLeaf, RangeCandidates(col, y, f, u, lows[..k], minLeaf), best);
      RangeCandidatesStep(col, y, f, u, lows, k, minLeaf);
      k := k + 1;
    }
    assert lows[..k] == lows;
    r := best;
  }

  // ---------------------------------------------------------------------
  // Best split over all features

  /** Hyper-parameters of the classifier that split evaluation uses. */
  datatype TreeParams = TreeParams(
    maxDepth: Option<int>,
    minSamplesSplit: int,
    minSamplesLeaf: int,
    splitStrategy: string,
    maxRangeSplits: nat)

  predicate UsesStandard(strategy: string) { strategy == "standard" || strategy == "both" }

  predicate UsesRange(strategy: string) { strategy == "range" || strategy == "both" }

  /** The per-feature results `_find_best_split` compares, feature by
      feature, standard before range. */
  function StandardResult<L(==)>(X: seq<Row>, width: nat, y: seq<L>, f: nat, p: TreeParams)
    : seq<Option<SplitInfo>>
    requires Rectangular(X, width) && f < width && |X| == |y|
  {
    if UsesStandard(p.splitStrategy) then [StandardSplit(Column(X, width, f), y, f, p.minSamplesLeaf)] else []
  }

  function RangeResult<L(==)>(X: seq<Row>, width: nat, y: seq<L>, f: nat, p: TreeParams,
                              draw: (nat, nat) -> seq<nat>): seq<Option<SplitInfo>>
    requires Rectangular(X, width) && f < width && |X| == |y| && DrawsWithoutReplacement(draw)
  {
    if UsesRange(p.splitStrategy)
    then [RangeSplit(Column(X, width, f), y, f, p.minSamplesLeaf, p.maxRangeSplits, draw)] else []
  }

  function AllResults<L(==)>(X: seq<Row>, width: nat, y: seq<L>, m: nat, p: TreeParams,
                             draw: (nat, nat) -> seq<nat>): seq<Option<SplitInfo>>
    requires Rectangular(X, width) && m <= width && |X| == |y| && DrawsWithoutReplacement(draw)
  {
    if m == 0 then []
    else AllResults(X, width, y, m - 1, p, draw) + StandardResult(X, width, y, m - 1, p)
         + RangeResult(X, width, y, m - 1, p, draw)
  }

  /** `_find_best_split`: none below `min_samples_split` samples, otherwise
      the first best of the per-feature results. */
  function BestSplit<L(==)>(X: seq<Row>, width: nat, y: seq<L>, p: TreeParams,
                            draw: (nat, nat) -> seq<nat>): Option<SplitInfo>
    requires Rectangular(X, width) && |X| == |y| && DrawsWithoutReplacement(draw)
  {
    if |y| < p.minSamplesSplit then None else BestOf(AllResults(X, width, y, width, p, draw))
  }

  /** One optional result appended to a scan: the incumbent is updated by `Better`. */
  lemma BestOfStep(seen: seq<Option<SplitInfo>>, step: seq<Option<SplitInfo>>, before: Option<SplitInfo>,
                   after: Option<SplitInfo>)
    requires before == BestOf(seen) && |step| <= 1
    requires |step| == 0 ==> after == before
    requires |step| == 1 ==> after == Better(before, step[0])
    ensures after == BestOf(seen + step)
  {
    if |step| == 0 {
      assert seen + step == seen;
    } else {
      assert step == [step[0]];
      BestOfSnoc(seen, step[0]);
    }
  }

  /** The standard result of feature `f` appended to the scan. */
  lemma StandardStep<L>(X: seq<Row>, width: nat, y: seq<L>, f: nat, p: TreeParams,
                        seen: seq<Option<SplitInfo>>, before: Option<SplitInfo>, info: Option<SplitInfo>,
                        after: Option<SplitInfo>)
    requires Rectangular(X, width) && f < width && |X| == |y| && before == BestOf(seen)
    requires UsesStandard(p.splitStrategy) ==>
               info == StandardSplit(Column(X, width, f), y, f, p.minSamplesLeaf) && after == Better(before, info)
    requires !UsesStandard(p.splitStrategy) ==> after == before
    ensures after == BestOf(seen + StandardResult(X, width, y, f, p))
  {
    BestOfStep(seen, StandardResult(X, width, y, f, p), before, after);
  }

  /** The range result of feature `f` appended to the scan completes the
      results of the first f + 1 features. */
  lemma RangeStep<L>(X: seq<Row>, width: nat, y: seq<L>, f: nat, p: TreeParams, draw: (nat, nat) -> seq<nat>,
                     seen: seq<Option<SplitInfo>>, before: Option<SplitInfo>, info: Option<SplitInfo>,
                     after: Option<SplitInfo>)
    requires Rectangular(X, width) && f < width && |X| == |y| && DrawsWithoutReplacement(draw)
    requires seen == AllResults(X, width, y, f, p, draw) + StandardResult(X, width, y, f, p)
    requires before == BestOf(seen)
    requires UsesRange(p.splitStrategy) ==>
               info == RangeSplit(Column(X, width, f), y, f, p.minSamplesLeaf, p.maxRangeSplits, draw)
               && after == Better(before, info)
    requires !UsesRange(p.splitStrategy) ==> after == before
    ensures after == BestOf(AllResults(X, width, y, f + 1, p, draw))
  {
    BestOfStep(seen, RangeResult(X, width, y, f, p, draw), before, after);
  }

  method FindBestSplit<L(==)>(X: seq<Row>, width: nat, y: seq<L>, p: TreeParams,
                              draw: (nat, nat) -> seq<nat>)
    returns (r: Option<SplitInfo>)
    requires Rectangular(X, width) && |X| == |y| && DrawsWithoutReplacement(draw)
    ensures r == BestSplit(X, width, y, p, draw)
  {
    if |y| < p.minSamplesSplit {
      return None;
    }
    var best: Option<SplitInfo> := None;
    var f := 0;
    while f < width
      invariant 0 <= f <= width
      invariant best == BestOf(AllResults(X, width, y, f, p, draw))
    {
      ghost var seen := AllResults(X, width, y, f, p, draw);
      ghost var before := best;
      ghost var info: Option<SplitInfo> := None;
      if UsesStandard(p.splitStrategy) {
        var splitInfo := EvaluateStandardSplits(X, width, y, f, p.minSamplesLeaf);
        if splitInfo.Some? && (best.None? || splitInfo.value.gain > best.value.gain) {
          best := splitInfo;
        }
        info := splitInfo;
      }
      StandardStep(X, width, y, f, p, seen, before, info, best);
      seen := seen + StandardResult(X, width, y, f, p);
      before := best;
      if UsesRange(p.splitStrategy) {
        var splitInfo := EvaluateRangeSplits(X, width, y, f, p.minSamplesLeaf, p.maxRangeSplits, draw);
        if splitInfo.Some? && (best.None? || splitInfo.value.gain > best.value.gain) {
          best := splitInfo;
        }
        info := splitInfo;
      }
      RangeStep(X, width, y, f, p, draw, seen, before, info, best);
      f := f + 1;
    }
    r := best;
  }
}
