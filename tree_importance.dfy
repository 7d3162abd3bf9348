/** Impurity-based feature importances of the range decision tree
    (`_compute_feature_importances`): every internal node adds its weighted
    impurity decrease to the importance of its feature, and the totals are
    normalised to sum to one. */
module TreeImportance {
  import opened TreeSplit
  import opened TreeBuild
  import opened TreePredict
  import Arith

  /** The impurity decrease of an internal node, its children weighted by
      their sample counts over `n`: the traversal passes the number of
      training samples of the root, unchanged, to every node. */
  function Decrease<L>(node: Node<L>, n: nat): real
    requires node.Internal? && n > 0
  {
    node.impurity - ((node.left.samples as real / n as real) * node.left.impurity
                     + (node.right.samples as real / n as real) * node.right.impurity)
  }

  /** The importances after the traversal of `node`, preorder. */
  function Accumulate<L>(importances: seq<real>, node: Node<L>, n: nat): (r: seq<real>)
    requires FeaturesBelow(node, |importances|) && n > 0
    ensures |r| == |importances|
    decreases node
  {
    match node
    case Leaf(_, _, _) => importances
    case Internal(f, _, left, right, _, _) =>
      var added := importances[f := importances[f] + Decrease(node, n) * n as real];
      Accumulate(Accumulate(added, left, n), right, n)
  }

  /** The inner `traverse`: adds the contributions of `node` and its
      descendants in place. */
  method Traverse<L>(node: Node<L>, n: nat, importances: array<real>)
    requires FeaturesBelow(node, importances.Length) && n > 0
    modifies importances
    ensures importances[..] == Accumulate(old(importances[..]), node, n)
    decreases node
  {
    match node
    case Leaf(_, _, _) =>
    case Internal(f, _, left, right, _, impurity) =>
      var decrease := impurity - ((left.samples as real / n as real) * left.impurity
                                  + (right.samples as real / n as real) * right.impurity);
      importances[f] := importances[f] + decrease * n as real;
      Traverse(left, n, importances);
      Traverse(right, n, importances);
  }

  /** The features some internal node splits on. */
  function SplitFeatures<L>(node: Node<L>): set<nat>
  {
    match node
    case Leaf(_, _, _) => {}
    case Internal(f, _, left, right, _, _) => {f} + SplitFeatures(left) + SplitFeatures(right)
  }

  /** A feature no node splits on keeps its importance. */
  lemma {:induction false} AccumulateUnsplit<L>(importances: seq<real>, node: Node<L>, n: nat, i: nat)
    requires FeaturesBelow(node, |importances|) && n > 0
    requires i < |importances| && i !in SplitFeatures(node)
    ensures Accumulate(importances, node, n)[i] == importances[i]
    decreases node
  {
    if node.Internal? {
      var f, left, right := node.feature, node.left, node.right;
      var added := importances[f := importances[f] + Decrease(node, n) * n as real];
      assert i != f && i !in SplitFeatures(left) && i !in SplitFeatures(right);
      AccumulateUnsplit(added, left, n, i);
      AccumulateUnsplit(Accumulate(added, left, n), right, n, i);
      AccumulateInternal(importances, node, n);
    }
  }

  /** `a` is `b` with no entry decreased. */
  predicate AtLeast(a: seq<real>, b: seq<real>)
  {
    |a| == |b| && forall i :: 0 <= i < |a| ==> a[i] >= b[i]
  }

  lemma AtLeastTrans(a: seq<real>, b: seq<real>, c: seq<real>)
    requires AtLeast(a, b) && AtLeast(b, c)
    ensures AtLeast(a, c)
  {
  }

  lemma AddNonNegative(v: seq<real>, f: nat, d: real)
    requires f < |v| && d >= 0.0
    ensures AtLeast(v[f := v[f] + d], v)
  {
  }

  /** In a well-formed tree with at most `n` samples at the root, every
      node's decrease is non-negative, so no importance goes down. */
  lemma {:induction false} AccumulateGrows<L>(importances: seq<real>, node: Node<L>, n: nat, width: nat, minLeaf: int)
    requires WellFormed(node, width, minLeaf) && |importances| == width && 0 < node.samples <= n
    ensures FeaturesBelow(node, |importances|)
    ensures AtLeast(Accumulate(importances, node, n), importances)
    decreases node
  {
    WellFormedFeatures(node, width, minLeaf);
    if node.Internal? {
      var f, left, right := node.feature, node.left, node.right;
      DecreaseNonNegative(node, n, width, minLeaf);
      Arith.ScaleNonNeg(Decrease(node, n), n as real);
      var added := importances[f := importances[f] + Decrease(node, n) * n as real];
      AddNonNegative(importances, f, Decrease(node, n) * n as real);
      ChildrenWellFormed(node, width, minLeaf);
      AccumulateGrows(added, left, n, width, minLeaf);
      var mid := Accumulate(added, left, n);
      AccumulateGrows(mid, right, n, width, minLeaf);
      AtLeastTrans(mid, added, importances);
      AtLeastTrans(Accumulate(mid, right, n), mid, importances);
      AccumulateInternal(importances, node, n);
    }
  }

  lemma AccumulateInternal<L>(importances: seq<real>, node: Node<L>, n: nat)
    requires FeaturesBelow(node, |importances|) && n > 0 && node.Internal?
    ensures Accumulate(importances, node, n)
            == Accumulate(Accumulate(importances[node.feature := importances[node.feature]
                                                 + Decrease(node, n) * n as real], node.left, n), node.right, n)
  {
  }

  lemma ChildrenWellFormed<L>(node: Node<L>, width: nat, minLeaf: int)
    requires WellFormed(node, width, minLeaf) && node.Internal?
    ensures WellFormed(node.left, width, minLeaf) && WellFormed(node.right, width, minLeaf)
    ensures 0 < node.left.samples <= node.samples && 0 < node.right.samples <= node.samples
  {
  }

  lemma DecreaseNonNegative<L>(node: Node<L>, n: nat, width: nat, minLeaf: int)
    requires WellFormed(node, width, minLeaf) && node.Internal? && 0 < node.samples <= n
    ensures Decrease(node, n) >= 0.0
  {
    var l, r := node.left, node.right;
    ImpurityNonNegative(l, width, minLeaf);
    ImpurityNonNegative(r, width, minLeaf);
    Arith.DecreaseOverLargerTotal(node.impurity, l.samples as real, l.impurity, r.samples as real, r.impurity,
                                  node.samples as real, n as real);
  }

  lemma ImpurityNonNegative<L>(node: Node<L>, width: nat, minLeaf: int)
    requires WellFormed(node, width, minLeaf)
    ensures 0.0 <= node.impurity
  {
  }

  // ---------------------------------------------------------------------
  // Normalisation

  function Sum(v: seq<real>): real
  {
    if |v| == 0 then 0.0 else Sum(v[..|v| - 1]) + v[|v| - 1]
  }

  /** `importances / np.sum(importances)` when the sum is positive, the
      importances unchanged otherwise. */
  function Normalize(v: seq<real>): (r: seq<real>)
    ensures |r| == |v|
  {
    if Sum(v) > 0.0 then seq(|v|, i requires 0 <= i < |v| => v[i] / Sum(v)) else v
  }

  function Scaled(v: seq<real>, s: real): (r: seq<real>)
    requires s != 0.0
    ensures |r| == |v|
  {
    seq(|v|, i requires 0 <= i < |v| => v[i] / s)
  }

  lemma {:induction false} SumScaled(v: seq<real>, s: real)
    requires s != 0.0
    ensures Sum(Scaled(v, s)) == Sum(v) / s
  {
    if |v| > 0 {
      var front := v[..|v| - 1];
      SumScaled(front, s);
      assert Scaled(v, s)[..|v| - 1] == Scaled(front, s);
      Arith.AddSameDenominator(Sum(front), v[|v| - 1], s);
    }
  }

  lemma {:induction false} SumNonNegative(v: seq<real>)
    requires forall i :: 0 <= i < |v| ==> v[i] >= 0.0
    ensures Sum(v) >= 0.0
    ensures forall i :: 0 <= i < |v| ==> v[i] <= Sum(v)
  {
    if |v| > 0 {
      SumNonNegative(v[..|v| - 1]);
      assert forall i :: 0 <= i < |v| - 1 ==> v[..|v| - 1][i] == v[i];
    }
  }

  lemma NormalizedIsScaled(v: seq<real>)
    requires Sum(v) > 0.0
    ensures Normalize(v) == Scaled(v, Sum(v))
  {
  }

  /** Normalised importances of non-negative totals with a positive sum are
      shares in [0, 1] summing to one; totals summing to zero are all zero
      and kept. */
  lemma NormalizeSpec(v: seq<real>)
    requires forall i :: 0 <= i < |v| ==> v[i] >= 0.0
    ensures Sum(v) > 0.0 ==> Sum(Normalize(v)) == 1.0
    ensures forall i :: 0 <= i < |v| ==> 0.0 <= Normalize(v)[i] <= 1.0
    ensures Sum(v) <= 0.0 ==> forall i :: 0 <= i < |v| ==> Normalize(v)[i] == 0.0
  {
    SumNonNegative(v);
    var s := Sum(v);
    if s > 0.0 {
      NormalizedIsScaled(v);
      SumScaled(v, s);
      Arith.RatioIsOne(s, s);
      ScaledShares(v, s);
    } else {
      forall i | 0 <= i < |v| ensures Normalize(v)[i] == 0.0 {
        assert v[i] <= s;
      }
    }
  }

  lemma ScaledShares(v: seq<real>, s: real)
    requires s > 0.0 && forall i :: 0 <= i < |v| ==> 0.0 <= v[i] <= s
    ensures forall i :: 0 <= i < |v| ==> 0.0 <= Scaled(v, s)[i] <= 1.0
  {
    forall i | 0 <= i < |v| ensures 0.0 <= Scaled(v, s)[i] <= 1.0 {
      Arith.NonNegRatio(v[i], s);
      Arith.RatioAtMostOne(v[i], s);
    }
  }

  /** `_compute_feature_importances`. */
  method ComputeFeatureImportances<L>(node: Node<L>, nFeatures: nat, n: nat) returns (importances: seq<real>)
    requires FeaturesBelow(node, nFeatures) && n > 0
    ensures importances == FeatureImportances(node, nFeatures, n)
  {
    var totals := new real[nFeatures](_ => 0.0);
    assert totals[..] == Zeros(nFeatures);
    Traverse(node, n, totals);
    importances := Normalize(totals[..]);
  }

  function Zeros(k: nat): (z: seq<real>)
    ensures |z| == k && forall i :: 0 <= i < k ==> z[i] == 0.0
  {
    seq(k, _ => 0.0)
  }

  function FeatureImportances<L>(node: Node<L>, nFeatures: nat, n: nat): (r: seq<real>)
    requires FeaturesBelow(node, nFeatures) && n > 0
    ensures |r| == nFeatures
  {
    Normalize(Accumulate(Zeros(nFeatures), node, n))
  }

  /** The importances of a tree built on `n` samples are shares in [0, 1]
      summing to one unless no split decreased the impurity at all, in which
      case all are zero; a feature no node splits on has importance zero. */
  lemma FeatureImportancesSpec<L>(node: Node<L>, nFeatures: nat, n: nat, minLeaf: int)
    requires WellFormed(node, nFeatures, minLeaf) && 0 < node.samples <= n
    ensures FeaturesBelow(node, nFeatures)
    ensures var r := FeatureImportances(node, nFeatures, n);
            (forall i :: 0 <= i < nFeatures ==> 0.0 <= r[i] <= 1.0)
            && (Sum(r) == 1.0 || forall i :: 0 <= i < nFeatures ==> r[i] == 0.0)
    ensures forall i :: 0 <= i < nFeatures && i !in SplitFeatures(node) ==> FeatureImportances(node, nFeatures, n)[i] == 0.0
  {
    var totals := Accumulate(Zeros(nFeatures), node, n);
    AccumulateGrows(Zeros(nFeatures), node, n, nFeatures, minLeaf);
    NormalizeSpec(totals);
    forall i | 0 <= i < nFeatures && i !in SplitFeatures(node)
      ensures FeatureImportances(node, nFeatures, n)[i] == 0.0
    {
      AccumulateUnsplit(Zeros(nFeatures), node, n, i);
    }
  }
}
