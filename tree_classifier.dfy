/** The estimator object `RangeDecisionTreeClassifier`: hyper-parameters
    fixed at construction, fitted attributes set by `fit`, and the queries
    `predict`, `score` and `extract_rules` over the fitted tree. */
module TreeClassifier {
  import opened Wrappers
  import opened Impurity
  import opened TreeSplit
  import opened TreeBuild
  import opened TreePredict
  import opened TreeImportance
  import Arith

  /** What `fit` relies on of a tree built on `X` and `y`: it is well formed,
      splits on features below `width`, predicts labels of `y`, and has one
      importance in [0, 1] per feature. */
  lemma FittedTree<L>(X: seq<Row>, width: nat, y: seq<L>, p: TreeParams, draw: (nat, nat) -> seq<nat>,
                      node: Node<L>)
    requires Rectangular(X, width) && |X| == |y| && DrawsWithoutReplacement(draw)
    requires Build(X, width, y, 0, p, draw) == Ok(node)
    ensures |y| > 0 && WellFormed(node, width, p.minSamplesLeaf) && FeaturesBelow(node, width)
    ensures forall c :: c in Labels(node) ==> c in y
    ensures var imp := FeatureImportances(node, width, |y|);
            |imp| == width && forall i :: 0 <= i < width ==> 0.0 <= imp[i] <= 1.0
  {
    BuildWellFormed(X, width, y, 0, p, draw);
    BuildLabels(X, width, y, 0, p, draw);
    WellFormedFeatures(node, width, p.minSamplesLeaf);
    FeatureImportancesSpec(node, width, |y|, p.minSamplesLeaf);
  }

  class RangeDecisionTreeClassifier<L(==)> {
    /** `max_depth`, `min_samples_split`, `min_samples_leaf`,
        `split_strategy` and `max_range_splits`. */
    const params: TreeParams
    /** The subsample of lower range indices `RandomState(random_state)`
        draws for a given population and sample size. */
    const draw: (nat, nat) -> seq<nat>

    var tree: Option<Node<L>>
    var classes: Option<set<L>>
    var nClasses: Option<nat>
    var nFeatures: Option<nat>
    var featureImportances: Option<seq<real>>

    /** The width and labels of the data the current tree was built on. */
    ghost var treeWidth: nat
    ghost var treeLabels: set<L>

    /** A fitted tree is well formed over the data it was built on, only
        predicts labels of that data, and has one importance in [0, 1] per
        feature. */
    ghost predicate Valid()
      reads this
    {
      DrawsWithoutReplacement(draw)
      && (tree.Some? ==>
            WellFormed(tree.value, treeWidth, params.minSamplesLeaf)
            && (forall c :: c in Labels(tree.value) ==> c in treeLabels)
            && featureImportances.Some? && |featureImportances.value| == treeWidth
            && forall i :: 0 <= i < treeWidth ==> 0.0 <= featureImportances.value[i] <= 1.0)
    }

    constructor (params: TreeParams, draw: (nat, nat) -> seq<nat>)
      requires DrawsWithoutReplacement(draw)
      ensures Valid()
      ensures this.params == params && this.draw == draw
      ensures tree.None? && classes.None? && nClasses.None? && nFeatures.None? && featureImportances.None?
    {
      this.params := params;
      this.draw := draw;
      tree := None;
      classes := None;
      nClasses := None;
      nFeatures := None;
      featureImportances := None;
      treeWidth := 0;
      treeLabels := {};
    }

    /** `fit`: records the classes and the number of features, then builds
        the tree and its importances.  Building fails on empty training
        data, leaving the previous tree and importances in place. */
    method Fit(X: seq<Row>, width: nat, y: seq<L>) returns (r: Result<()>)
      requires Valid() && Rectangular(X, width) && |X| == |y|
      modifies this
      ensures Valid()
      ensures classes == Some(set c | c in y) && nClasses == Some(|set c | c in y|) && nFeatures == Some(width)
      ensures r.Ok? <==> |y| > 0
      ensures r.Ok? ==> tree == Some(Build(X, width, y, 0, params, draw).value)
                        && FeaturesBelow(tree.value, width) && |y| > 0
                        && featureImportances == Some(FeatureImportances(tree.value, width, |y|))
                        && treeWidth == width && treeLabels == set c | c in y
      ensures r.Err? ==> r.error == IndexError && tree == old(tree)
                         && featureImportances == old(featureImportances)
                         && treeWidth == old(treeWidth) && treeLabels == old(treeLabels)
    {
      classes := Some(set c | c in y);
      nClasses := Some(|set c | c in y|);
      nFeatures := Some(width);
      var built := Build(X, width, y, 0, params, draw);
      if built.Err? {
        return Err(built.error);
      }
      var node := built.value;
      FittedTree(X, width, y, params, draw, node);
      tree := Some(node);
      var importances := ComputeFeatureImportances(node, width, |y|);
      featureImportances := Some(importances);
      treeWidth := width;
      treeLabels := set c | c in y;
      r := Ok(());
    }

    /** `predict`: an empty batch never touches the tree; otherwise an
        unfitted classifier fails on the missing tree's `value`. */
    function Predict(X: seq<Row>): (r: Result<seq<L>>)
      reads this
      requires Valid()
      ensures r.Ok? ==> |r.value| == |X|
      ensures r.Ok? ==> forall i :: 0 <= i < |X| ==> |X| > 0 && tree.Some? && r.value[i] in treeLabels
      ensures tree.None? ==> (r.Ok? <==> |X| == 0)
      ensures tree.Some? && (forall i :: 0 <= i < |X| ==> |X[i]| == treeWidth) ==> r.Ok?
    {
      if |X| == 0 then Ok([])
      else if tree.None? then Err(AttributeError("value"))
      else
        var node := tree.value;
        WellFormedFeatures(node, treeWidth, params.minSamplesLeaf);
        assert forall i :: 0 <= i < |X| && |X[i]| == treeWidth ==> FeaturesBelow(node, |X[i]|);
        PredictAllTotal(X, node, treeWidth);
        TreePredict.Predict(X, node)
    }

    /** `score`: the mean agreement of `predict(X)` with `y`. */
    function Score(X: seq<Row>, y: seq<L>): (r: Result<Option<real>>)
      reads this
      requires Valid()
      ensures r.Ok? && r.value.Some? ==> 0.0 <= r.value.value <= 1.0
      ensures r.Ok? && r.value.Some? && |X| == |y| ==>
                (r.value.value == 1.0 <==> Predict(X).Ok? && Predict(X).value == y)
    {
      var pred :- Predict(X);
      var agree :- Agreement(pred, y);
      AgreementMean(pred, y, agree);
      Ok(Mean(agree))
    }

    /** `extract_rules(self, feature_names)`. */
    function Rules(names: Option<seq<string>>, fmt: real -> string): (r: Result<seq<(string, L)>>)
      reads this
      requires Valid()
      ensures tree.None? ==> r == Err(AttributeError("value"))
      ensures tree.Some? ==> (r.Ok? <==> Named(tree.value, names))
      ensures tree.Some? && names.None? ==> r.Ok? && |r.value| == |TreePredict.Rules(tree.value)|
    {
      if tree.None? then Err(AttributeError("value"))
      else
        ExtractRulesSpec(tree.value, names, fmt);
        ExtractRules(tree.value, names, fmt)
    }
  }

  /** Rows of the tree's width are all classified. */
  lemma PredictAllTotal<L>(X: seq<Row>, node: Node<L>, width: nat)
    requires FeaturesBelow(node, width)
    ensures (forall i :: 0 <= i < |X| ==> |X[i]| == width) ==> TreePredict.Predict(X, node).Ok?
  {
    if forall i :: 0 <= i < |X| ==> |X[i]| == width {
      forall i | 0 <= i < |X| ensures PredictSample(X[i], node).Ok? {
        PredictSampleTotal(X[i], node);
      }
    }
  }

  /** The mean agreement is a share, and for equal lengths it is one
      exactly when the predictions are the labels. */
  lemma AgreementMean<L>(pred: seq<L>, y: seq<L>, agree: seq<bool>)
    requires Agreement(pred, y) == Ok(agree)
    ensures Mean(agree).Some? ==> 0.0 <= Mean(agree).value <= 1.0
    ensures Mean(agree).Some? && |pred| == |y| ==> (Mean(agree).value == 1.0 <==> pred == y)
  {
    if Mean(agree).Some? {
      Arith.NonNegRatio(CountTrueOf(agree) as real, |agree| as real);
      Arith.RatioAtMostOne(CountTrueOf(agree) as real, |agree| as real);
      if |pred| == |y| {
        CountTrueOfAll(agree);
        Arith.RatioIsOne(CountTrueOf(agree) as real, |agree| as real);
        if CountTrueOf(agree) == |agree| {
          assert pred == y;
        }
      }
    }
  }
}
