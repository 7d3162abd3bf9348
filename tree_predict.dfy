/** Prediction with a built range decision tree (`_predict_sample`,
    `predict`, `score`) and the decision rules it encodes (`extract_rules`). */
module TreePredict {
  import opened Wrappers
  import opened Strings
  import opened TreeSplit
  import opened TreeBuild
  import Arith

  // ---------------------------------------------------------------------
  // Prediction

  /** `_predict_sample`: follow the split conditions from the root to a
      leaf.  Indexing a feature the sample does not have fails with
      `IndexError`. */
  function PredictSample<L(==)>(x: Row, node: Node<L>): (r: Result<L>)
    ensures r.Ok? ==> r.value in Labels(node)
    ensures r.Err? ==> r.error == IndexError
  {
    match node
    case Leaf(value, _, _) => Ok(value)
    case Internal(f, s, left, right, _, _) =>
      if f >= |x| then Err(IndexError)
      else if GoesLeft(s, x[f]) then PredictSample(x, left)
      else PredictSample(x, right)
  }

  /** Every feature the tree tests is below `width`. */
  predicate FeaturesBelow<L>(node: Node<L>, width: nat)
  {
    match node
    case Leaf(_, _, _) => true
    case Internal(f, _, left, right, _, _) => f < width && FeaturesBelow(left, width) && FeaturesBelow(right, width)
  }

  lemma {:induction false} WellFormedFeatures<L>(node: Node<L>, width: nat, minLeaf: int)
    requires WellFormed(node, width, minLeaf)
    ensures FeaturesBelow(node, width)
  {
    match node
    case Leaf(_, _, _) =>
    case Internal(_, _, left, right, _, _) =>
      WellFormedFeatures(left, width, minLeaf);
      WellFormedFeatures(right, width, minLeaf);
  }

  /** A sample with every split feature is always classified. */
  lemma {:induction false} PredictSampleTotal<L>(x: Row, node: Node<L>)
    requires FeaturesBelow(node, |x|)
    ensures PredictSample(x, node).Ok?
  {
    match node
    case Leaf(_, _, _) =>
    case Internal(f, s, left, right, _, _) =>
      PredictSampleTotal(x, left);
      PredictSampleTotal(x, right);
  }

  /** `predict`: the prediction of every row, in order; the first row that
      cannot be classified makes the whole call fail. */
  function Predict<L(==)>(X: seq<Row>, node: Node<L>): (r: Result<seq<L>>)
    ensures r.Ok? <==> forall i :: 0 <= i < |X| ==> PredictSample(X[i], node).Ok?
    ensures r.Ok? ==> |r.value| == |X|
                      && forall i :: 0 <= i < |X| ==> r.value[i] == PredictSample(X[i], node).value
  {
    if |X| == 0 then Ok([])
    else
      var head :- PredictSample(X[0], node);
      var tail :- Predict(X[1..], node);
      assert forall i :: 1 <= i < |X| ==> X[1..][i - 1] == X[i];
      Ok([head] + tail)
  }

  // ---------------------------------------------------------------------
  // Accuracy

  /** `y_pred == y` under numpy broadcasting: equal lengths compare
      element-wise, a length-one side is compared with every element of the
      other, any other mismatch fails. */
  function Agreement<L(==)>(pred: seq<L>, y: seq<L>): (r: Result<seq<bool>>)
    ensures r.Ok? <==> |pred| == |y| || |pred| == 1 || |y| == 1
    ensures r.Ok? && |pred| == |y| ==> |r.value| == |y| && forall i :: 0 <= i < |y| ==> r.value[i] == (pred[i] == y[i])
  {
    if |pred| == |y| then Ok(seq(|y|, i requires 0 <= i < |y| => pred[i] == y[i]))
    else if |pred| == 1 then Ok(seq(|y|, i requires 0 <= i < |y| => pred[0] == y[i]))
    else if |y| == 1 then Ok(seq(|pred|, i requires 0 <= i < |pred| => pred[i] == y[0]))
    else Err(ValueError("operands could not be broadcast together"))
  }

  function CountTrueOf(bs: seq<bool>): (n: nat)
    ensures n <= |bs|
  {
    if |bs| == 0 then 0 else (if bs[0] then 1 else 0) + CountTrueOf(bs[1..])
  }

  /** `np.mean` of a boolean array; the mean of nothing is not a number. */
  function Mean(bs: seq<bool>): Option<real>
  {
    if |bs| == 0 then None else Some(CountTrueOf(bs) as real / |bs| as real)
  }

  lemma {:induction false} CountTrueOfAll(bs: seq<bool>)
    ensures CountTrueOf(bs) == |bs| <==> forall i :: 0 <= i < |bs| ==> bs[i]
  {
    if |bs| > 0 {
      CountTrueOfAll(bs[1..]);
      assert forall i :: 1 <= i < |bs| ==> bs[1..][i - 1] == bs[i];
    }
  }

  /** `score`: accuracy of the predictions of `X` against `y`. */
  function Score<L(==)>(X: seq<Row>, y: seq<L>, node: Node<L>): Result<Option<real>>
  {
    var pred :- Predict(X, node);
    var agree :- Agreement(pred, y);
    Ok(Mean(agree))
  }

  /** The accuracy lies in [0, 1]. */
  lemma ScoreBounds<L>(X: seq<Row>, y: seq<L>, node: Node<L>)
    ensures var r := Score(X, y, node);
            r.Ok? && r.value.Some? ==> 0.0 <= r.value.value <= 1.0
  {
  }

  /** For as many labels as rows, the accuracy is 1 exactly when every row
      is predicted correctly. */
  lemma ScorePerfect<L>(X: seq<Row>, y: seq<L>, node: Node<L>)
    requires |X| == |y|
    ensures var r := Score(X, y, node);
            r.Ok? && r.value.Some? ==>
              (r.value.value == 1.0 <==> forall i :: 0 <= i < |y| ==> PredictSample(X[i], node) == Ok(y[i]))
  {
    var r := Score(X, y, node);
    if r.Ok? && r.value.Some? {
      var pred := Predict(X, node).value;
      var agree := Agreement(pred, y).value;
      CountTrueOfAll(agree);
      Arith.RatioIsOne(CountTrueOf(agree) as real, |agree| as real);
    }
  }

  /** A score is defined for a non-empty test set of as many labels as rows
      whose rows have every split feature. */
  lemma ScoreDefined<L>(X: seq<Row>, y: seq<L>, node: Node<L>)
    requires |X| == |y| && |y| > 0 && FeaturesBelowAll(X, node)
    ensures Score(X, y, node).Ok? && Score(X, y, node).value.Some?
  {
    forall i | 0 <= i < |X| ensures PredictSample(X[i], node).Ok? {
      PredictSampleTotal(X[i], node);
    }
    assert Predict(X, node).Ok?;
  }

  /** Every row has every feature the tree tests. */
  predicate FeaturesBelowAll<L>(X: seq<Row>, node: Node<L>)
  {
    forall i :: 0 <= i < |X| ==> FeaturesBelow(node, |X[i]|)
  }

  // ---------------------------------------------------------------------
  // Decision rules

  /** One test on the way to a leaf: the split on `feature` held (left
      branch) or did not (right branch). */
  datatype Condition = Condition(feature: nat, split: Split, holds: bool)

  /** A path from the root to a leaf with the label predicted there. */
  datatype Rule<L> = Rule(conditions: seq<Condition>, prediction: L)

  /** The rules of the leaves below `node`, left before right, each path
      starting with `path`: the inner `traverse` of `extract_rules`. */
  function RulesFrom<L>(node: Node<L>, path: seq<Condition>): seq<Rule<L>>
  {
    match node
    case Leaf(value, _, _) => [Rule(path, value)]
    case Internal(f, s, left, right, _, _) =>
      RulesFrom(left, path + [Condition(f, s, true)]) + RulesFrom(right, path + [Condition(f, s, false)])
  }

  function Rules<L>(node: Node<L>): seq<Rule<L>>
  {
    RulesFrom(node, [])
  }

  predicate ConditionHolds(x: Row, c: Condition)
  {
    c.feature < |x| && GoesLeft(c.split, x[c.feature]) == c.holds
  }

  predicate PathHolds(x: Row, path: seq<Condition>)
  {
    forall i :: 0 <= i < |path| ==> ConditionHolds(x, path[i])
  }

  /** The labels of the rules whose conditions all hold on `x`, in order. */
  function MatchingLabels<L>(x: Row, rules: seq<Rule<L>>): seq<L>
  {
    if |rules| == 0 then []
    else (if PathHolds(x, rules[0].conditions) then [rules[0].prediction] else []) + MatchingLabels(x, rules[1..])
  }

  lemma {:induction false} MatchingLabelsConcat<L>(x: Row, a: seq<Rule<L>>, b: seq<Rule<L>>)
    ensures MatchingLabels(x, a + b) == MatchingLabels(x, a) + MatchingLabels(x, b)
  {
    if |a| > 0 {
      assert (a + b)[0] == a[0];
      assert (a + b)[1..] == a[1..] + b;
      MatchingLabelsConcat(x, a[1..], b);
      var h := if PathHolds(x, a[0].conditions) then [a[0].prediction] else [];
      assert MatchingLabels(x, a + b) == h + (MatchingLabels(x, a[1..]) + MatchingLabels(x, b));
      assert MatchingLabels(x, a) == h + MatchingLabels(x, a[1..]);
    } else {
      assert a + b == b;
    }
  }

  lemma PathHoldsSnoc(x: Row, path: seq<Condition>, c: Condition)
    ensures PathHolds(x, path + [c]) <==> PathHolds(x, path) && ConditionHolds(x, c)
  {
    assert forall i :: 0 <= i < |path| ==> (path + [c])[i] == path[i];
    assert (path + [c])[|path|] == c;
  }

  /** Of the rules below `node`, exactly one applies to a sample the path so
      far lets through, and it carries the predicted label; none applies to
      a sample the path excludes. */
  lemma {:induction false} RulesFromDecide<L>(x: Row, node: Node<L>, path: seq<Condition>)
    requires FeaturesBelow(node, |x|)
    ensures PredictSample(x, node).Ok?
    ensures MatchingLabels(x, RulesFrom(node, path))
            == if PathHolds(x, path) then [PredictSample(x, node).value] else []
  {
    PredictSampleTotal(x, node);
    match node
    case Leaf(_, _, _) =>
    case Internal(f, s, left, right, _, _) =>
      var ct, cf := Condition(f, s, true), Condition(f, s, false);
      RulesFromDecide(x, left, path + [ct]);
      RulesFromDecide(x, right, path + [cf]);
      MatchingLabelsConcat(x, RulesFrom(left, path + [ct]), RulesFrom(right, path + [cf]));
      PathHoldsSnoc(x, path, ct);
      PathHoldsSnoc(x, path, cf);
  }

  /** The rules partition the sample space: for any sample with the split
      features exactly one rule applies, and its label is the prediction. */
  lemma RulesDecide<L>(x: Row, node: Node<L>)
    requires FeaturesBelow(node, |x|)
    ensures PredictSample(x, node).Ok?
    ensures MatchingLabels(x, Rules(node)) == [PredictSample(x, node).value]
  {
    RulesFromDecide(x, node, []);
  }

  // ---------------------------------------------------------------------
  // Rule text

  /** `feature_names[f]`, or `X[f]` when no names are given. */
  function FeatureName(f: nat, names: Option<seq<string>>): (r: Result<string>)
    ensures r.Err? <==> names.Some? && f >= |names.value|
  {
    match names
    case None => Ok("X[" + NatToString(f) + "]")
    case Some(ns) => if f < |ns| then Ok(ns[f]) else Err(IndexError)
  }

  /** The text of one condition; `fmt` renders a number as `{:.3f}` does. */
  function ConditionText(name: string, s: Split, holds: bool, fmt: real -> string): string
  {
    match s
    case Standard(t) => if holds then name + " <= " + fmt(t) else name + " > " + fmt(t)
    case Range(lo, hi) =>
      (if holds then name + " in [" else name + " NOT in [") + fmt(lo) + ", " + fmt(hi) + "]"
  }

  /** The conditions of a rule joined by " AND ", or "True" for the root. */
  function RuleText(path: seq<string>): string
  {
    if |path| > 0 then Join(path, " AND ") else "True"
  }

  /** `extract_rules` below `node`, with the texts of the path so far. */
  function ExtractFrom<L>(node: Node<L>, path: seq<string>, names: Option<seq<string>>, fmt: real -> string)
    : Result<seq<(string, L)>>
  {
    match node
    case Leaf(value, _, _) => Ok([(RuleText(path), value)])
    case Internal(f, s, left, right, _, _) =>
      var name :- FeatureName(f, names);
      var l :- ExtractFrom(left, path + [ConditionText(name, s, true, fmt)], names, fmt);
      var r :- ExtractFrom(right, path + [ConditionText(name, s, false, fmt)], names, fmt);
      Ok(l + r)
  }

  function ExtractRules<L>(node: Node<L>, names: Option<seq<string>>, fmt: real -> string)
    : Result<seq<(string, L)>>
  {
    ExtractFrom(node, [], names, fmt)
  }

  /** Every split feature has a name. */
  predicate Named<L>(node: Node<L>, names: Option<seq<string>>)
  {
    names.None? || FeaturesBelow(node, |names.value|)
  }

  predicate ConditionsNamed(path: seq<Condition>, names: Option<seq<string>>)
  {
    forall i :: 0 <= i < |path| ==> FeatureName(path[i].feature, names).Ok?
  }

  /** The texts of a sequence of named conditions. */
  function ConditionTexts(path: seq<Condition>, names: Option<seq<string>>, fmt: real -> string): (ts: seq<string>)
    requires ConditionsNamed(path, names)
    ensures |ts| == |path|
  {
    if |path| == 0 then []
    else
      ConditionTexts(path[..|path| - 1], names, fmt)
      + [ConditionText(FeatureName(path[|path| - 1].feature, names).value, path[|path| - 1].split,
                       path[|path| - 1].holds, fmt)]
  }

  predicate RulesNamed<L>(rules: seq<Rule<L>>, names: Option<seq<string>>)
  {
    forall i :: 0 <= i < |rules| ==> ConditionsNamed(rules[i].conditions, names)
  }

  /** The text and label of each rule. */
  function RenderRules<L>(rules: seq<Rule<L>>, names: Option<seq<string>>, fmt: real -> string)
    : (out: seq<(string, L)>)
    requires RulesNamed(rules, names)
    ensures |out| == |rules|
  {
    if |rules| == 0 then []
    else [RenderRule(rules[0], names, fmt)] + RenderRules(rules[1..], names, fmt)
  }

  function RenderRule<L>(rule: Rule<L>, names: Option<seq<string>>, fmt: real -> string): (string, L)
    requires ConditionsNamed(rule.conditions, names)
  {
    (RuleText(ConditionTexts(rule.conditions, names, fmt)), rule.prediction)
  }

  lemma {:induction false} RenderRulesConcat<L>(a: seq<Rule<L>>, b: seq<Rule<L>>, names: Option<seq<string>>,
                                                fmt: real -> string)
    requires RulesNamed(a, names) && RulesNamed(b, names)
    ensures RulesNamed(a + b, names)
    ensures RenderRules(a + b, names, fmt) == RenderRules(a, names, fmt) + RenderRules(b, names, fmt)
  {
    RulesNamedConcat(a, b, names);
    if |a| > 0 {
      var t := a[1..];
      assert (a + b)[0] == a[0];
      assert (a + b)[1..] == t + b;
      assert forall i :: 0 <= i < |t| ==> t[i] == a[i + 1];
      RenderRulesConcat(t, b, names, fmt);
      var h := [RenderRule(a[0], names, fmt)];
      assert RenderRules(a + b, names, fmt) == h + RenderRules(t + b, names, fmt);
      assert RenderRules(a, names, fmt) == h + RenderRules(t, names, fmt);
    } else {
      assert a + b == b;
    }
  }

  /** The conditions of every rule below `node` are named when the path
      and the node are. */
  lemma {:induction false} RulesFromNamed<L>(node: Node<L>, path: seq<Condition>, names: Option<seq<string>>)
    requires ConditionsNamed(path, names) && Named(node, names)
    ensures RulesNamed(RulesFrom(node, path), names)
  {
    match node
    case Leaf(_, _, _) =>
    case Internal(f, s, left, right, _, _) =>
      var ct, cf := Condition(f, s, true), Condition(f, s, false);
      assert forall i :: 0 <= i < |path| ==> (path + [ct])[i] == path[i] && (path + [cf])[i] == path[i];
      RulesFromNamed(left, path + [ct], names);
      RulesFromNamed(right, path + [cf], names);
      RulesNamedConcat(RulesFrom(left, path + [ct]), RulesFrom(right, path + [cf]), names);
  }

  lemma RulesNamedConcat<L>(a: seq<Rule<L>>, b: seq<Rule<L>>, names: Option<seq<string>>)
    requires RulesNamed(a, names) && RulesNamed(b, names)
    ensures RulesNamed(a + b, names)
  {
    assert forall i :: 0 <= i < |a + b| ==> (a + b)[i] == if i < |a| then a[i] else b[i - |a|];
  }

  lemma ConditionTextsSnoc(path: seq<Condition>, c: Condition, names: Option<seq<string>>, fmt: real -> string)
    requires ConditionsNamed(path, names) && FeatureName(c.feature, names).Ok?
    ensures ConditionsNamed(path + [c], names)
    ensures ConditionTexts(path + [c], names, fmt)
            == ConditionTexts(path, names, fmt)
               + [ConditionText(FeatureName(c.feature, names).value, c.split, c.holds, fmt)]
  {
    assert forall i :: 0 <= i < |path| ==> (path + [c])[i] == path[i];
    assert (path + [c])[..|path|] == path;
  }

  /** `extract_rules` fails exactly when a split feature has no name, and
      otherwise yields the text and label of every rule, leaf by leaf. */
  lemma {:induction false} ExtractFromRules<L>(node: Node<L>, path: seq<Condition>, names: Option<seq<string>>,
                                               fmt: real -> string)
    requires ConditionsNamed(path, names)
    ensures ExtractFrom(node, ConditionTexts(path, names, fmt), names, fmt).Ok? <==> Named(node, names)
    ensures Named(node, names) ==>
              RulesNamed(RulesFrom(node, path), names)
              && ExtractFrom(node, ConditionTexts(path, names, fmt), names, fmt).value
                 == RenderRules(RulesFrom(node, path), names, fmt)
  {
    match node
    case Leaf(_, _, _) =>
    case Internal(f, s, left, right, _, _) =>
      if FeatureName(f, names).Ok? {
        var ct, cf := Condition(f, s, true), Condition(f, s, false);
        ConditionTextsSnoc(path, ct, names, fmt);
        ConditionTextsSnoc(path, cf, names, fmt);
        ExtractFromRules(left, path + [ct], names, fmt);
        ExtractFromRules(right, path + [cf], names, fmt);
        if Named(node, names) {
          RenderRulesConcat(RulesFrom(left, path + [ct]), RulesFrom(right, path + [cf]), names, fmt);
        }
      }
  }

  lemma ExtractRulesSpec<L>(node: Node<L>, names: Option<seq<string>>, fmt: real -> string)
    ensures ExtractRules(node, names, fmt).Ok? <==> Named(node, names)
    ensures Named(node, names) ==>
              RulesNamed(Rules(node), names)
              && ExtractRules(node, names, fmt).value == RenderRules(Rules(node), names, fmt)
  {
    ExtractFromRules(node, [], names, fmt);
  }
}
