# FAIR synthesis pipeline: a verified Dafny model

This project models the deterministic core of the FAIR synthesis data
pipeline for metal-organic and covalent organic frameworks, and proves
properties of that model.

**The data formats.**
- MOFSY procedure and characterization documents, with the generated
  decoders and encoders between those documents and JSON.
- The MPIF text the exporter produces.

**The pipeline stages.**
- Conversion of electronic lab notebook (ELN) exports and of the MIL
  spreadsheet into MOFSY steps and reagents.
- Cleaning of ELN records: whitelists, unit conversion, and the keyword
  annotations specific to MOCOF-1.
- The recursive merge of an extraction diff into an ELN record.
- PXRD file-name parsing and selection of a matching reference.
- Extraction of the MOCOF-1 parameter table.
- Read access to MOFSY documents by experiment id, and the merge of
  procedures with characterizations.
- Step search, step sentences and vessel classification in the MPIF
  exporter.
- Deduplication of experiments, by scanning backwards with a tolerance.

**The range decision tree.** A CART-style classifier whose nodes split
either on a threshold (`x[f] <= t`) or on an interval
(`lo <= x[f] <= hi`). Its Gini impurity and gain use exact `real`
arithmetic.

**Code shape.** Pure source code is modelled as datatypes and functions.
Source code that updates state becomes methods, and each method is proved
equal to a specification function:
- loops that build lists or dicts;
- the importance accumulation over an `array`;
- the classifier object, modelled as a `class`.

Modules follow the source files:

| module | source |
|---|---|
| `TreeSplit`, `Impurity`, `TreeBuild`, `TreePredict`, `TreeImportance`, `TreeClassifier` | the range decision tree |
| `Dedup` | deduplication of experiments |
| `PxrdCollector`, `PxrdReference` | PXRD file names and reference selection |
| `ElnToMofsy`, `MilToMofsy` | the two converters to MOFSY |
| `ElnCleaner`, `ElnCleanerMocof1`, `JsonMerge` | ELN cleaning and the diff merge |
| `ParamTable`, `ParamNames`, `InterestingParams` | the MOCOF-1 parameter table |
| `MofsyApi`, `MergeMofsy` | MOFSY read access and the merge |
| `MpifSteps`, `MpifFields` | the MPIF exporter |
| `CamelCase`, `Roles` | the small utilities |
| `Convert`, `ProcedureSchema`, `CharacterizationSchema` | the generated data structures |
| `Wrappers`, `Json`, `Strings`, `Seqs`, `Arith` | shared definitions (options and results, JSON values, string and sequence folds) |

Exceptions of the source are modelled as `Err` values of a `Result`, such
as `IndexError`, `KeyError`, `ValueError`, `AttributeError` and a thrown
JavaScript `Error`. The branch that raises is the branch that returns
`Err`.

Where the written description of the system and the code disagree, the
model follows the code:
- **Importance weights.** The decision tree weights every node's impurity
  decrease by the root's sample count, not by the node's own count
  (`range_decision_tree.py:574`).
- **Boolean cells in deduplication.** The boolean branch of
  `compare_dataframe_rows` cannot be reached. The numeric test comes
  first and accepts booleans, so equal booleans compare as numbers
  (`deduplicate_experiments.py:134-145`).
- **`find_product_mass`.** It keeps every weighing, because a weighing's
  weight is an object and always truthy.
- **`find_product`.** It never returns `None`.
- **The `"none"` default in the parameter table.** The parameter
  extraction uses `"none"` as its search default, and a non-empty string
  is truthy. Its `"unknown"` branches therefore cannot be reached, and the
  attribute access on `"none"` raises (see Findings).
- **`merge_mofsy`.** It reads `char.metadata.description`, which the
  generated characterization entry does not have, so as written every
  described synthesis met with a non-empty characterization list raises
  `AttributeError` (`MergeMofsy.MergeAsWritten`, see Findings). The rest of
  `MergeMofsy` is the evidently intended merge, where each characterization
  entry carries an optional description (`DescribedEntry`).

## Model

| member | source | states |
|---|---|---|
| Impurity.GiniBounds | src/fair_synthesis/analysis/decision_tree/range_decision_tree.py:154-164 | Gini impurity lies in [0, 1); it is 0 exactly when the labels have at most one distinct value (empty labels included) |
| Impurity.GiniClosedForm | src/fair_synthesis/analysis/decision_tree/range_decision_tree.py:154-164 | for non-empty labels, 1 − Σ(count/n)² over the distinct labels equals 1 − (number of equal ordered pairs)/n² |
| Impurity.GiniImpurity | src/fair_synthesis/analysis/decision_tree/range_decision_tree.py:154-164 | the counting loop over the labels returns exactly the Gini impurity |
| Impurity.DistinctKeys | src/fair_synthesis/analysis/decision_tree/range_decision_tree.py:159 | the distinct labels have no duplicates, are exactly the labels that occur, and are no more than the labels |
| Impurity.DistinctOrder | src/fair_synthesis/analysis/decision_tree/range_decision_tree.py:159 | distinct labels are listed in order of first occurrence |
| Impurity.CoveringKeys | src/fair_synthesis/analysis/decision_tree/range_decision_tree.py:159-163 | summing counts over any duplicate-free key list that covers the labels gives n, and summing squared counts gives the equal-pair count |
| Impurity.GainUnfold | src/fair_synthesis/analysis/decision_tree/range_decision_tree.py:188-202 | when both children are non-empty, the gain is the parent impurity minus the size-weighted child impurities |
| Impurity.GainNonNegative | src/fair_synthesis/analysis/decision_tree/range_decision_tree.py:188-202 | when the children partition the parent's labels, the gain is never negative |
| Impurity.GainBelowParent | src/fair_synthesis/analysis/decision_tree/range_decision_tree.py:188-202 | the gain never exceeds the parent impurity (it is 0 when a child is empty) |
| Impurity.GainOfPureSides | src/fair_synthesis/analysis/decision_tree/range_decision_tree.py:188-202 | two pure non-empty children gain the whole parent impurity |
| TreeSplit.FilterPartition | src/fair_synthesis/analysis/decision_tree/range_decision_tree.py:246-247 | the rows under a mask and under its negation together are a permutation of all rows |
| TreeSplit.CountTrueNegate | src/fair_synthesis/analysis/decision_tree/range_decision_tree.py:246-247 | the two sides of a mask have sizes adding up to the row count |
| TreeSplit.BothSides | src/fair_synthesis/analysis/decision_tree/range_decision_tree.py:246-247 | a mask with one row on each side leaves both sides non-empty and strictly smaller than the node |
| TreeSplit.UniqueSpec | src/fair_synthesis/analysis/decision_tree/range_decision_tree.py:235 | the sorted unique values of a column are strictly increasing and are exactly the column's values |
| TreeSplit.InsertSortedSpec | src/fair_synthesis/analysis/decision_tree/range_decision_tree.py:235 | inserting into a strictly increasing sequence keeps it strictly increasing and adds exactly the new value |
| TreeSplit.Evaluate | src/fair_synthesis/analysis/decision_tree/range_decision_tree.py:246-256 | a candidate split is kept exactly when both sides hold at least min_samples_leaf rows; it records feature, split and left mask |
| TreeSplit.BestOfIsFirstMaximum | src/fair_synthesis/analysis/decision_tree/range_decision_tree.py:255-259 | the best candidate is None only if none is kept; otherwise it has the maximum gain and every earlier candidate has a strictly smaller gain (first strictly-greater wins) |
| TreeSplit.BestOfIsCandidate | src/fair_synthesis/analysis/decision_tree/range_decision_tree.py:255-259 | the best result is one of the candidates |
| TreeSplit.BestOfConcat | src/fair_synthesis/analysis/decision_tree/range_decision_tree.py:378-401 | the best of two candidate lists is the better of their bests, ties going to the first list |
| TreeSplit.BestOfSnoc | src/fair_synthesis/analysis/decision_tree/range_decision_tree.py:255-259 | scanning one more candidate replaces the incumbent only when it is better |
| TreeSplit.EvaluateStandardSplits | src/fair_synthesis/analysis/decision_tree/range_decision_tree.py:233-262 | the loop over midpoints of consecutive distinct values returns the first best kept threshold split, or None with fewer than two distinct values |
| TreeSplit.LowerIndices | src/fair_synthesis/analysis/decision_tree/range_decision_tree.py:315-322 | the lower indices are below n−1; max_range_splits of them are drawn when n exceeds it, otherwise they are 0..n−2 in order |
| TreeSplit.EvaluateRangeSplits | src/fair_synthesis/analysis/decision_tree/range_decision_tree.py:305-347 | the nested loops over i and i<j<min(i+n//2, n) return the first best kept interval split, or None with at most two distinct values |
| TreeSplit.ScanRangeGroup | src/fair_synthesis/analysis/decision_tree/range_decision_tree.py:326-345 | the inner loop over upper indices j for one lower index i continues the first-best scan with the ranges [u[i], u[j]] in order of j |
| TreeSplit.FindBestSplit | src/fair_synthesis/analysis/decision_tree/range_decision_tree.py:378-401 | the scan over features (standard before range, replacing only on strictly greater gain) returns the best split of the specification |
| TreeBuild.StandardSplitProper | src/fair_synthesis/analysis/decision_tree/range_decision_tree.py:233-262 | a returned threshold split leaves rows on both sides, each at least min_samples_leaf |
| TreeBuild.RangeSplitProper | src/fair_synthesis/analysis/decision_tree/range_decision_tree.py:305-347 | a returned interval split leaves rows inside and outside, each at least min_samples_leaf |
| TreeBuild.AllResultsProper | src/fair_synthesis/analysis/decision_tree/range_decision_tree.py:378-401 | every standard and range result compared across the features splits the node properly |
| TreeBuild.BestSplitProper | src/fair_synthesis/analysis/decision_tree/range_decision_tree.py:378-401 | the best split is on an existing feature and splits the node properly |
| TreeBuild.MostCommonSpec | src/fair_synthesis/analysis/decision_tree/range_decision_tree.py:445-447 | a leaf's label occurs in the node, has the maximum count, and is the first label to reach it |
| TreeBuild.FilterRectangular | src/fair_synthesis/analysis/decision_tree/range_decision_tree.py:455-457 | the rows of a child keep the feature width |
| TreeBuild.Build | src/fair_synthesis/analysis/decision_tree/range_decision_tree.py:427-465 | building succeeds exactly for non-empty labels; a node records its sample count and Gini impurity |
| TreeBuild.BuildInternal | src/fair_synthesis/analysis/decision_tree/range_decision_tree.py:427-465 | when no stopping rule applies and a split exists, the node is internal and its children are built on the two sides of the split, which partition the rows and hold at least min_samples_leaf each |
| TreeBuild.BuildLeaves | src/fair_synthesis/analysis/decision_tree/range_decision_tree.py:437-449 | a node is internal exactly when no stopping rule applies and a split exists; a leaf holds the most common label |
| TreeBuild.SplitDecrease | src/fair_synthesis/analysis/decision_tree/range_decision_tree.py:188-202 | the weighted impurity decrease of a partition is non-negative |
| TreeBuild.BuildWellFormed | src/fair_synthesis/analysis/decision_tree/range_decision_tree.py:427-465 | every tree built is well formed: child sample counts add up to the node's and are at least min_samples_leaf, split features are below the width, impurities lie in [0, 1) and no split increases the weighted impurity |
| TreeBuild.BuildLabels | src/fair_synthesis/analysis/decision_tree/range_decision_tree.py:427-465 | every leaf label of the tree occurs in the training labels |
| TreeBuild.BuildHeight | src/fair_synthesis/analysis/decision_tree/range_decision_tree.py:437-441 | the height is below the sample count and the depth never exceeds max_depth |
| TreePredict.PredictSample | src/fair_synthesis/analysis/decision_tree/range_decision_tree.py:484-500 | a prediction is a leaf label of the tree; the only failure is an IndexError on a short sample |
| TreePredict.PredictSampleTotal | src/fair_synthesis/analysis/decision_tree/range_decision_tree.py:484-500 | a sample wide enough for every split feature always gets a prediction |
| TreePredict.WellFormedFeatures | src/fair_synthesis/analysis/decision_tree/range_decision_tree.py:484-500 | a well-formed tree only splits on features below its width |
| TreePredict.Predict | src/fair_synthesis/analysis/decision_tree/range_decision_tree.py:596-597 | predicting a batch succeeds exactly when every sample succeeds, and gives each sample's prediction in order |
| TreePredict.Agreement | src/fair_synthesis/analysis/decision_tree/range_decision_tree.py:616-617 | the element-wise comparison succeeds for equal lengths or broadcasting of length 1, and compares position by position |
| TreePredict.ScoreBounds | src/fair_synthesis/analysis/decision_tree/range_decision_tree.py:616-617 | accuracy lies in [0, 1] |
| TreePredict.ScorePerfect | src/fair_synthesis/analysis/decision_tree/range_decision_tree.py:616-617 | accuracy is 1 exactly when every prediction equals its label |
| TreePredict.ScoreDefined | src/fair_synthesis/analysis/decision_tree/range_decision_tree.py:616-617 | accuracy is defined for non-empty labels of matching length and wide enough samples |
| TreePredict.FeatureName | src/fair_synthesis/analysis/decision_tree/range_decision_tree.py:714-717 | a feature name lookup fails exactly when names are given and the index is out of range |
| TreePredict.RulesDecide | src/fair_synthesis/analysis/decision_tree/range_decision_tree.py:700-735 | exactly one extracted rule matches any sample, and its label is the tree's prediction |
| TreePredict.RulesFromDecide | src/fair_synthesis/analysis/decision_tree/range_decision_tree.py:700-735 | below a path, the rules matching a sample are its prediction if the path holds and none otherwise |
| TreePredict.ExtractRulesSpec | src/fair_synthesis/analysis/decision_tree/range_decision_tree.py:700-735 | rule text extraction succeeds exactly when every split feature has a name, and renders the rules root to leaf |
| TreePredict.ExtractFromRules | src/fair_synthesis/analysis/decision_tree/range_decision_tree.py:720-726 | the recursive text extraction below a path renders exactly the rules of that subtree |
| TreePredict.MatchingLabelsConcat | src/fair_synthesis/analysis/decision_tree/range_decision_tree.py:700-735 | matching rules of two rule lists are matched list by list |
| TreePredict.RenderRulesConcat | src/fair_synthesis/analysis/decision_tree/range_decision_tree.py:720-726 | rendering two rule lists is rendering each, in order |
| TreeImportance.Traverse | src/fair_synthesis/analysis/decision_tree/range_decision_tree.py:553-572 | the in-place traversal leaves the array equal to the accumulation of decrease × n over internal nodes |
| TreeImportance.AccumulateUnsplit | src/fair_synthesis/analysis/decision_tree/range_decision_tree.py:553-572 | a feature no node splits on keeps its value |
| TreeImportance.AccumulateGrows | src/fair_synthesis/analysis/decision_tree/range_decision_tree.py:553-572 | on a well-formed tree, accumulation never decreases any importance |
| TreeImportance.DecreaseNonNegative | src/fair_synthesis/analysis/decision_tree/range_decision_tree.py:560-566 | the impurity decrease of an internal node of a well-formed tree is non-negative |
| TreeImportance.NormalizeSpec | src/fair_synthesis/analysis/decision_tree/range_decision_tree.py:577-578 | non-negative importances with a positive sum are normalised to shares in [0, 1] summing to 1; with sum 0 they stay 0 |
| TreeImportance.SumScaled | src/fair_synthesis/analysis/decision_tree/range_decision_tree.py:577-578 | dividing every entry by s divides the sum by s |
| TreeImportance.NormalizedIsScaled | src/fair_synthesis/analysis/decision_tree/range_decision_tree.py:577-578 | with a positive sum, normalising divides by the sum |
| TreeImportance.ComputeFeatureImportances | src/fair_synthesis/analysis/decision_tree/range_decision_tree.py:551-580 | the method returns the specified importances (root n as weight, then normalisation) |
| TreeImportance.FeatureImportancesSpec | src/fair_synthesis/analysis/decision_tree/range_decision_tree.py:551-580 | importances of a well-formed tree lie in [0, 1], sum to 1 or are all 0, and are 0 for features never split on |
| TreeClassifier.RangeDecisionTreeClassifier.constructor | src/fair_synthesis/analysis/decision_tree/range_decision_tree.py:113-132 | a new classifier keeps its hyper-parameters and has no tree, classes or importances yet |
| TreeClassifier.RangeDecisionTreeClassifier.Fit | src/fair_synthesis/analysis/decision_tree/range_decision_tree.py:520-534 | fitting records classes and feature count, succeeds exactly for non-empty labels, stores the built tree and its importances, and on IndexError leaves the tree unchanged |
| TreeClassifier.RangeDecisionTreeClassifier.Predict | src/fair_synthesis/analysis/decision_tree/range_decision_tree.py:596-597 | predictions are one training label per sample; unfitted, only an empty batch succeeds; samples of the trained width always succeed |
| TreeClassifier.RangeDecisionTreeClassifier.Score | src/fair_synthesis/analysis/decision_tree/range_decision_tree.py:616-617 | accuracy lies in [0, 1] and is 1 exactly when the predictions equal the labels |
| TreeClassifier.RangeDecisionTreeClassifier.Rules | src/fair_synthesis/analysis/decision_tree/range_decision_tree.py:700-735 | rules of an unfitted classifier fail with AttributeError; a fitted one succeeds exactly when every split feature is named, and without names gives one line per root-to-leaf rule |
| TreeClassifier.PredictAllTotal | src/fair_synthesis/analysis/decision_tree/range_decision_tree.py:596-597 | samples of the tree's width are always predicted |
| TreeClassifier.AgreementMean | src/fair_synthesis/analysis/decision_tree/range_decision_tree.py:616-617 | the mean agreement lies in [0, 1] and is 1 exactly when the predictions equal the labels |
| Dedup.AdaptiveEpsilon | fairsynthesis_analysis/examples/deduplicate_experiments.py:89-104 | a positive tolerance gives a positive epsilon, a non-negative one a non-negative epsilon |
| Dedup.EpsilonOfMean | fairsynthesis_analysis/examples/deduplicate_experiments.py:95-96 | away from a zero mean, epsilon × 100 is abs(mean) × tolerance |
| Dedup.EpsilonMonotone | fairsynthesis_analysis/examples/deduplicate_experiments.py:89-104 | epsilon grows with the tolerance |
| Dedup.CalculateAdaptiveEpsilon | fairsynthesis_analysis/examples/deduplicate_experiments.py:89-104 | one epsilon per column of the statistics, positive for a positive tolerance |
| Dedup.CompareRows | fairsynthesis_analysis/examples/deduplicate_experiments.py:121-157 | rows are similar exactly when every column's cells are similar (two NaNs skip, one NaN differs, numbers within epsilon, default 0.01, other values equal and of the same type) |
| Dedup.CompareRowsSymmetric | fairsynthesis_analysis/examples/deduplicate_experiments.py:121-157 | the comparison is symmetric |
| Dedup.CompareRowsReflexive | fairsynthesis_analysis/examples/deduplicate_experiments.py:121-157 | with non-negative epsilons every row is similar to itself |
| Dedup.MatchFromSpec | fairsynthesis_analysis/examples/deduplicate_experiments.py:189-201 | the inner scan finds the latest unmarked similar later row, and no unmarked row between it and the end is similar |
| Dedup.GetDuplicateIndices | fairsynthesis_analysis/examples/deduplicate_experiments.py:173-201 | the nested loops return exactly the indices and pairs of the backward-scan specification |
| Dedup.ScanShape | fairsynthesis_analysis/examples/deduplicate_experiments.py:182-201 | marked indices are strictly descending (each marked once), every pair (i, j) has i<j, i marked and j unmarked |
| Dedup.ScanMarks | fairsynthesis_analysis/examples/deduplicate_experiments.py:182-201 | a row is marked exactly when some later unmarked row is similar to it |
| Dedup.ScanPairs | fairsynthesis_analysis/examples/deduplicate_experiments.py:189-201 | every pair is similar, and no unmarked row beyond the recorded partner is similar |
| Dedup.LastRowKept | fairsynthesis_analysis/examples/deduplicate_experiments.py:182 | the last row is never marked |
| Dedup.DuplicatesSpec | fairsynthesis_analysis/examples/deduplicate_experiments.py:173-201 | the result of the whole table has the scan's shape, marks and pairs |
| PxrdCollector.ParseFileName | src/fair_synthesis/formatting/pxrd_collector.py:8-26 | parsing fails with IndexError exactly for fewer than four parts; the id is part 1, the source has no "a" left, the shape no "-", the diameter exists iff part 3 has a "-", other metadata iff a fifth part exists |
| PxrdCollector.StoredName | src/fair_synthesis/formatting/pxrd_collector.py:20-21 | the base name of a stored file minus ".xyd" is its parts joined by "_" |
| PxrdCollector.HolderParts | src/fair_synthesis/formatting/pxrd_collector.py:23-24 | the holder piece splits on "-" into shape and diameter, and has a "-" exactly when a diameter exists |
| PxrdCollector.FileNameRoundTrip | src/fair_synthesis/formatting/pxrd_collector.py:8-26 | parsing the name written for a PXRD file gives the file back |
| PxrdCollector.FilterPxrdFiles | src/fair_synthesis/formatting/pxrd_collector.py:71-83 | the filter is None exactly when no file has the id, and otherwise the non-empty, order-preserving list of files with that id |
| PxrdCollector.FilterPxrdFilesAppend | src/fair_synthesis/formatting/pxrd_collector.py:82-83 | filtering two lists is filtering each, in order |
| PxrdCollector.FilterPxrdFilesMembers | src/fair_synthesis/formatting/pxrd_collector.py:82-83 | a file is in the filter exactly when it is an input file with the id |
| PxrdReference.NarrowIfAny | src/fair_synthesis/analysis/pxrd.py:20-25 | narrowing keeps the matching references if any match and all references otherwise; it empties only an empty list |
| PxrdReference.ExtractCorrespondingReference | src/fair_synthesis/analysis/pxrd.py:10-34 | the result is None exactly for no references, is a member of them, and has the file's X-ray source whenever some reference does |
| PxrdReference.ReferenceBothMatch | src/fair_synthesis/analysis/pxrd.py:20-34 | when some reference matches source and shape, the first such reference is chosen |
| PxrdReference.ReferenceNoSource | src/fair_synthesis/analysis/pxrd.py:20-34 | with no source match, the first reference of the same shape is chosen, else the first reference |
| PxrdReference.ReferenceSourceOnly | src/fair_synthesis/analysis/pxrd.py:20-34 | when source matches exist but none of them has the shape, the first source match is chosen |
| Roles.RxnRoleToXdlRole | fairsynthesis_data_model/fairsynthesis_data_model/mofsy_utils.py:6-20 | REACTANT maps to SUBSTRATE, PRODUCT alone to None, the other roles to the role of the same value; the ValueError branch is unreachable |
| Roles.RxnRoleInjective | fairsynthesis_data_model/fairsynthesis_data_model/mofsy_utils.py:6-18 | distinct non-product roles map to distinct roles |
| CamelCase.CamelCaseUnchanged | fairsynthesis_data_model/fairsynthesis_data_model/utils.py:71-76 | text without "_" or "-" is returned unchanged |
| CamelCase.CamelCaseShape | fairsynthesis_data_model/fairsynthesis_data_model/utils.py:73-74 | the result has no separator; a converted text starts with a non-upper-case letter and has no spaces |
| CamelCase.CamelCaseIdempotent | fairsynthesis_data_model/fairsynthesis_data_model/utils.py:71-76 | camel-casing twice is camel-casing once |
| CamelCase.CamelCaseIndexError | fairsynthesis_data_model/fairsynthesis_data_model/utils.py:73-74 | IndexError is raised exactly for text with a separator made only of separators and spaces |
| CamelCase.CamelCaseLetters | fairsynthesis_data_model/fairsynthesis_data_model/utils.py:73-74 | camel-casing changes only case: lower-cased, the result is the text's letters without separators and spaces |
| CamelCase.Collapse | fairsynthesis_data_model/fairsynthesis_data_model/utils.py:73 | the split on separators rejoined by spaces has no separator left |
| CamelCase.SkipSeparators | fairsynthesis_data_model/fairsynthesis_data_model/utils.py:73 | leading separators are dropped and nothing else |
| Convert.FromStr | src/fair_synthesis/generated_apis/procedure_data_structure.py:9-11 | accepts exactly strings, returning the string; anything else is an AssertionError |
| Convert.FromNone | src/fair_synthesis/generated_apis/procedure_data_structure.py:14-16 | accepts exactly null |
| Convert.FromFloat | src/fair_synthesis/generated_apis/procedure_data_structure.py:38-40 | accepts ints and floats (not booleans) and returns a float |
| Convert.FromInt | src/fair_synthesis/generated_apis/procedure_data_structure.py:53-55 | accepts exactly ints |
| Convert.FromBool | src/fair_synthesis/generated_apis/procedure_data_structure.py:58-60 | accepts exactly booleans |
| Convert.FromEnum | src/fair_synthesis/generated_apis/procedure_data_structure.py:43-45 | accepts exactly strings naming an enum value, else a ValueError |
| Convert.FromList | src/fair_synthesis/generated_apis/procedure_data_structure.py:28-30 | a non-list is an AssertionError |
| Convert.DecodeAll | src/fair_synthesis/generated_apis/procedure_data_structure.py:28-30 | decoding a list succeeds exactly when every element decodes, keeping order and length |
| Convert.FromUnionSpec | src/fair_synthesis/generated_apis/procedure_data_structure.py:19-25 | a union succeeds exactly when some decoder does, with the first decoder that succeeds; otherwise AssertionError |
| Convert.FromUnionFromSpec | src/fair_synthesis/generated_apis/procedure_data_structure.py:19-25 | the same for the decoders from position k on |
| Convert.FromOptionalSpec | src/fair_synthesis/generated_apis/procedure_data_structure.py:19-25 | the union of a decoder with from_none gives the value, or None for null, or an error |
| Convert.OptionalRoundTrip | src/fair_synthesis/generated_apis/procedure_data_structure.py:84-93 | an optional field written (null when None) is read back as the same option |
| Convert.ListRoundTrip | src/fair_synthesis/generated_apis/procedure_data_structure.py:28-30 | a list written element by element is read back unchanged |
| Convert.DecodeEncodeAll | src/fair_synthesis/generated_apis/procedure_data_structure.py:28-30 | decoding encoded elements gives the decoded elements, in order |
| Convert.Present | src/fair_synthesis/generated_apis/procedure_data_structure.py:84-93 | to_dict keeps exactly the fields whose value is not None, with those values |
| ProcedureSchema.AmountUnitRoundTrip | src/fair_synthesis/generated_apis/procedure_data_structure.py:143-173 | every amount unit is read back from its string value |
| ProcedureSchema.GasRoundTrip | src/fair_synthesis/generated_apis/procedure_data_structure.py:201-203 | the gas enum reads back from its value |
| ProcedureSchema.PressureUnitRoundTrip | src/fair_synthesis/generated_apis/procedure_data_structure.py:205-207 | the pressure unit reads back from its value |
| ProcedureSchema.TempUnitRoundTrip | src/fair_synthesis/generated_apis/procedure_data_structure.py:248-250 | the temperature unit reads back from its value |
| ProcedureSchema.SolventOf | src/fair_synthesis/generated_apis/procedure_data_structure.py:235-246 | a string decodes to a solvent only if it is that solvent's value |
| ProcedureSchema.SolventRoundTrip | src/fair_synthesis/generated_apis/procedure_data_structure.py:235-246 | every solvent reads back from its value |
| ProcedureSchema.XmlTypeOf | src/fair_synthesis/generated_apis/procedure_data_structure.py:304-312 | a string decodes to a step type only if it is that type's value |
| ProcedureSchema.XmlTypeRoundTrip | src/fair_synthesis/generated_apis/procedure_data_structure.py:304-312 | every step type reads back from its value |
| ProcedureSchema.RoleOf | src/fair_synthesis/generated_apis/procedure_data_structure.py:429-439 | a string decodes to a role only if it is that role's value |
| ProcedureSchema.RoleRoundTrip | src/fair_synthesis/generated_apis/procedure_data_structure.py:429-439 | every role reads back from its value |
| ProcedureSchema.OptStrSpec | src/fair_synthesis/generated_apis/procedure_data_structure.py:19-25 | an optional string field accepts a string or null and nothing else |
| ProcedureSchema.AmountUnitOptional | src/fair_synthesis/generated_apis/procedure_data_structure.py:192-198 | an optional amount unit round-trips through its JSON form |
| ProcedureSchema.ComponentToJson | src/fair_synthesis/generated_apis/procedure_data_structure.py:84-93 | to_dict always writes `_id` and writes each optional field exactly when it is present |
| ProcedureSchema.ComponentRoundTrip | src/fair_synthesis/generated_apis/procedure_data_structure.py:63-94 | from_dict(to_dict(c)) == c for components |
| ProcedureSchema.HardwareToJson | src/fair_synthesis/generated_apis/procedure_data_structure.py:96-113 | `Component` is written exactly when present |
| ProcedureSchema.HardwareRoundTrip | src/fair_synthesis/generated_apis/procedure_data_structure.py:96-113 | hardware round-trips |
| ProcedureSchema.MetadataToJson | src/fair_synthesis/generated_apis/procedure_data_structure.py:115-141 | `_description` is always written, product and product InChI exactly when present |
| ProcedureSchema.MetadataRoundTrip | src/fair_synthesis/generated_apis/procedure_data_structure.py:115-141 | metadata round-trips |
| ProcedureSchema.MeasureToJson | src/fair_synthesis/generated_apis/procedure_data_structure.py:192-198 | a measured value always carries `$xml_append` and `Value`, and `Unit` exactly when present |
| ProcedureSchema.QuantityToJson | src/fair_synthesis/generated_apis/procedure_data_structure.py:192-198 | Quantity.to_dict always adds the `$xml_append` template and the value, the unit when present |
| ProcedureSchema.QuantityRoundTrip | src/fair_synthesis/generated_apis/procedure_data_structure.py:175-199 | quantities round-trip (the template is ignored on reading) |
| ProcedureSchema.PressureToJson | src/fair_synthesis/generated_apis/procedure_data_structure.py:209-233 | pressure carries the template, and its unit exactly when present |
| ProcedureSchema.PressureRoundTrip | src/fair_synthesis/generated_apis/procedure_data_structure.py:209-233 | pressures round-trip |
| ProcedureSchema.TemperatureToJson | src/fair_synthesis/generated_apis/procedure_data_structure.py:252-276 | temperature carries the template, and its unit exactly when present |
| ProcedureSchema.TemperatureRoundTrip | src/fair_synthesis/generated_apis/procedure_data_structure.py:252-276 | temperatures round-trip |
| ProcedureSchema.TimeToJson | src/fair_synthesis/generated_apis/procedure_data_structure.py:278-302 | time carries the template, and its unit exactly when present |
| ProcedureSchema.TimeRoundTrip | src/fair_synthesis/generated_apis/procedure_data_structure.py:278-302 | times round-trip |
| ProcedureSchema.StepEntryToJson | src/fair_synthesis/generated_apis/procedure_data_structure.py:359-380 | a step always writes its `$xml_type` and each optional attribute exactly when present |
| ProcedureSchema.StepEntryRoundTrip | src/fair_synthesis/generated_apis/procedure_data_structure.py:314-380 | steps round-trip |
| ProcedureSchema.FromLooseSpec | src/fair_synthesis/generated_apis/procedure_data_structure.py:392 | the loose step union decodes null, booleans, numbers (ints become floats, since from_float comes before from_int), strings, lists and step objects |
| ProcedureSchema.StepNumbers | src/fair_synthesis/generated_apis/procedure_data_structure.py:392 | an int step decodes as a float and a boolean as a boolean |
| ProcedureSchema.LooseRoundTrip | src/fair_synthesis/generated_apis/procedure_data_structure.py:383-398 | loose values read back after writing, up to ints turned into floats |
| ProcedureSchema.FromLooseShape | src/fair_synthesis/generated_apis/procedure_data_structure.py:392 | a decoded loose value is never an int, and an object is a decoded step |
| ProcedureSchema.StepRoundTrip | src/fair_synthesis/generated_apis/procedure_data_structure.py:383-398 | a loose step reads back as its normal form |
| ProcedureSchema.SectionOf | src/fair_synthesis/generated_apis/procedure_data_structure.py:383-398 | a section built from steps holds them, in order, as step objects |
| ProcedureSchema.SectionRoundTrip | src/fair_synthesis/generated_apis/procedure_data_structure.py:383-398 | sections round-trip up to normal form |
| ProcedureSchema.SectionsToJson | src/fair_synthesis/generated_apis/procedure_data_structure.py:419-426 | `Reaction` is always written; `Prep` and `Workup` exactly when present |
| ProcedureSchema.SectionsRoundTrip | src/fair_synthesis/generated_apis/procedure_data_structure.py:401-426 | the three sections round-trip up to normal form |
| ProcedureSchema.ReagentToJson | src/fair_synthesis/generated_apis/procedure_data_structure.py:459-487 | each reagent attribute is written exactly when present |
| ProcedureSchema.ReagentRoundTrip | src/fair_synthesis/generated_apis/procedure_data_structure.py:459-487 | from_dict(to_dict(r)) == r for reagents |
| ProcedureSchema.ReagentsRoundTrip | src/fair_synthesis/generated_apis/procedure_data_structure.py:490-506 | reagent lists round-trip in order |
| ProcedureSchema.ElementToJson | src/fair_synthesis/generated_apis/procedure_data_structure.py:508-537 | a synthesis writes metadata, reagents and procedure, and hardware exactly when present |
| ProcedureSchema.ElementRoundTrip | src/fair_synthesis/generated_apis/procedure_data_structure.py:508-537 | a synthesis round-trips up to normal form |
| ProcedureSchema.ProcedureToJson | src/fair_synthesis/generated_apis/procedure_data_structure.py:539-555 | `Synthesis` is a list of one entry per synthesis |
| ProcedureSchema.ProcedureRoundTrip | src/fair_synthesis/generated_apis/procedure_data_structure.py:539-562 | a procedure document round-trips up to normal form |
| ProcedureSchema.ProcedureReread | src/fair_synthesis/generated_apis/procedure_data_structure.py:557-562 | any decoded document, written and read again, gives the same document |
| ProcedureSchema.ProcedureDecodedNormal | src/fair_synthesis/generated_apis/procedure_data_structure.py:557-562 | decoded documents are already in normal form |
| CharacterizationSchema.UnitOf | src/fair_synthesis/generated_apis/characterization_data_structure.py:53-60 | a string decodes to a unit only if it is that unit's value |
| CharacterizationSchema.UnitRoundTrip | src/fair_synthesis/generated_apis/characterization_data_structure.py:53-60 | every unit reads back from its value |
| CharacterizationSchema.SampleHolderTypeOf | src/fair_synthesis/generated_apis/characterization_data_structure.py:84-87 | a string decodes to a holder type only if it is that type's value |
| CharacterizationSchema.SampleHolderTypeRoundTrip | src/fair_synthesis/generated_apis/characterization_data_structure.py:84-87 | every holder type reads back |
| CharacterizationSchema.XRaySourceOf | src/fair_synthesis/generated_apis/characterization_data_structure.py:111-114 | a string decodes to a source only if it is that source's value |
| CharacterizationSchema.XRaySourceRoundTrip | src/fair_synthesis/generated_apis/characterization_data_structure.py:111-114 | every X-ray source reads back |
| CharacterizationSchema.QuantityFromJsonSpec | src/fair_synthesis/generated_apis/characterization_data_structure.py:70-75 | a quantity decodes exactly from an object with an enum unit and a numeric, non-boolean value; a bad unit is a ValueError, anything else an AssertionError |
| CharacterizationSchema.QuantityToJson | src/fair_synthesis/generated_apis/characterization_data_structure.py:62-82 | writes exactly `Unit` and `Value` |
| CharacterizationSchema.QuantityRoundTrip | src/fair_synthesis/generated_apis/characterization_data_structure.py:62-82 | quantities round-trip |
| CharacterizationSchema.SampleHolderToJson | src/fair_synthesis/generated_apis/characterization_data_structure.py:89-109 | writes exactly `Diameter` and `Type` |
| CharacterizationSchema.SampleHolderRoundTrip | src/fair_synthesis/generated_apis/characterization_data_structure.py:89-109 | sample holders round-trip |
| CharacterizationSchema.PxrdToJson | src/fair_synthesis/generated_apis/characterization_data_structure.py:147-155 | writes path, holder and source, and `OtherMetadata` exactly when present |
| CharacterizationSchema.PxrdRoundTrip | src/fair_synthesis/generated_apis/characterization_data_structure.py:116-156 | PXRD entries round-trip |
| CharacterizationSchema.WeighingToJson | src/fair_synthesis/generated_apis/characterization_data_structure.py:158-174 | writes exactly `Weight` |
| CharacterizationSchema.WeighingRoundTrip | src/fair_synthesis/generated_apis/characterization_data_structure.py:158-174 | weighings round-trip |
| CharacterizationSchema.ClassToJson | src/fair_synthesis/generated_apis/characterization_data_structure.py:176-197 | writes exactly `Pxrd` and `Weight` |
| CharacterizationSchema.ClassRoundTrip | src/fair_synthesis/generated_apis/characterization_data_structure.py:176-197 | characterizations round-trip with list order preserved |
| CharacterizationSchema.EntryToJson | src/fair_synthesis/generated_apis/characterization_data_structure.py:210-223 | writes exactly `Characterization` and `ExperimentId`, the id as a string |
| CharacterizationSchema.EntryRoundTrip | src/fair_synthesis/generated_apis/characterization_data_structure.py:199-224 | from_dict(to_dict(e)) == e for characterization entries |
| CharacterizationSchema.CharacterizationToJson | src/fair_synthesis/generated_apis/characterization_data_structure.py:236-248 | writes one entry per characterization entry, in order |
| CharacterizationSchema.CharacterizationRoundTrip | src/fair_synthesis/generated_apis/characterization_data_structure.py:226-256 | characterization documents round-trip with list order preserved |
| Strings.ZFillNat | src/fair_synthesis/formatting/sciformation2mofsy.py:33-34 | zero-padding a number keeps its digits and value and reaches at least the width |
| ElnToMofsy.CodeOrDefault | src/fair_synthesis/formatting/sciformation2mofsy.py:33-34 | an empty or missing experiment code falls back to the default code; a non-empty code is used as it is |
| ElnToMofsy.ExperimentId | src/fair_synthesis/formatting/sciformation2mofsy.py:33-34 | the id is the code, "-", and at least three characters of number |
| ElnToMofsy.ExperimentIdDigits | src/fair_synthesis/formatting/sciformation2mofsy.py:33-34 | after the prefix come at least three digits whose value is the lab-journal number |
| ElnToMofsy.ExperimentIdInjective | src/fair_synthesis/formatting/sciformation2mofsy.py:33-34 | different numbers under the same code give different ids |
| ElnToMofsy.FormatAmountMole | src/fair_synthesis/formatting/sciformation2mofsy.py:190-193 | amounts are micromoles, −1 when missing, otherwise the mole amount × 10⁶; positive exactly for a positive amount |
| ElnToMofsy.FormatAmountVolume | src/fair_synthesis/formatting/sciformation2mofsy.py:195-200 | volumes are microlitres, −1 when missing, otherwise the millilitres × 1000; positive exactly for a positive volume |
| ElnToMofsy.ComponentAmount | src/fair_synthesis/formatting/sciformation2mofsy.py:86-95 | solvents are measured by volume and other components by amount, positive exactly when the measured quantity is |
| ElnToMofsy.AddedSpec | src/fair_synthesis/formatting/sciformation2mofsy.py:86-95 | a component gets an Add step exactly when it is no product and its measured quantity is positive; a missing one gives no step |
| ElnToMofsy.RinseSteps | src/fair_synthesis/formatting/sciformation2mofsy.py:109-114 | one wash per rinse solvent in order; a name that is not a solvent value raises ValueError |
| ElnToMofsy.BuildPrep | src/fair_synthesis/formatting/sciformation2mofsy.py:86-101 | the preparation loop builds the specified Add steps and the optional degassing step |
| ElnToMofsy.BuildRinse | src/fair_synthesis/formatting/sciformation2mofsy.py:109-114 | the rinse loop builds the specified washes or fails as specified |
| ElnToMofsy.BuildWorkup | src/fair_synthesis/formatting/sciformation2mofsy.py:109-131 | the workup code builds the specified workup |
| ElnToMofsy.ConstructProcedure | src/fair_synthesis/formatting/sciformation2mofsy.py:79-139 | construct_procedure returns the specified three sections, or the ValueError of a bad solvent |
| ElnToMofsy.PrepSteps | src/fair_synthesis/formatting/sciformation2mofsy.py:86-101 | Prep is one Add per added component, in order, then EvacuateAndRefill exactly when degassing is set |
| ElnToMofsy.ReactionSingleHeatChill | src/fair_synthesis/formatting/sciformation2mofsy.py:103-107 | Reaction is exactly one HeatChill step with the given temperature and time |
| ElnToMofsy.WorkupOrder | src/fair_synthesis/formatting/sciformation2mofsy.py:109-131 | Workup is the rinse washes, then Wait, then the wash_solid wash, then Dry, each when its field is set |
| ElnToMofsy.InvalidSolventFails | src/fair_synthesis/formatting/sciformation2mofsy.py:109-126 | a rinse or wash solvent that is no solvent value makes the construction fail with ValueError |
| ElnToMofsy.ConstructReagents | src/fair_synthesis/formatting/sciformation2mofsy.py:142-164 | construct_reagents returns the specified reagent list |
| ElnToMofsy.ReagentsSpec | src/fair_synthesis/formatting/sciformation2mofsy.py:142-164 | reagents are the non-product components, in order, each with its mapped role and name as id |
| ElnToMofsy.ReagentsNoProduct | src/fair_synthesis/formatting/sciformation2mofsy.py:142-164 | without products there is one reagent per component |
| MilToMofsy.FormatTemperature | src/fair_synthesis/formatting/mil2mofsy.py:269-274 | a temperature is read exactly for units "C", "°C" and "deg C", in Celsius with "RT" read as 25; other units raise ValueError |
| MilToMofsy.FormatMassTable | src/fair_synthesis/formatting/mil2mofsy.py:276-284 | a missing mass or unit gives −1 without a unit; "mg" and "mmol" map to their units; any other unit raises ValueError |
| MilToMofsy.FormatAmountVolumeTable | src/fair_synthesis/formatting/mil2mofsy.py:287-297 | a volume is read exactly for the listed units (case-insensitive), with the value as given (the two-place rounding is listed under Left out); others raise ValueError |
| MilToMofsy.FormatAmountVolumeCaseInsensitive | src/fair_synthesis/formatting/mil2mofsy.py:287-297 | units differing only in case give the same result |
| MilToMofsy.FormatTimeAlias | src/fair_synthesis/formatting/mil2mofsy.py:299-311 | every alias maps to its unit (hour, minute, second, day) |
| MilToMofsy.FormatTimeUnknown | src/fair_synthesis/formatting/mil2mofsy.py:299-311 | a unit that is no alias raises ValueError |
| MilToMofsy.FormatLengthAsWritten | src/fair_synthesis/formatting/mil2mofsy.py:313-321 | as written, a length needs a trailing "m" (else ValueError); a cm length keeps the unit centimetre and any other non-mm length the unit metre |
| MilToMofsy.FormatLengthAsWrittenScalesTwice | src/fair_synthesis/formatting/mil2mofsy.py:313-321 | as written, "1cm" gives 10 labelled centimetres, which is 100 mm |
| MilToMofsy.FormatLength | src/fair_synthesis/formatting/mil2mofsy.py:313-321 | a corrected length is in millimetres and needs a trailing "m"; anything else raises ValueError |
| MilToMofsy.FormatLengthMeaning | src/fair_synthesis/formatting/mil2mofsy.py:313-321 | the corrected length of x mm, x cm or x m is x, 10x or 1000x millimetres |
| MilToMofsy.XRaySourceByName | src/fair_synthesis/formatting/mil2mofsy.py:228 | a source is found by name exactly when some source has that name |
| MilToMofsy.XRaySourceOfFileChars | src/fair_synthesis/formatting/mil2mofsy.py:228 | a file's source is found exactly when upper-casing it with spaces and "-" as "_" gives the name |
| MilToMofsy.PxrdEntry | src/fair_synthesis/formatting/mil2mofsy.py:227-238 | an entry keeps the path and other metadata, needs a diameter and a known holder shape, and takes the source found by name and the diameter as format_length writes it (cm and m values scaled but keeping their unit) |
| MilToMofsy.PxrdEntryCentimetreDiameter | src/fair_synthesis/formatting/mil2mofsy.py:227-238 | a file with diameter "1cm" and known source and shape is recorded with 10 centimetres |
| MilToMofsy.PxrdEntries | src/fair_synthesis/formatting/mil2mofsy.py:226-238 | all files convert or the first failure is returned; one entry per file in order, each the file's entry with its as-written diameter |
| MilToMofsy.CollectPxrd | src/fair_synthesis/formatting/mil2mofsy.py:224-239 | the collecting loop returns the specified entries, with as-written diameters |
| MilToMofsy.ExperimentPxrdFiles | src/fair_synthesis/formatting/mil2mofsy.py:224-239 | every entry comes from a file of this experiment, with its path |
| MilToMofsy.MilPrep | src/fair_synthesis/formatting/mil2mofsy.py:97-160 | Prep is three Adds (metal salt, linker, solvent) plus a fourth for a modulator, all in the experiment's vial |
| MilToMofsy.MilReagentRoles | src/fair_synthesis/formatting/mil2mofsy.py:57-90 | reagents start as SUBSTRATE, LIGAND, SOLVENT, SOLVENT, and a modulator appends a REAGENT |
| MilToMofsy.MilPrepReagents | src/fair_synthesis/formatting/mil2mofsy.py:97-160 | every Add step names a listed reagent |
| MilToMofsy.BuildPrep | src/fair_synthesis/formatting/mil2mofsy.py:57-160 | the appending code builds the specified reagents and Prep steps |
| MilToMofsy.Conversions | src/fair_synthesis/formatting/mil2mofsy.py:22-264 | converting succeeds exactly when every experiment converts, one synthesis and one characterization per experiment in order; PXRD diameters are as format_length writes them |
| MilToMofsy.ConvertExperiment | src/fair_synthesis/formatting/mil2mofsy.py:22-256 | the body of the converter loop returns the specified pair, PXRD diameters as written |
| MilToMofsy.ConvertMil | src/fair_synthesis/formatting/mil2mofsy.py:22-264 | the converter loop returns the specified lists, PXRD diameters as written |
| MilToMofsy.ConversionsIds | src/fair_synthesis/formatting/mil2mofsy.py:241-256 | synthesis description and characterization id are both the vial number |
| MilToMofsy.UnknownWashingSolventFails | src/fair_synthesis/formatting/mil2mofsy.py:190-215 | a washing solvent that is no solvent value raises ValueError |
| ElnCleaner.AddProperty | src/fair_synthesis/formatting/sciformation_cleaner.py:79-81 | a property adds at most a whitelisted camel-cased key, and all other keys keep their values |
| ElnCleaner.PropertiesKeys | src/fair_synthesis/formatting/sciformation_cleaner.py:77-81 | after all properties, keys are the base keys or whitelisted property keys, and other base keys are unchanged |
| ElnCleaner.CleanComponent | src/fair_synthesis/formatting/sciformation_cleaner.py:86-91 | a cleaned component keeps only whitelisted, non-null attributes with their values |
| ElnCleaner.CleanedItemKeys | src/fair_synthesis/formatting/sciformation_cleaner.py:71-94 | a cleaned item has only whitelisted, property or `reactionComponents` keys and keeps every whitelisted non-null attribute |
| ElnCleaner.ItemNamesUnchanged | src/fair_synthesis/formatting/sciformation_cleaner.py:74-75 | camel-casing leaves the whitelisted item keys unchanged |
| ElnCleaner.AsWrittenItemNamesUnchanged | src/fair_synthesis/formatting/sciformation_cleaner.py:74-75 | camel-casing leaves the item keys as written unchanged too, the joined "modifierreactionTitle" included |
| ElnCleaner.IntendedKeepsComponentNames | src/fair_synthesis/formatting/sciformation_cleaner.py:49-51 | with the commas restored, a component with set "measured", "elnReaction" and "cdbMolecule" keeps the three values |
| ElnCleaner.KeepWhitelisted | src/fair_synthesis/formatting/sciformation_cleaner.py:72-75 | the key loop keeps exactly the specified whitelisted entries |
| ElnCleaner.AddProperties | src/fair_synthesis/formatting/sciformation_cleaner.py:77-81 | the property loop gives the specified fold |
| ElnCleaner.CleanItem | src/fair_synthesis/formatting/sciformation_cleaner.py:71-94 | clean_item returns the specified cleaned item |
| ElnCleaner.CleanedDataShape | src/fair_synthesis/formatting/sciformation_cleaner.py:63-69 | cleaned data is no longer than the input, holds no empty item, and every item is the cleaning of an input item |
| ElnCleaner.CleanedDataDropsEmpty | src/fair_synthesis/formatting/sciformation_cleaner.py:66-68 | an item that cleans to nothing is dropped |
| ElnCleaner.CleanData | src/fair_synthesis/formatting/sciformation_cleaner.py:63-69 | clean_data returns the specified list |
| ElnCleaner.RoleName | src/fair_synthesis/formatting/sciformation_cleaner.py:101 | role codes map to a role name; a list or dict code is unhashable and fails |
| ElnCleaner.MappedRoleCodes | src/fair_synthesis/formatting/sciformation_cleaner.py:56-61 | codes 1, 2, 3, 6 map to distinct names and every other code to "unknown" |
| ElnCleaner.ConvertComponent | src/fair_synthesis/formatting/sciformation_cleaner.py:100-103 | a component gets its mapped role name and massUnit "g", other keys unchanged; a missing rxnRole is a KeyError |
| ElnCleaner.ConvertItem | src/fair_synthesis/formatting/sciformation_cleaner.py:99-110 | every item gains durationUnit "h" and temperatureUnit "C"; a reactionStartedWhen number becomes the date formatted from its value in seconds; the keys other than components, units and start time are unchanged; a missing component list is a KeyError |
| ElnCleaner.StartSeconds | src/fair_synthesis/formatting/sciformation_cleaner.py:109 | dividing the start time by 1000 fails with TypeError exactly for values that are not numbers (booleans count as 0 and 1) |
| ElnCleaner.ConvertItemStartTime | src/fair_synthesis/formatting/sciformation_cleaner.py:107-110 | a start time given as text raises TypeError; a record without start time gains none |
| ElnCleaner.ConvertedComponents | src/fair_synthesis/formatting/sciformation_cleaner.py:97-111 | every converted component carries a role name and massUnit "g" |
| ElnCleaner.ApplyConversions | src/fair_synthesis/formatting/sciformation_cleaner.py:97-111 | apply_conversions returns the specified data |
| ElnCleaner.ConvertRecord | src/fair_synthesis/formatting/sciformation_cleaner.py:100-110 | the loop body for one record converts it exactly as ConvertItem says: its components, the duration and temperature units, then the start time |
| ElnCleaner.Truncated | src/fair_synthesis/formatting/sciformation_cleaner.py:124-125 | a positive maximum truncates to that prefix; otherwise nothing is cut |
| ElnCleaner.CleanedElnShape | src/fair_synthesis/formatting/sciformation_cleaner.py:114-131 | the result holds only "experiments", a list of at most the maximum entries when positive |
| ElnCleaner.CleanSciformationEln | src/fair_synthesis/formatting/sciformation_cleaner.py:114-131 | clean_sciformation_eln returns the specified result |
| ElnCleaner.AsWrittenDropsRecordNames | src/fair_synthesis/formatting/sciformation_cleaner.py:14-15 | as written, "modifier" and "reactionTitle" are never kept |
| ElnCleaner.AsWrittenDropsComponentNames | src/fair_synthesis/formatting/sciformation_cleaner.py:49-51 | as written, "measured", "elnReaction" and "cdbMolecule" are never kept |
| ElnCleaner.AsWrittenDropsSolventAmount | src/fair_synthesis/formatting/sciformation_cleaner.py:25-26 | as written, a "solventAmount" property is never kept |
| ElnCleaner.IntendedKeepsNames | src/fair_synthesis/formatting/sciformation_cleaner.py:14-15 | with the commas in place, set "modifier" and "reactionTitle" are kept |
| ElnCleaner.IntendedKeepsSolventAmount | src/fair_synthesis/formatting/sciformation_cleaner.py:25-26 | with the comma in place, "solventAmount" is kept with its string value |
| ElnCleanerMocof1.OnlyBeforeXrd | fairsynthesis_data_model/fairsynthesis_data_model/use_case_specific/sciformation_cleaner_mocof1.py:22 | only the stripped text before the first "XRD" is examined |
| ElnCleanerMocof1.AnnotatedVesselUnknown | fairsynthesis_data_model/fairsynthesis_data_model/use_case_specific/sciformation_cleaner_mocof1.py:28-33 | without a vessel keyword the item raises ValueError |
| ElnCleanerMocof1.AnnotatedVessel | fairsynthesis_data_model/fairsynthesis_data_model/use_case_specific/sciformation_cleaner_mocof1.py:28-33 | an annotated item had a vessel keyword; "microwave vial" wins over the Schlenk keywords |
| ElnCleanerMocof1.AnnotatedDegassing | fairsynthesis_data_model/fairsynthesis_data_model/use_case_specific/sciformation_cleaner_mocof1.py:38-39 | degassing becomes "Ar" when "fpt" or "ar replace" occurs, otherwise it is untouched |
| ElnCleanerMocof1.AnyNameContainsSpec | fairsynthesis_data_model/fairsynthesis_data_model/use_case_specific/sciformation_cleaner_mocof1.py:46-47 | the test over components is true exactly when some component name contains the key |
| ElnCleanerMocof1.RinseStepSpec | fairsynthesis_data_model/fairsynthesis_data_model/use_case_specific/sciformation_cleaner_mocof1.py:45-50 | one rinse test appends the solvent exactly when wanted |
| ElnCleanerMocof1.RinsedSpec | fairsynthesis_data_model/fairsynthesis_data_model/use_case_specific/sciformation_cleaner_mocof1.py:45-50 | rinse lists, in table order, the solvents mentioned in the text and absent from every component name |
| ElnCleanerMocof1.RinsedUnnamed | fairsynthesis_data_model/fairsynthesis_data_model/use_case_specific/sciformation_cleaner_mocof1.py:45-50 | a text naming no rinse solvent leaves the item unchanged |
| ElnCleanerMocof1.RinsedFrame | fairsynthesis_data_model/fairsynthesis_data_model/use_case_specific/sciformation_cleaner_mocof1.py:45-50 | the rinse loop changes only "rinse" |
| ElnCleanerMocof1.AnnotatedRinse | fairsynthesis_data_model/fairsynthesis_data_model/use_case_specific/sciformation_cleaner_mocof1.py:45-50 | "rinse" is added exactly when some solvent is wanted, listing the wanted solvents |
| ElnCleanerMocof1.AnnotatedWait | fairsynthesis_data_model/fairsynthesis_data_model/use_case_specific/sciformation_cleaner_mocof1.py:53-55 | wait_after_rinse is 24 h when "soxhlet" or "open to air" occurs, otherwise untouched |
| ElnCleanerMocof1.AnnotatedWash | fairsynthesis_data_model/fairsynthesis_data_model/use_case_specific/sciformation_cleaner_mocof1.py:60-63 | "MeOH+scCO2" overrides "scCO2"; with neither keyword wash_solid is untouched |
| ElnCleanerMocof1.EvaporatesMeaning | fairsynthesis_data_model/fairsynthesis_data_model/use_case_specific/sciformation_cleaner_mocof1.py:69-75 | evaporation is detected exactly when "vacuum" occurs between the first and the next "scCO" |
| ElnCleanerMocof1.AnnotatedEvaporate | fairsynthesis_data_model/fairsynthesis_data_model/use_case_specific/sciformation_cleaner_mocof1.py:69-75 | evaporate is set to true when detected, otherwise untouched |
| ElnCleanerMocof1.RinseLoop | fairsynthesis_data_model/fairsynthesis_data_model/use_case_specific/sciformation_cleaner_mocof1.py:45-50 | the rinse loop gives the specified item |
| ElnCleanerMocof1.Annotate | fairsynthesis_data_model/fairsynthesis_data_model/use_case_specific/sciformation_cleaner_mocof1.py:24-75 | the keyword annotation gives the specified item |
| ElnCleanerMocof1.ProcessItem | fairsynthesis_data_model/fairsynthesis_data_model/use_case_specific/sciformation_cleaner_mocof1.py:18-75 | one item of the realization-text loop becomes the specified item |
| ElnCleanerMocof1.ProcessRealizationText | fairsynthesis_data_model/fairsynthesis_data_model/use_case_specific/sciformation_cleaner_mocof1.py:12-75 | process_realization_text processes every item, stopping at the first error |
| ElnCleanerMocof1.WithComponentsSpec | fairsynthesis_data_model/fairsynthesis_data_model/use_case_specific/sciformation_cleaner_mocof1.py:79 | a component update changes only reactionComponents, component by component |
| ElnCleanerMocof1.FixedInchiSpec | fairsynthesis_data_model/fairsynthesis_data_model/use_case_specific/sciformation_cleaner_mocof1.py:77-82 | a component named "DO" gets the dioxane InChI and nothing else changes; other components are untouched; fixing twice is fixing once |
| ElnCleanerMocof1.DetailedRoleSpec | fairsynthesis_data_model/fairsynthesis_data_model/use_case_specific/sciformation_cleaner_mocof1.py:109-115 | only reagent and solvent roles change, to "acid" or "catalyst" by empirical formula; nothing else changes |
| ElnCleanerMocof1.DetailedRoleIdempotent | fairsynthesis_data_model/fairsynthesis_data_model/use_case_specific/sciformation_cleaner_mocof1.py:109-115 | refining roles twice is refining once |
| ElnCleanerMocof1.UpdateComponents | fairsynthesis_data_model/fairsynthesis_data_model/use_case_specific/sciformation_cleaner_mocof1.py:79-82 | the component loop gives the specified item |
| ElnCleanerMocof1.ForEachComponent | fairsynthesis_data_model/fairsynthesis_data_model/use_case_specific/sciformation_cleaner_mocof1.py:77-82 | the item loop updates every item as specified |
| ElnCleanerMocof1.ProcessDataUseCaseSpecific | fairsynthesis_data_model/fairsynthesis_data_model/use_case_specific/sciformation_cleaner_mocof1.py:2-10 | the three passes run in order and give the specified data |
| ElnCleanerMocof1.AsWrittenRinseRejected | fairsynthesis_data_model/fairsynthesis_data_model/use_case_specific/sciformation_cleaner_mocof1.py:45-50 | as written, only the first recorded rinse name is a solvent value |
| ElnCleanerMocof1.IntendedRinseAccepted | fairsynthesis_data_model/fairsynthesis_data_model/use_case_specific/sciformation_cleaner_mocof1.py:45-50 | the corrected table has the same keys and every recorded name is a solvent value |
| JsonMerge.MergedKeys | src/fair_synthesis/formatting/sciformation_text_extractor_llm_mocof1.py:74-96 | the merged keys are those of record and diff; keys absent from the diff keep their values |
| JsonMerge.EmptyDiffIdentity | src/fair_synthesis/formatting/sciformation_text_extractor_llm_mocof1.py:75 | an empty diff changes nothing |
| JsonMerge.MergedOverwrites | src/fair_synthesis/formatting/sciformation_text_extractor_llm_mocof1.py:93-95 | a diff value that is not a dict or list of the same kind as the old value replaces or adds the key |
| JsonMerge.MergedListShape | src/fair_synthesis/formatting/sciformation_text_extractor_llm_mocof1.py:80-91 | lists merge element-wise to the longer length: a longer record keeps its tail, extra diff items are appended, non-dict items replace |
| JsonMerge.MergedValueSelf | src/fair_synthesis/formatting/sciformation_text_extractor_llm_mocof1.py:74-96 | merging a value into itself changes nothing |
| JsonMerge.MergedValueTwice | src/fair_synthesis/formatting/sciformation_text_extractor_llm_mocof1.py:74-96 | applying the same diff twice is applying it once |
| JsonMerge.Merge | src/fair_synthesis/formatting/sciformation_text_extractor_llm_mocof1.py:74-96 | the key loop gives the specified merge, with nested dicts merged recursively |
| JsonMerge.MergeValue | src/fair_synthesis/formatting/sciformation_text_extractor_llm_mocof1.py:76-95 | one key's new value is the specified merged value |
| JsonMerge.MergeList | src/fair_synthesis/formatting/sciformation_text_extractor_llm_mocof1.py:80-91 | the list loop gives the specified merged list |
| JsonMerge.ApplyDiff | src/fair_synthesis/formatting/sciformation_text_extractor_llm_mocof1.py:66-98 | apply_diff returns the record with the diff merged in |
| ParamTable.TableMonomers | fairsynthesis_data_model/fairsynthesis_data_model/extract_interesting_params.py:44-67 | the table holds the aminoporphyrin and aldehyde structure and amounts found |
| ParamTable.TableAcid | fairsynthesis_data_model/fairsynthesis_data_model/extract_interesting_params.py:101-115 | the table holds acid name, pKa and amount |
| ParamTable.TableAdditivesDegassing | fairsynthesis_data_model/fairsynthesis_data_model/extract_interesting_params.py:118-167 | the table holds the other additives and the degassing flag |
| ParamTable.TableBrineActivation | fairsynthesis_data_model/fairsynthesis_data_model/extract_interesting_params.py:180-188 | the table holds the NaCl workup and scCO2 activation flags |
| ParamTable.TableMethanolVacuum | fairsynthesis_data_model/fairsynthesis_data_model/extract_interesting_params.py:183-191 | the table holds the MeOH-in-scCO2 and vacuum activation flags |
| ParamTable.TableSlots | fairsynthesis_data_model/fairsynthesis_data_model/extract_interesting_params.py:132-158 | every solvent slot entry of the group is in the table |
| ParamTable.TableVessel | fairsynthesis_data_model/fairsynthesis_data_model/extract_interesting_params.py:161-164 | the vessel appears exactly when one is used |
| ParamTable.TableTemperature | fairsynthesis_data_model/fairsynthesis_data_model/extract_interesting_params.py:170-177 | the temperature appears exactly when known |
| ParamTable.TableDuration | fairsynthesis_data_model/fairsynthesis_data_model/extract_interesting_params.py:170-177 | the duration appears exactly when known |
| InterestingParams.Pick | fairsynthesis_data_model/fairsynthesis_data_model/extract_interesting_params.py:44-54 | a search gives the reagent found; the model as written fails exactly when nothing is found |
| InterestingParams.FindStep | fairsynthesis_data_model/fairsynthesis_data_model/extract_interesting_params.py:47-50 | a found step satisfies the search and is a step of the section |
| InterestingParams.FindStepObjects | fairsynthesis_data_model/fairsynthesis_data_model/extract_interesting_params.py:47-50 | over step objects the search succeeds, finding a step exactly when one satisfies it |
| InterestingParams.UmolAmount | fairsynthesis_data_model/fairsynthesis_data_model/extract_interesting_params.py:70-78 | an amount is −1 or the value of a µmol step of that reagent |
| InterestingParams.MissingStepAmount | fairsynthesis_data_model/fairsynthesis_data_model/extract_interesting_params.py:70-78 | without a step for the reagent, as written the attribute access raises; intended, the amount is −1 |
| InterestingParams.SecondPiece | fairsynthesis_data_model/fairsynthesis_data_model/extract_interesting_params.py:84-90 | a missing InChI raises on split; otherwise the second "/" piece exists exactly when the InChI has a "/" |
| InterestingParams.Structure | fairsynthesis_data_model/fairsynthesis_data_model/extract_interesting_params.py:84-90 | an InChI without the standard prefix is its own structure; a missing one fails |
| InterestingParams.AcidOf | fairsynthesis_data_model/fairsynthesis_data_model/extract_interesting_params.py:81-99 | a mapped acid structure gives its name and pKa; an unmapped one gives ("unknown", −100.0) |
| InterestingParams.AcidLookup | fairsynthesis_data_model/fairsynthesis_data_model/extract_interesting_params.py:101-115 | the table's acid name and pKa are the lookup of the acid's structure, ("unknown", −100) when unmapped |
| InterestingParams.NoAcid | fairsynthesis_data_model/fairsynthesis_data_model/extract_interesting_params.py:101-115 | without an acid, as written the attribute access raises; intended, the acid is unknown |
| InterestingParams.SolventInchi | fairsynthesis_data_model/fairsynthesis_data_model/extract_interesting_params.py:135-136 | an entry with InChI "None" and formula C4H8O2 is looked up as 1,4-dioxane (slot 1); every other entry keeps its InChI |
| InterestingParams.Assigned | fairsynthesis_data_model/fairsynthesis_data_model/extract_interesting_params.py:132-144 | assigning a slot names it and changes no other entry |
| InterestingParams.IntoFree | fairsynthesis_data_model/fairsynthesis_data_model/extract_interesting_params.py:146-152 | a taken slot is left as it is |
| InterestingParams.FillSlot | fairsynthesis_data_model/fairsynthesis_data_model/extract_interesting_params.py:155-158 | filling names a missing slot "none" with volume 0.0 and leaves a named slot unchanged |
| InterestingParams.FillSlotFrame | fairsynthesis_data_model/fairsynthesis_data_model/extract_interesting_params.py:155-158 | filling a slot keeps every other entry and adds only that slot's name and volume |
| InterestingParams.FilledSlotsSpec | fairsynthesis_data_model/fairsynthesis_data_model/extract_interesting_params.py:155-158 | after filling every slot 1-3 is named, missing ones as "none" with 0.0, named ones unchanged |
| InterestingParams.SolventParamsSpec | fairsynthesis_data_model/fairsynthesis_data_model/extract_interesting_params.py:125-158 | the solvent entries hold only slot keys and every slot 1-3 is named |
| InterestingParams.SolventSlotsNamed | fairsynthesis_data_model/fairsynthesis_data_model/extract_interesting_params.py:155-158 | every extracted table names solvent slots 1-3 |
| InterestingParams.WorkupGroup | fairsynthesis_data_model/fairsynthesis_data_model/extract_interesting_params.py:180-191 | MeOH in scCO2 is only reported together with scCO2 activation |
| InterestingParams.WorkupMeaning | fairsynthesis_data_model/fairsynthesis_data_model/extract_interesting_params.py:180-191 | the NaCl, scCO2 and MeOH flags are true exactly when a workup wash uses those solvents |
| InterestingParams.MeOHNeedsScCO2 | fairsynthesis_data_model/fairsynthesis_data_model/extract_interesting_params.py:183-188 | MeOH_in_scCO2_activation is true only if scCO2 activation is true |
| InterestingParams.DegassingMeaning | fairsynthesis_data_model/fairsynthesis_data_model/extract_interesting_params.py:167 | degassing is true exactly when the prep section has an EvacuateAndRefill step |
| InterestingParams.WaterAbsent | fairsynthesis_data_model/fairsynthesis_data_model/extract_interesting_params.py:70-78 | without a water reagent the water amount is 0.0 |
| InterestingParams.WaterNotInMicromoles | fairsynthesis_data_model/fairsynthesis_data_model/extract_interesting_params.py:70-78 | with water but no µmol Add step the water amount is −1.0 |
| InterestingParams.OthersNoRoom | fairsynthesis_data_model/fairsynthesis_data_model/extract_interesting_params.py:146-152 | with slots 1 and 2 taken, other solvents change nothing |
| InterestingParams.TableOfGroups | fairsynthesis_data_model/fairsynthesis_data_model/extract_interesting_params.py:155-193 | the extracted table is the table of the parameter groups |
| InterestingParams.GroupsOfSpec | fairsynthesis_data_model/fairsynthesis_data_model/extract_interesting_params.py:40-191 | the groups are the results of each group's extraction |
| InterestingParams.ExtractedEntries | fairsynthesis_data_model/fairsynthesis_data_model/extract_interesting_params.py:8-195 | the result keys are experiment ids, each holding the table of the last synthesis with that id |
| InterestingParams.AsWrittenNoAminoporphyrinFails | fairsynthesis_data_model/fairsynthesis_data_model/extract_interesting_params.py:44-54 | as written, without an aminoporphyrin the extraction raises AttributeError |
| InterestingParams.IntendedNoAminoporphyrinUnknown | fairsynthesis_data_model/fairsynthesis_data_model/extract_interesting_params.py:44-54 | intended, without an aminoporphyrin its type is "unknown" and its amount −1 |
| InterestingParams.AsWrittenFirstOtherTakesBoth | fairsynthesis_data_model/fairsynthesis_data_model/extract_interesting_params.py:146-152 | as written, the first other solvent fills slots 1 and 2 |
| InterestingParams.IntendedOthersOnePerSlot | fairsynthesis_data_model/fairsynthesis_data_model/extract_interesting_params.py:146-152 | intended, two other solvents take one slot each, in order |
| InterestingParams.KnownSolventsLoop | fairsynthesis_data_model/fairsynthesis_data_model/extract_interesting_params.py:132-144 | the known-solvent loop gives the specified slots |
| InterestingParams.OthersLoop | fairsynthesis_data_model/fairsynthesis_data_model/extract_interesting_params.py:146-152 | the other-solvent loop gives the specified slots |
| InterestingParams.FillLoop | fairsynthesis_data_model/fairsynthesis_data_model/extract_interesting_params.py:155-158 | the filling loop gives the specified filled slots |
| InterestingParams.SolventSlots | fairsynthesis_data_model/fairsynthesis_data_model/extract_interesting_params.py:125-158 | the three solvent loops give the specified solvent entries |
| InterestingParams.ExperimentParamsOf | fairsynthesis_data_model/fairsynthesis_data_model/extract_interesting_params.py:40-193 | one experiment's code gives the specified table |
| InterestingParams.ExtractInterestingParams | fairsynthesis_data_model/fairsynthesis_data_model/extract_interesting_params.py:8-195 | the loop over syntheses gives the specified id-keyed tables |
| MofsyApi.SynthesisById | src/fair_synthesis/formatting/mofsy_api.py:45-51 | the result is a synthesis with that description, or None exactly when there is none |
| MofsyApi.SynthesisByIdFirst | src/fair_synthesis/formatting/mofsy_api.py:45-51 | the synthesis found is the first with that description |
| MofsyApi.CharacterizationById | src/fair_synthesis/formatting/mofsy_api.py:54-60 | the result is an entry with that id, or None exactly when there is none |
| MofsyApi.CharacterizationByIdFirst | src/fair_synthesis/formatting/mofsy_api.py:54-60 | the entry found is the first with that id |
| MofsyApi.ParamsById | src/fair_synthesis/formatting/mofsy_api.py:63-65 | the parameters of an id are present exactly when the id is a key |
| MofsyApi.ReagentByName | src/fair_synthesis/formatting/mofsy_api.py:68-74 | the result is a reagent of that name, or None exactly when there is none |
| MofsyApi.RoleValueInjective | src/fair_synthesis/formatting/mofsy_api.py:82 | comparing role values is comparing roles |
| MofsyApi.ReagentsWithRole | src/fair_synthesis/formatting/mofsy_api.py:80-84 | the loop succeeds exactly when every reagent has a role (else AttributeError), giving the order-preserving filter on the role |
| MofsyApi.ReagentsByRole | src/fair_synthesis/formatting/mofsy_api.py:77-85 | the result is exactly the reagents with that role |
| MofsyApi.ReagentsWithRoleAppend | src/fair_synthesis/formatting/mofsy_api.py:77-85 | the filter of two lists is the filter of each, in order |
| MofsyApi.ProductName | src/fair_synthesis/formatting/mofsy_api.py:90 | the product name is the metadata product, or "unknown" when missing or empty |
| MofsyApi.ProductMass | src/fair_synthesis/formatting/mofsy_api.py:107-115 | the mass is the first weighing's weight, None exactly when there is no weighing |
| MofsyApi.ParsePxrd | src/fair_synthesis/formatting/mofsy_api.py:101-103 | a listed entry becomes a file exactly when its name has four parts, keeping the path |
| MofsyApi.PxrdFiles | src/fair_synthesis/formatting/mofsy_api.py:96-104 | one file per listed entry, in order, with its path; none without an experiment id |
| MofsyApi.PxrdFilesOk | src/fair_synthesis/formatting/mofsy_api.py:96-104 | reading the files fails exactly when a listed path has fewer than four parts |
| MofsyApi.FindProduct | src/fair_synthesis/formatting/mofsy_api.py:87-93 | the product is name, mass and files, and fails exactly when the files do |
| MergeMofsy.ProcId | fairsynthesis_data_model/fairsynthesis_data_model/merge_mofsy.py:18-19 | a procedure has an id exactly when its description is not empty |
| MergeMofsy.CharId | fairsynthesis_data_model/fairsynthesis_data_model/merge_mofsy.py:28-29 | intended merge: a characterization has an id exactly when its description is present and not empty |
| MergeMofsy.CharFor | fairsynthesis_data_model/fairsynthesis_data_model/merge_mofsy.py:26-33 | intended merge: a match has the procedure's id; no match means no entry has that id |
| MergeMofsy.FirstMatchUsed | fairsynthesis_data_model/fairsynthesis_data_model/merge_mofsy.py:27-33 | intended merge: the first characterization with an equal id is used |
| MergeMofsy.UndescribedNeverMatches | fairsynthesis_data_model/fairsynthesis_data_model/merge_mofsy.py:28-31 | intended merge: a matched characterization has a non-empty description |
| MergeMofsy.MergedEntry | fairsynthesis_data_model/fairsynthesis_data_model/merge_mofsy.py:35-38 | a merged entry is the procedure's dict plus a "Characterization" key holding the characterization's dict |
| MergeMofsy.CharacterizationReadsBack | fairsynthesis_data_model/fairsynthesis_data_model/merge_mofsy.py:37 | the "Characterization" value decodes back to the characterization |
| MergeMofsy.MergedOne | fairsynthesis_data_model/fairsynthesis_data_model/merge_mofsy.py:17-38 | intended merge: a procedure yields one entry exactly when it has a match |
| MergeMofsy.MergedFiltered | fairsynthesis_data_model/fairsynthesis_data_model/merge_mofsy.py:15-40 | intended merge: the result is one merged entry per matched procedure, in procedure order, never longer than the input |
| MergeMofsy.UndescribedSkipped | fairsynthesis_data_model/fairsynthesis_data_model/merge_mofsy.py:21-23 | a procedure with no description is skipped |
| MergeMofsy.MergeProcedureAndCharacterization | fairsynthesis_data_model/fairsynthesis_data_model/merge_mofsy.py:9-40 | intended merge: the outer loop returns the specified merged list |
| MergeMofsy.FindCharacterization | fairsynthesis_data_model/fairsynthesis_data_model/merge_mofsy.py:26-33 | intended merge: the inner loop with break finds the first entry with that id |
| MergeMofsy.MergeAsWritten | fairsynthesis_data_model/fairsynthesis_data_model/merge_mofsy.py:17-33 | as written, over the generated entries without `metadata`: it fails with AttributeError exactly when some synthesis has a description and the entry list is not empty, and otherwise returns an empty list |
| MergeMofsy.AsWrittenMergeFails | fairsynthesis_data_model/fairsynthesis_data_model/merge_mofsy.py:27-29 | a described synthesis and one entry: as written AttributeError, intended the synthesis merged with that entry's characterization |
| MpifSteps.FindStepByReagent | scripts/mofsy2mpif/src/mofsy2mpif.ts:40-65 | the first step of Prep, then Reaction, then Workup whose reagent or solvent is the id |
| MpifSteps.FindStepByReagentSections | scripts/mofsy2mpif/src/mofsy2mpif.ts:40-65 | a step is found exactly when some section has one, and Prep is searched first |
| MpifSteps.FindStepByType | scripts/mofsy2mpif/src/mofsy2mpif.ts:67-83 | the first step of that type in Reaction, then Prep, then Workup |
| MpifSteps.FindStepByTypeReactionFirst | scripts/mofsy2mpif/src/mofsy2mpif.ts:67-83 | a Reaction step of the type wins over any Prep step |
| MpifSteps.StepText | scripts/mofsy2mpif/src/mofsy2mpif.ts:89-117 | every step sentence ends in ". " |
| MpifSteps.StringifySteps | scripts/mofsy2mpif/src/mofsy2mpif.ts:85-123 | the loop appends one sentence per step, in order |
| MpifSteps.StepsTextAppend | scripts/mofsy2mpif/src/mofsy2mpif.ts:85-123 | the text of two step lists is the text of each, in order |
| MpifSteps.HeatChillVerb | scripts/mofsy2mpif/src/mofsy2mpif.ts:93 | a HeatChill sentence starts with "Heat" exactly when the temperature is given and above 25, otherwise with "Chill" |
| MpifSteps.DryWithoutTime | scripts/mofsy2mpif/src/mofsy2mpif.ts:96-101 | a Dry sentence is "Dry. " exactly when the time is missing or 0 |
| MpifFields.ShortUnitAsWritten | scripts/mofsy2mpif/src/mofsy2mpif.ts:167-173 | as written, units other than the three compared names are kept |
| MpifFields.AsWrittenMillilitreKept | scripts/mofsy2mpif/src/mofsy2mpif.ts:171-172 | as written, the schema's "millilitre" is not shortened |
| MpifFields.ShortUnit | scripts/mofsy2mpif/src/mofsy2mpif.ts:167-173 | corrected, units other than gram, milligram and millilitre are kept |
| MpifFields.ShortUnitSymbols | scripts/mofsy2mpif/src/mofsy2mpif.ts:167-173 | corrected, gram, milligram and millilitre become "g", "mg" and "mL", and shortening is idempotent |
| MpifFields.ProductAmount | scripts/mofsy2mpif/src/mofsy2mpif.ts:159-174 | without weighings the default amount; otherwise the last weighing's value and its unit shortened as written |
| MpifFields.ProductAmountUnits | scripts/mofsy2mpif/src/mofsy2mpif.ts:164-173 | a last weighing in gram or milligram gets "g" or "mg"; one in the schema's "millilitre" keeps "millilitre" |
| MpifFields.TimeUnit | scripts/mofsy2mpif/src/mofsy2mpif.ts:188-192 | the reaction time unit is "h" for hour, "days" for day, "" otherwise, each exactly |
| MpifFields.ReactionConditions | scripts/mofsy2mpif/src/mofsy2mpif.ts:176-198 | the conditions come from the first HeatChill step, defaults without one; the note starts with the reaction note |
| MpifFields.NoHeatStepDefaults | scripts/mofsy2mpif/src/mofsy2mpif.ts:176-198 | without a HeatChill step temperature and time are −1 and the unit empty |
| MpifFields.CollectReagents | scripts/mofsy2mpif/src/mofsy2mpif.ts:200-228 | the reagent loop gives the specified substrate and solvent lists |
| MpifFields.ListedReagentsFiltered | scripts/mofsy2mpif/src/mofsy2mpif.ts:200-228 | a listed reagent has the role and a step that uses it, in reagent order |
| MpifFields.VesselMaterial | scripts/mofsy2mpif/src/mofsy2mpif.ts:234-246 | the material is known exactly for the listed keywords, else the thrown error; checked in the order glass, microwave, teflon, schlenk bomb: a microwave vessel has no material and keeps the type text as its note, a teflon one is "Teflon", glass and Schlenk bombs are "Glass" |
| MpifFields.VesselKind | scripts/mofsy2mpif/src/mofsy2mpif.ts:247-255 | the kind is Vial, Autoclave or Flask for the listed keywords, else the thrown error |
| MpifFields.ClassifyVessel | scripts/mofsy2mpif/src/mofsy2mpif.ts:230-256 | missing hardware or components are type errors; the id is the first component's; material and kind come from the keyword tables |
| MpifFields.ClassifyVesselErrors | scripts/mofsy2mpif/src/mofsy2mpif.ts:230-256 | classification fails exactly when material or kind is unknown, the material error first |
| MpifFields.VesselIgnoresCase | scripts/mofsy2mpif/src/mofsy2mpif.ts:234-255 | types that differ only in case classify alike |
| MpifFields.ReactionAtmosphere | scripts/mofsy2mpif/src/mofsy2mpif.ts:302-304 | the atmosphere is "vacuum" exactly when an EvacuateAndRefill step exists, else "air" |
| MpifFields.Capitalized | scripts/mofsy2mpif/src/mofsy2mpif.ts:335 | capitalising upper-cases the first character and lower-cases the rest |
| MpifFields.ReactionStepAtmosphere | scripts/mofsy2mpif/src/mofsy2mpif.ts:335 | a configured atmosphere wins; otherwise "Vacuum" or "Air" as the steps say |
| MpifFields.PxrdSource | scripts/mofsy2mpif/src/mofsy2mpif.ts:356-366 | the source is "Co" or "Cu" exactly for the Kα1 sources, "other" otherwise |

## Left out

- Key order: JSON objects are `map<string, Json>`, so the order of dict keys is not modelled.
- Update in place and aliasing: the sources mutate dicts and lists in place (the ELN cleaners, `apply_diff`, the
  parameter extraction's InChI fix at `extract_interesting_params.py:135-136`). The model returns the new value
  instead, so it cannot say what another alias of the same object sees.
- `.lower()` and `.upper()` are modelled on ASCII letters plus α and μ. Other Unicode case mappings are not modelled.
- Floating point: numbers are exact `real`s. The source's float rounding and NaN arithmetic are not modelled;
  deduplication models NaN as its own cell kind.
- Number formatting: printing numbers into text is a parameter of the model (`show`, `fmt`). So are
  `float(...)` parsing (`parseFloat`) and `sympify` evaluation (`evaluate`).
- `round()` is not modelled: the two-place rounding of litre, microlitre and time values in `mil2mofsy.py`
  (lines 291, 293 and 303-309) is foreign float behaviour, and those values are kept unrounded.
- The date formatting of `reactionStartedWhen` (`sciformation_cleaner.py:109-110`,
  `datetime.fromtimestamp(...).strftime(...)`) is the parameter `formatDate` of `ElnCleaner.ConvertItem`; the time
  zone and calendar behaviour of `datetime` are foreign library behaviour.
- I/O is not modelled: file reading and writing, JSON loading and saving, `print`, verbose output, and the JSON
  file written by the parameter extraction (`extract_interesting_params.py:199-208`).
- PubChem: `get_inchi` is the parameter `inchiOf` of `ElnToMofsy.ConstructReagents`.
- The LLM extraction in `sciformation_text_extractor_llm_mocof1.py` is left out, except `apply_diff`.
  `ElnCleaner.CleanSciformationEln` takes the use-case processing as the parameter `process`.
- `os.path.relpath` and `process_pxrd_file_use_case_specific` are left out: the file system, and a module not shown.
- PXRD numerics (background, normalisation, baseline, molar fractions) are left out: floating point and scipy.
- `calculate_dataframe_statistics` is not modelled: the column statistics are an input map of
  `Dedup.CalculateAdaptiveEpsilon`.
- The range-split subsample `RandomState(seed).choice(..., replace=False)` is the parameter `draw`, which
  returns distinct indices of the required size. The random generator itself is not modelled.
- TreeClassifier.RangeDecisionTreeClassifier.Fit: covers only a fixed integer `random_state`. The default is
  `None` (`range_decision_tree.py:120`), and `RandomState(None)` at line 317 then draws fresh entropy on every
  call, so two fits on the same data may differ; one fixed `draw` function cannot express that.
- TreeBuild.Build, TreeSplit.FindBestSplit and TreeClassifier.RangeDecisionTreeClassifier.Fit require as many
  sample rows as labels. The source does not check this: numpy raises IndexError on a mask of the wrong length,
  or a leaf is fitted when the root stops at once; neither outcome is modelled.
- TreeSplit.LowerIndices: `max_range_splits` is a `nat`, so the ValueError `rng.choice` raises for a negative
  size is not modelled.
- `classes_` is a set of labels: numpy's sorting of the classes is not modelled.
- `print_tree` and the `print_*`/`load_*` helpers of `mofsy_api.py` are diagnostic output and loading, and are left out.
- `InterestingParams.ExtractInterestingParams` does not take the characterization argument, which the source never
  reads. Number types (int versus float) of the table are not distinguished.
- InterestingParams.ExtractInterestingParams: reads syntheses of the procedure schema modelled in
  `ProcedureSchema`, which follows the schema under `src/`. The extractor imports
  `fairsynthesis_data_model/generated/procedure_data_structure.py` instead, where a quantity's `Value` is optional
  and `Evaporate` is a step type. A missing amount value, which the source writes into the table as `None`, and
  Evaporate steps cannot be expressed.
- MilToMofsy.MilReagentRoles: the modulator cell is an optional text. The source's `Union[bool, str]` also allows
  `True`, which is truthy and would become the modulator's name; that value is not modelled.
- MergeMofsy.MergeProcedureAndCharacterization: models the intended merge over `DescribedEntry` values, because the
  generated entry type has no `metadata`; the merge as written is `MergeMofsy.MergeAsWritten`. The import of the
  undefined name `ProductCharacterization` (`merge_mofsy.py:3-4`) would already fail when the module is loaded;
  this import error is not modelled.
- `find_corresponding_pxrd_files`: the truthiness of the X-ray source and sample holder objects is always true and
  is not modelled separately.
- mofsy2mpif.ts: left out are
  - steps that are not objects;
  - missing sections (modelled as empty lists);
  - the generated TypeScript converters;
  - copying of the `mpifParams` fields;
  - metadata and date fields;
  - Ajv validation;
  - reading PXRD files;
  - writing the output file.
- MpifFields.ReactionConditions: the note text after the reaction note is not pinned down. The contract states only
  that the note starts with the reaction note, and it states temperature, time and unit.
- TreeImportance.Traverse: works on an `array` of reals as the source does, but the source's numpy array of
  floats is modelled with exact reals.

## Findings

| source | as written | input that shows it | evidently intended | confidence | as-written member | corrected member |
|---|---|---|---|---|---|---|
| src/fair_synthesis/formatting/mil2mofsy.py:313-321 | a length in cm is multiplied by 10 but labelled centimetres, so it is scaled twice; the converter (`MilToMofsy.PxrdEntry`) uses this as-written formatting | "1cm" gives 10 centimetres (100 mm) | 10 mm, or 1 cm | not executed | MilToMofsy.FormatLengthAsWrittenScalesTwice | MilToMofsy.FormatLengthMeaning |
| src/fair_synthesis/formatting/sciformation_cleaner.py:14-15 | a missing comma joins 'modifier' and 'reactionTitle' into one entry | a record with a modifier and a reaction title loses both | both keys kept | not executed | ElnCleaner.AsWrittenDropsRecordNames | ElnCleaner.IntendedKeepsNames |
| src/fair_synthesis/formatting/sciformation_cleaner.py:25-26 | a missing comma joins 'solventAmount' and 'solvent_volume_unit' | a "solventAmount" property is dropped | the property kept | not executed | ElnCleaner.AsWrittenDropsSolventAmount | ElnCleaner.IntendedKeepsSolventAmount |
| src/fair_synthesis/formatting/sciformation_cleaner.py:49-51 | missing commas join 'measured', 'elnReaction', 'cdbMolecule' and 'rxnRole' | component attributes "measured", "elnReaction" and "cdbMolecule" are dropped | the three attributes kept | not executed | ElnCleaner.AsWrittenDropsComponentNames | ElnCleaner.IntendedKeepsComponentNames |
| fairsynthesis_data_model/fairsynthesis_data_model/use_case_specific/sciformation_cleaner_mocof1.py:45-50 | the rinse names are recorded lower-cased, and only "acetone" matches a value of the Solvent enum | a realization text mentioning "meoh" records the rinse solvent "meoh", which the MOFSY converter rejects with ValueError | the Solvent spellings "MeOH", "EtOH", "MeCN" and so on | not executed | ElnCleanerMocof1.AsWrittenRinseRejected | ElnCleanerMocof1.IntendedRinseAccepted |
| fairsynthesis_data_model/fairsynthesis_data_model/extract_interesting_params.py:44-54 | the search default "none" is truthy, so `.inchi` is read on a string | a synthesis without an aminoporphyrin raises AttributeError | type "unknown" and amount −1 | not executed | InterestingParams.AsWrittenNoAminoporphyrinFails | InterestingParams.IntendedNoAminoporphyrinUnknown |
| fairsynthesis_data_model/fairsynthesis_data_model/extract_interesting_params.py:146-152 | the slot loop lacks a break, so one other solvent fills every free slot | one other solvent fills slots 1 and 2 | one slot per solvent | not executed | InterestingParams.AsWrittenFirstOtherTakesBoth | InterestingParams.IntendedOthersOnePerSlot |
| scripts/mofsy2mpif/src/mofsy2mpif.ts:171-172 | the unit is compared with "milliliter", but the schema spells it "millilitre" | a product weighed in millilitre keeps "millilitre" (`MpifFields.ProductAmount` uses this as-written shortening) | "mL" | not executed | MpifFields.AsWrittenMillilitreKept | MpifFields.ShortUnitSymbols |
| fairsynthesis_data_model/fairsynthesis_data_model/merge_mofsy.py:27-29 | the inner loop reads `char.metadata`, which a generated characterization entry does not have (it has analysis results, characterization and experiment id) | a synthesis with a description and one characterization entry raise AttributeError | the first entry with the synthesis's id is merged | not executed | MergeMofsy.AsWrittenMergeFails | MergeMofsy.MergedFiltered |
