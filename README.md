# stormtracks categorisation and results, modelled in Dafny

This project models two parts of stormtracks, which tracks and classifies tropical cyclones in reanalysis ensemble data:

- **The evaluation of hurricane categorisers** (`stormtracks/categorisation.py`). A categoriser learns from a calibration dataset (`CatData`) which candidate rows are hurricanes. It then predicts a boolean mask over the rows of a dataset and is scored with a confusion matrix, sensitivity and positive predictive value (ppv).
  - There are five kinds. CutoffCategoriser applies fixed thresholds to the feature columns. The LDA, QDA, decision-tree and SGD categorisers wrap a learning-library estimator.
  - A `CategoriserChain` feeds each stage only the rows the earlier stages accepted.
  - A `CategoriserComparison` trains and scores a list of categorisers side by side.
- **The in-memory results registry and the result file names** (`stormtracks/results.py`). The registry maps year, then ensemble member, then name, to a result. File names follow `results_em_<member>.pkl`, and `list_ensemble_members` parses them back.

Modules, one file each:

- `Masks`: numpy boolean masks.
  - `&`, `~` and `.sum()`;
  - boolean indexing, `Filter`;
  - the masked assignment `a[a] = s`, `Scatter`.
- `Strings`: `split`, `join`, `str(int)` and `sorted` on strings.
- `Settings`: keyword dictionaries, as association lists in insertion order.
- `Features`: the `SCATTER_ATTRS` column registry.
- `Datasets`: `CatData` and its narrowing by a mask.
- `Evaluation`: `compare` and `calc_stats`.
- `Predictors`: what `train` records and what `categorise` predicts or raises, as functions of a categoriser's state.
- `Categorisers`: the `Categoriser` class, whose fields are updated in place, proved against `Predictors`.
- `Chains`: `CategoriserChain`, as functions (`ChainTrain`, `ChainRun`) and as a class whose loops are proved against them.
- `Comparisons`: `CategoriserComparison`.
- `Results`: the registry class and the file-name parsing.

The learning-library estimators are not modelled. A fitted estimator is known only by what its `fit` received: the class, its keyword arguments, and the training columns and labels. Its `predict` is a parameter, `learner: (Fitted, seq<real>) -> bool`, applied row by row. Every property holds for every such function.

Feature values are `real`, so a cutoff comparison is exact.

Some inputs come from I/O and are therefore parameters:
- the directory listings that `glob` returns;
- the dictionary that reading a pickled results file gives.

Paths are joined as `dirname + "/" + name`.

## Model

| member | source | states |
|---|---|---|
| Masks.Count | stormtracks/categorisation.py:226-229 | `.sum()` of a mask counts at most its length |
| Masks.CountIsCardinality | stormtracks/categorisation.py:226-229 | `.sum()` is the number of true positions |
| Masks.AllTrue | stormtracks/categorisation.py:279 | `np.ones(n).astype(bool)` is n true entries |
| Masks.And | stormtracks/categorisation.py:327 | `a & b` is true exactly where both are |
| Masks.Not | stormtracks/categorisation.py:226-229 | `~a` is true exactly where a is false |
| Masks.Filter | stormtracks/categorisation.py:287-289 | boolean indexing `xs[m]` keeps as many rows as m has true entries |
| Masks.FilterAt | stormtracks/categorisation.py:287-289 | a kept row sits at its rank (the number of true entries before it) in `xs[m]` |
| Masks.FilterIn | stormtracks/categorisation.py:287-289 | boolean indexing keeps only elements of its argument |
| Masks.FilterAllTrue | stormtracks/categorisation.py:274-279 | selecting by an all-true mask selects everything |
| Masks.Scatter | stormtracks/categorisation.py:286 | `a[a] = s` keeps the length of a |
| Masks.ScatterAt | stormtracks/categorisation.py:286 | after `a[a] = s`, position k is false where a was false and is s at k's rank where a was true |
| Masks.ScatterSubset | stormtracks/categorisation.py:286 | the masked assignment never sets a position that was false |
| Masks.ScatterCount | stormtracks/categorisation.py:286 | after `a[a] = s`, a has exactly as many true entries as s |
| Masks.FilterScatter | stormtracks/categorisation.py:286-289 | selecting by the updated mask equals selecting by the old mask and then by s |
| Masks.ScatterAllTrue | stormtracks/categorisation.py:279-286 | on the fresh all-true mask, `a[a] = s` makes a equal to s |
| Masks.ScatterNone | stormtracks/categorisation.py:286 | a mask with no true entry is all false, and writing the empty mask into it leaves it unchanged |
| Masks.CountAppend | stormtracks/categorisation.py:226-229 | the count of a concatenation is the sum of the counts |
| Masks.RankStep | stormtracks/categorisation.py:286 | one more position adds that position's entry to the rank |
| Masks.RankTail | stormtracks/categorisation.py:286 | the rank in m is m's head plus the rank in its tail |
| Strings.Split | stormtracks/categorisation.py:320 | `s.split(sep)` yields at least one piece and no piece contains sep |
| Strings.JoinSplit | stormtracks/results.py:102 | `sep.join(s.split(sep)) == s` |
| Strings.SplitJoin | stormtracks/results.py:102 | splitting a join of separator-free pieces gives the pieces back |
| Strings.SplitNoSep | stormtracks/results.py:102 | a string without the separator splits into itself alone |
| Strings.SplitCons | stormtracks/results.py:102 | the first separator ends the first piece |
| Strings.NatDigits | stormtracks/results.py:62 | `str(n)` of a natural number is one or more decimal digits |
| Strings.Decimal | stormtracks/results.py:62 | `str(i)` contains no '.' and no '_' |
| Strings.Insert | stormtracks/results.py:103 | insertion into a list adds one element |
| Strings.SortStrings | stormtracks/results.py:103 | `sorted` keeps the length |
| Strings.SortStringsCorrect | stormtracks/results.py:103 | `sorted` returns an ordered permutation of its argument |
| Strings.SortedUnique | stormtracks/results.py:110 | two ordered permutations of one list are equal, so the sorted listing does not depend on the listing order |
| Strings.InsertPermutes | stormtracks/results.py:103 | insertion adds exactly the inserted element to the multiset |
| Strings.InsertSorted | stormtracks/results.py:103 | insertion into an ordered list keeps it ordered |
| Strings.LexLeTotal | stormtracks/results.py:103 | Python's string order is total |
| Strings.LexLeTransitive | stormtracks/results.py:103 | Python's string order is transitive |
| Strings.LexLeAntisymmetric | stormtracks/results.py:103 | Python's string order is antisymmetric |
| Strings.SortedHeadLeast | stormtracks/results.py:103 | the head of an ordered list precedes each of its elements |
| Settings.GetFound | stormtracks/categorisation.py:323 | `settings[key]` finds an entry under that key and misses only when there is none |
| Settings.Keys | stormtracks/categorisation.py:319 | `settings.keys()` lists one key per entry, in order |
| Settings.Put | stormtracks/categorisation.py:132-134 | after `d[k] = v`, looking up k gives v |
| Settings.PutOther | stormtracks/categorisation.py:132-134 | `d[k] = v` leaves every other key's value as it was |
| Settings.PutOrder | stormtracks/categorisation.py:132-134 | an existing key keeps its position, and a new key goes at the end |
| Settings.Remove | stormtracks/categorisation.py:261 | once a keyword is bound to a named parameter, `**kwargs` has no entry for it and no more entries than before |
| Settings.RemoveOther | stormtracks/categorisation.py:261 | removing key k leaves every other key as it was |
| Settings.DistinctKeysCons | stormtracks/categorisation.py:127 | a dictionary holds each key once exactly when its first key is not among the rest and the rest hold each key once |
| Settings.KeySetCons | stormtracks/categorisation.py:127 | an entry in front adds its key to the key set |
| Settings.PutKeySet | stormtracks/categorisation.py:132-134 | `d[k] = v` adds k to the keys and no other key |
| Settings.RemoveKeySet | stormtracks/categorisation.py:261 | removing k takes k from the keys and no other key |
| Settings.PutDistinct | stormtracks/categorisation.py:132-134 | `d[k] = v` keeps every key held once |
| Settings.RemoveDistinct | stormtracks/categorisation.py:261 | removing a key keeps every key held once |
| Features.IndexInFound | stormtracks/categorisation.py:321 | `SCATTER_ATTRS[var]['index']` finds the index of an entry with that name, and fails (KeyError) only when none has it |
| Features.ScatterAttrsDense | stormtracks/categorisation.py:74-91 | feature j sits in column j, and every index is below 15 |
| Features.IndexInAt | stormtracks/categorisation.py:74-91 | the first registry entry with a name decides the lookup |
| Features.NoEarlierL | stormtracks/categorisation.py:74-88 | no feature before column 13 has a name starting with 'l' |
| Features.LatIsLast | stormtracks/categorisation.py:89-90 | only column 14 is named `lat` |
| Features.LonLatColumns | stormtracks/categorisation.py:89-90 | `lon` is column 13 and `lat` is column 14 |
| Features.LonColumn | stormtracks/categorisation.py:89 | `lon` is looked up as column 13 |
| Features.LatColumn | stormtracks/categorisation.py:90 | `lat` is looked up as column 14 |
| Features.VortColumn | stormtracks/categorisation.py:76 | `vort` is looked up as column 0 |
| Features.PambdiffColumn | stormtracks/categorisation.py:78 | `pambdiff` is looked up as column 2 |
| Features.T995Column | stormtracks/categorisation.py:80 | `t995` is looked up as column 4 |
| Features.T850Column | stormtracks/categorisation.py:81 | `t850` is looked up as column 5 |
| Features.MaxwindspeedColumn | stormtracks/categorisation.py:83 | `maxwindspeed` is looked up as column 7 |
| Datasets.Narrow | stormtracks/categorisation.py:287-291 | narrowing gives a well-formed dataset with one row per true entry, and copies `hurr_counts` and `missed_count` unchanged |
| Datasets.NarrowAligned | stormtracks/categorisation.py:287-291 | a kept row's features, label and date appear together at its rank in the narrowed dataset |
| Datasets.NarrowAll | stormtracks/categorisation.py:274-278 | narrowing by an all-true mask changes nothing, as the copy at the start of the loop does not |
| Datasets.NarrowScatter | stormtracks/categorisation.py:286-291 | narrowing by the updated running mask equals narrowing step by step |
| Datasets.ColumnOf | stormtracks/categorisation.py:323 | a numpy column index, negative ones included, designates a column within the width |
| Datasets.Project | stormtracks/categorisation.py:346 | `row[ix]` has one value per selected column |
| Datasets.ProjectRows | stormtracks/categorisation.py:346 | `data[:, ix]` keeps the row count and projects every row |
| Evaluation.Compare | stormtracks/categorisation.py:224-230 | fn is at least `missed_count` |
| Evaluation.CompareCells | stormtracks/categorisation.py:224-230 | tp, fp and tn count their cells of actual × predicted, fn is `missed_count` plus the actual-but-not-predicted rows, and the four add up to rows plus `missed_count` |
| Evaluation.CellsPartition | stormtracks/categorisation.py:226-229 | every row falls in exactly one cell |
| Evaluation.CountSplit | stormtracks/categorisation.py:226-229 | a count splits into the part inside and the part outside a second mask |
| Evaluation.CountNot | stormtracks/categorisation.py:226-229 | a mask and its negation together count every row |
| Evaluation.Ratio | stormtracks/categorisation.py:234-235 | a ratio of counts is undefined (numpy's NaN) exactly when the denominator is zero |
| Evaluation.RatioBounds | stormtracks/categorisation.py:234-235 | a defined ratio of a part to a whole lies in [0, 1] and is 1 exactly when the part is the whole |
| Evaluation.Sensitivity | stormtracks/categorisation.py:234 | sensitivity is tp/(tp+fn), undefined when tp+fn is 0 |
| Evaluation.Ppv | stormtracks/categorisation.py:235 | ppv is tp/(tp+fp), undefined when tp+fp is 0 |
| Evaluation.MissedDefinesSensitivity | stormtracks/categorisation.py:226 | with a missed candidate, sensitivity is always defined and below 1 |
| Evaluation.AllPositive | stormtracks/categorisation.py:224-230 | predicting every row positive leaves exactly the missed candidates as false negatives, and no true negatives |
| Evaluation.TenRowCounts | stormtracks/categorisation.py:224-230 | a concrete ten-row case gives tp 2, fp 1, fn 1 + 1 missed and tn 6 |
| Evaluation.TenRowStats | stormtracks/categorisation.py:232-235 | the same case scores sensitivity 1/2 and ppv 2/3 |
| Predictors.DefaultIndices | stormtracks/categorisation.py:130-132 | the default indices are 0 to 12 |
| Predictors.DefaultIndicesBeforeLon | stormtracks/categorisation.py:131-132 | the default indices are exactly the columns before `lon` |
| Predictors.BaseSettings | stormtracks/categorisation.py:126-134 | settings become the kwargs with `indices` set to the given indices, or to the default when none are given |
| Predictors.BaseSettingsOther | stormtracks/categorisation.py:127 | every other kwargs key reaches the settings unchanged |
| Predictors.BaseSettingsKeys | stormtracks/categorisation.py:127-134 | the settings' keys are those of kwargs plus `indices`, each held once when kwargs holds each once |
| Predictors.TrainConfig | stormtracks/categorisation.py:301-305 | after `train` the categoriser is trained and keeps its kind |
| Predictors.TrainRecords | stormtracks/categorisation.py:126-134 | train records the kwargs plus `indices`, or for a cutoff categoriser with `best=True` the preset; an estimator is fitted on the selected columns and labels; after a failed fit the estimator is unfitted, and categorising the same data raises the IndexError of `data[:, indices]` |
| Predictors.ParseKey | stormtracks/categorisation.py:320 | when `var, hilo = key.split('_')` succeeds, the key splits into exactly those two parts |
| Predictors.KeyParts | stormtracks/categorisation.py:320 | `name_hilo` with no '_' in either part parses into its parts |
| Predictors.CutoffCheckFrom | stormtracks/categorisation.py:319-327 | a raise from entry i on happens at or after i, at an entry that fails on its own |
| Predictors.CutoffStop | stormtracks/categorisation.py:319-327 | the loop completes at most every entry |
| Predictors.Predict | stormtracks/categorisation.py:161-163 | `categorise` gives one prediction per row or an exception; an estimator class raises for columns that do not fit the data before it raises for a missing fit |
| Predictors.PredAfter | stormtracks/categorisation.py:349-354 | `are_hurr_pred` becomes the prediction when `categorise` succeeds, and otherwise keeps its earlier value, except that a trained cutoff categoriser leaves its partial mask |
| Predictors.UntrainedRaises | stormtracks/categorisation.py:161-163 | an untrained categoriser of any kind raises "Not yet trained" |
| Predictors.CutoffPartial | stormtracks/categorisation.py:317-327 | the mask left after k entries has one entry per row |
| Predictors.AcceptStep | stormtracks/categorisation.py:327 | one more entry ANDs in its own comparison |
| Predictors.PartialAt | stormtracks/categorisation.py:317-327 | row by row, the partial mask is the AND of the entries completed so far |
| Predictors.EntryRaises | stormtracks/categorisation.py:319-325 | an entry that raises, with no earlier raise, is where the loop stops |
| Predictors.CutoffPredict | stormtracks/categorisation.py:315-329 | a trained cutoff categoriser predicts the mask the loop leaves, or raises its exception |
| Predictors.CutoffAcceptAll | stormtracks/categorisation.py:317-327 | a row is marked exactly when every entry's own comparison accepts it |
| Predictors.PassesBound | stormtracks/categorisation.py:322-325 | a `_lo` entry admits exactly the rows strictly above its cutoff, and a `_hi` entry those strictly below |
| Predictors.CutoffCheckLoHi | stormtracks/categorisation.py:319-325 | with only lo/hi keys, the loop raises exactly when some entry is bad on its own |
| Predictors.SameEntriesAccept | stormtracks/categorisation.py:319-327 | settings with the same entries in any order reject the same rows |
| Predictors.SameEntriesRaise | stormtracks/categorisation.py:319-327 | settings with the same lo/hi entries in any order raise alike |
| Predictors.CutoffOrderFree | stormtracks/categorisation.py:319-327 | the rule does not depend on key order: it raises alike and otherwise gives the same mask |
| Predictors.CutoffEmpty | stormtracks/categorisation.py:317-319 | empty settings mark every row |
| Predictors.UnsplittableKeyRaises | stormtracks/categorisation.py:320 | a key that does not split into two parts makes the loop raise, at that entry or earlier |
| Predictors.IndicesKeyUnsplittable | stormtracks/categorisation.py:132-134 | the `indices` key that `train` adds does not split in two on '_' |
| Predictors.CutoffWithoutBestRaises | stormtracks/categorisation.py:315-320 | a cutoff categoriser trained without `best=True` always raises in `categorise` |
| Predictors.PresetEntry | stormtracks/categorisation.py:308-313 | each preset entry is the `_lo` bound of its feature |
| Predictors.PresetBounds | stormtracks/categorisation.py:308-313 | the preset is lower bounds on columns 0, 4, 5, 7 and 2 |
| Predictors.PresetWidest | stormtracks/categorisation.py:308-313 | column 7 (`maxwindspeed`) is the widest column the preset reads |
| Predictors.PresetComparisons | stormtracks/categorisation.py:308-313 | the five preset comparisons, written out with their constants |
| Predictors.LowerBoundsRaise | stormtracks/categorisation.py:319-327 | lower bounds raise exactly when one of their columns is missing |
| Predictors.LowerBoundsAccept | stormtracks/categorisation.py:319-327 | lower bounds admit exactly the rows strictly above every cutoff |
| Predictors.PresetRaises | stormtracks/categorisation.py:319-327 | the preset raises exactly when the data has no column 7 |
| Predictors.PresetAccepts | stormtracks/categorisation.py:319-327 | the preset admits exactly the rows above all five cutoffs |
| Predictors.CutoffBestRule | stormtracks/categorisation.py:301-313 | with `best=True`, a cutoff categoriser marks the rows above all five preset cutoffs on data wider than seven columns, and raises on narrower data |
| Predictors.DefaultColumns | stormtracks/categorisation.py:130-132 | the default selection is valid on data of 13 or more columns and picks the first 13 values |
| Predictors.TrainDefault | stormtracks/categorisation.py:340-347 | an estimator trained without indices on data of 13 or more columns is fitted on the first 13 columns |
| Predictors.DefaultNoError | stormtracks/categorisation.py:349-354 | such an estimator raises on no data of 13 or more columns |
| Predictors.LearnedDefaultColumns | stormtracks/categorisation.py:349-354 | such an estimator predicts each row from its first 13 columns |
| Categorisers.Score | stormtracks/categorisation.py:136-143 | the counts add up to rows plus `missed_count`, fn is at least `missed_count`, and it raises exactly when `categorise` raises |
| Categorisers.CutoffMask | stormtracks/categorisation.py:320-325 | one pass of the cutoff loop computes that entry's comparison, or keeps the previous `mask` for another suffix, or raises |
| Categorisers.Categoriser.constructor | stormtracks/categorisation.py:117-124 | a new categoriser is untrained, with empty settings and no `res` |
| Categorisers.Categoriser.TrainBase | stormtracks/categorisation.py:126-134 | the new state is `BaseSettings` and trained |
| Categorisers.Categoriser.Train | stormtracks/categorisation.py:301-305 | the new state and the exception are those of `TrainConfig` |
| Categorisers.Categoriser.Categorise | stormtracks/categorisation.py:315-329 | the result is `Predict` of the state, and `are_hurr_pred` becomes `PredAfter`: the prediction, or for a cutoff categoriser the partial mask even when it raises; other raises leave it unchanged |
| Categorisers.Categoriser.CategoriseCutoff | stormtracks/categorisation.py:319-327 | the loop leaves the partial mask and stops where `CutoffCheckFrom` says |
| Categorisers.Categoriser.CompareCounts | stormtracks/categorisation.py:224-230 | `res` becomes `Compare` of the masks with this object's `missed_count` |
| Categorisers.Categoriser.CalcStats | stormtracks/categorisation.py:232-235 | sensitivity and ppv are derived from `res`; with no `res` it raises |
| Categorisers.Categoriser.TryCat | stormtracks/categorisation.py:136-143 | `missed_count` is the dataset's; `res`, the statistics and the mask are those of `Score` and `Predict`, or the exception leaves `res` and the statistics as they were and the mask as `PredAfter` says (the partial mask of a cutoff categoriser, otherwise the old mask) |
| Chains.ChainRun | stormtracks/categorisation.py:279-291 | the running mask keeps its length and its count equals the rows in play |
| Chains.ChainPredict | stormtracks/categorisation.py:271-293 | a chain predicts one value per row, or raises |
| Chains.ChainScore | stormtracks/categorisation.py:136-143 | a chain's counts add up to rows plus `missed_count`, and fn is at least `missed_count` |
| Chains.Scored | stormtracks/categorisation.py:136-143 | `compare` on an answer gives counts exactly when `categorise` did not raise, otherwise its exception; the counts add up to rows plus `missed_count`, and fn is at least `missed_count` |
| Chains.StageStep | stormtracks/categorisation.py:261-268 | one training pass hands on a well-formed dataset of the same width |
| Chains.StageStepDone | stormtracks/categorisation.py:261-268 | a pass that does not raise leaves its stage trained, and the next rows are those it accepted |
| Chains.ChainTrain | stormtracks/categorisation.py:259-268 | training keeps the number of stages |
| Chains.ChainSubset | stormtracks/categorisation.py:286 | the final mask is a subset of every earlier running mask |
| Chains.ChainConjunction | stormtracks/categorisation.py:281-291 | row k ends up true exactly when it was in play and every stage, asked about it in sequence, accepted it |
| Chains.ChainRaises | stormtracks/categorisation.py:281-282 | the chain raises the first stage's exception, whichever rows are in play |
| Chains.ChainNoRows | stormtracks/categorisation.py:286 | with no rows in play, a stage leaves the mask unchanged and all false |
| Chains.ChainTrainUntouched | stormtracks/categorisation.py:259-260 | stages beyond the keys `one`, `two` and `three` are never touched |
| Chains.ChainTrainTrains | stormtracks/categorisation.py:259-261 | a train that does not raise leaves every paired stage trained |
| Chains.ChainTrainThenRun | stormtracks/categorisation.py:259-268 | a chain whose stages were all paired categorises its own training data without raising |
| Chains.FourthStageRaises | stormtracks/categorisation.py:259-260 | an untrained fourth stage stays untrained, and the chain raises on every dataset |
| Chains.ChainTrainAt | stormtracks/categorisation.py:260-268 | a stage steps, then the rest follow unless it raised |
| Chains.ChainTrainFrom | stormtracks/categorisation.py:260-268 | the loop from stage i keeps the number of stages |
| Chains.ChainTrainFromIs | stormtracks/categorisation.py:260-268 | the loop from stage i keeps the stages before i and steps the rest as `ChainTrain` |
| Chains.ChainTrainFromStart | stormtracks/categorisation.py:259-268 | the object's `train` loop run from the first stage is `ChainTrain` |
| Chains.TrainStage | stormtracks/categorisation.py:261-268 | one stage object steps as `StageStep`, and its `are_hurr_pred` becomes `StageStepPred` |
| Chains.StageStepPred | stormtracks/categorisation.py:261 | a training pass that does not raise leaves the stage's prediction on its training rows in `are_hurr_pred` |
| Chains.ChainTrainPredsFrom | stormtracks/categorisation.py:259-261 | the `train` loop from stage i leaves one mask per stage |
| Chains.ChainTrainPredsKeep | stormtracks/categorisation.py:259-261 | the `train` loop from stage i leaves the masks of the stages before i, and of the stages beyond the keys, as they were |
| Chains.CategoriseStage | stormtracks/categorisation.py:282-291 | one stage categorises the rows in play and its `are_hurr_pred` becomes `PredAfter`; the running mask becomes `a[a] = p` and the rows it accepted stay in play |
| Chains.StagePredsFrom | stormtracks/categorisation.py:279-291 | the `categorise` loop from stage i leaves one mask per stage |
| Chains.ChainPreds | stormtracks/categorisation.py:271-291 | an untrained chain leaves every stage's mask as it was |
| Chains.StagePredsAt | stormtracks/categorisation.py:281-291 | the `categorise` loop at stage i gives that stage `PredAfter`'s mask, then ends if the stage raised or goes on from stage i + 1 on the rows it accepted |
| Chains.StagePredsLast | stormtracks/categorisation.py:279-291 | a chain that does not raise accepts as many rows as its last stage accepted |
| Chains.ChainRunFrom | stormtracks/categorisation.py:279-291 | the loop from stage i, over the whole list of stages, gives one value per original row or raises |
| Chains.ChainRunFromIs | stormtracks/categorisation.py:279-291 | the loop from stage i over the whole list is `ChainRun` over the stages from i on |
| Chains.MaskedAssign | stormtracks/categorisation.py:286 | the array becomes `Scatter` of its old contents and s |
| Chains.CategoriserChain.StageConfigs | stormtracks/categorisation.py:246 | one configuration per stage, each that stage's state |
| Chains.CategoriserChain.StagePreds | stormtracks/categorisation.py:246 | one mask per stage, each that stage's `are_hurr_pred` |
| Chains.CategoriserChain.constructor | stormtracks/categorisation.py:243-246 | a new chain is untrained over the given stages |
| Chains.CategoriserChain.Train | stormtracks/categorisation.py:248-269 | the chain's own settings are `BaseSettings`; the stages' new states and the exception are those of `ChainTrain` over the keys `one`, `two` and `three`, and their masks those of `ChainTrainPredsFrom` |
| Chains.CategoriserChain.TrainStages | stormtracks/categorisation.py:259-268 | the loop leaves each stage in the state `ChainTrainFrom` gives, with the mask `ChainTrainPredsFrom` gives |
| Chains.CategoriserChain.Categorise | stormtracks/categorisation.py:271-293 | `are_hurr_pred` becomes `ChainPredict` (unchanged when it raises), the stages' states are unchanged, and the stages' masks become `ChainPreds` |
| Chains.CategoriserChain.RunStages | stormtracks/categorisation.py:279-291 | the loop computes `ChainPredict` of a trained chain and leaves the stage masks `StagePredsFrom` gives |
| Chains.CategoriserChain.RunStage | stormtracks/categorisation.py:282-291 | one pass keeps every stage's state and steps both `ChainRunFrom` and `StagePredsFrom` from stage i to stage i + 1 on the rows the stage accepted, or ends both with the stage's exception |
| Chains.CategoriserChain.TryCat | stormtracks/categorisation.py:136-143 | `missed_count` is the dataset's; `res`, the statistics and the mask are those of `ChainScore` and `ChainPredict`, or the exception leaves `res`, the statistics and the chain's own mask as they were; the stages keep their states and their masks become `ChainPreds` |
| Chains.CategoriserChain.Record | stormtracks/categorisation.py:136-143 | after `categorise` answered, `missed_count` is the dataset's and `res` and the statistics are `Scored`'s, or the exception propagates and they stay as they were |
| Comparisons.Learn | stormtracks/categorisation.py:106 | training a member leaves it trained and of the same kind |
| Comparisons.LearnFresh | stormtracks/categorisation.py:126-128 | training an estimator without indices or options ignores its previous state |
| Comparisons.TrainRun | stormtracks/categorisation.py:103-106 | the loop stops within the list |
| Comparisons.TrainRunOutcome | stormtracks/categorisation.py:103-106 | on data of 13 or more columns, `train` succeeds exactly when every member is an estimator categoriser, and otherwise raises AttributeError at the first other member |
| Comparisons.NarrowDataStopsTrain | stormtracks/categorisation.py:103-106 | on data narrower than 13 columns, the first estimator's fit raises and `train` stops |
| Comparisons.CompareRun | stormtracks/categorisation.py:108-114 | no more counts are printed than there are members |
| Comparisons.CompareRunSpec | stormtracks/categorisation.py:108-114 | `compare` prints the counts of the members that score, in order, and raises the exception of the first that does not |
| Comparisons.CompareRunAt | stormtracks/categorisation.py:108-111 | the loop from member i is that member's result, then the rest |
| Chains.StageStates | stormtracks/categorisation.py:246 | one state per chain stage, read field by field |
| Chains.StageMasks | stormtracks/categorisation.py:246 | one mask per chain stage, each that stage's `are_hurr_pred` |
| Comparisons.StateScore | stormtracks/categorisation.py:108-111 | a member's counts add up to rows plus `missed_count` |
| Comparisons.Scores | stormtracks/categorisation.py:108-111 | one score per member, in order |
| Comparisons.TrySingle | stormtracks/categorisation.py:110 | `try_cat` on a categoriser gives its score and changes no member's state, so no member's score |
| Comparisons.TryChain | stormtracks/categorisation.py:110 | `try_cat` on a chain gives its score and changes no member's state, so no member's score |
| Comparisons.TryMember | stormtracks/categorisation.py:110 | `try_cat` on any member gives its score and changes no member's state, so no member's score |
| Comparisons.LearnMember | stormtracks/categorisation.py:106 | training one member leaves every other categoriser's state unchanged |
| Comparisons.CategoriserComparison.constructor | stormtracks/categorisation.py:95-98 | a new comparison keeps both datasets and has no members |
| Comparisons.CategoriserComparison.AddCat | stormtracks/categorisation.py:100-101 | `add_cat` appends the member |
| Comparisons.CategoriserComparison.Train | stormtracks/categorisation.py:103-106 | members are trained on `cal_cd` in order until `TrainRun` stops, and every other member keeps its state |
| Comparisons.CategoriserComparison.Compare | stormtracks/categorisation.py:108-114 | the printed counts and the exception are `CompareRun` of the members' scores on `cal_cd` |
| Results.Store | stormtracks/results.py:33-43 | storing adds the year and the member levels when they are missing |
| Results.StoreEntry | stormtracks/results.py:33-43 | storing sets exactly one (year, member, name) entry and leaves every other unchanged |
| Results.StoreKeepsLevels | stormtracks/results.py:35-43 | no year or member level is ever left empty |
| Results.LoadRun | stormtracks/results.py:73-74 | a load ends in success or a duplicate-name error |
| Results.LoadRunDone | stormtracks/results.py:73-74 | a load succeeds exactly when its names are distinct and none is already stored under (year, member) |
| Results.LoadRunStores | stormtracks/results.py:73-74 | after a load, earlier entries are unchanged and every loaded name is present |
| Results.LoadTwiceRaises | stormtracks/results.py:65-79 | loading the same non-empty file twice raises on its first name and changes nothing |
| Results.Basename | stormtracks/results.py:102 | `os.path.basename` contains no '/' |
| Results.BasenameJoin | stormtracks/results.py:101-102 | the base name of a joined path is the file name |
| Results.ResultsFileName | stormtracks/results.py:9 | `RESULTS_TPL.format(m)` holds m between the 11-character prefix and the 4-character suffix |
| Results.MemberName | stormtracks/results.py:102 | a listed member name contains no '.' |
| Results.ParseResultsFileName | stormtracks/results.py:101-102 | parsing the file name of member m yields `"em_" + m`, not m, whenever m has no '.' or '/' |
| Results.ParseSavedMember | stormtracks/results.py:62 | the file saved for member number m is listed as `"em_"` followed by the digits of m |
| Results.MemberNames | stormtracks/results.py:101-102 | one parsed name per path, in order |
| Results.Basenames | stormtracks/results.py:108-109 | one base name per path, in order |
| Results.ListEnsembleMembers | stormtracks/results.py:97-103 | the listing is ordered and is a permutation of the parsed names |
| Results.ListYears | stormtracks/results.py:105-110 | the listing is ordered and is a permutation of the base names |
| Results.ListedSavedMembers | stormtracks/results.py:97-103 | a directory of saved members is listed as the sorted `"em_" + m`, whatever order the files are found in |
| Results.ResultsManager.constructor | stormtracks/results.py:30-31 | a new manager holds no results |
| Results.ResultsManager.AddResult | stormtracks/results.py:33-43 | a name already present raises and leaves the registry unchanged; otherwise the registry becomes `Store`, and no level is left empty |
| Results.ResultsManager.GetResult | stormtracks/results.py:45-51 | the entries under (year, member), or nothing when that pair is absent; in a valid manager the entries found are never empty |
| Results.ResultsManager.Load | stormtracks/results.py:65-79 | an unreadable file raises and changes nothing; otherwise the registry and outcome are `LoadRun`'s |

## Left out

- Plotting is not modelled: `plot_remaining_actual`, `plot_confusion` and the pylab calls in `try_cat`. They draw on a global figure state.
- `print` output (including `output_stats`) and the `bcolors` constants are not modelled. `CategoriserComparison.Compare` returns the printed `res` values as a sequence instead.
- The learning-library estimators and the standard scaler are a parameter. Their internals and any exception their `fit` could raise on valid columns are not modelled. This leaves out three behaviours:
  - the ValueError that the library's input validation raises when `fit`, `predict` or `StandardScaler.transform` is given an array with no rows;
  - the TypeError that `LDA(**kwargs)`, `SGDClassifier(**kwargs)` and the other constructors raise on an unknown keyword, which leaves the previous estimator in place under the new settings (the model records any keywords in `Fitted`);
  - the randomness of `SGDClassifier` (shuffling with no fixed `random_state`) and of `DecisionTreeClassifier`: two fits on the same data may differ, while the model treats an estimator as determined by what its `fit` received.
- Predictors.DefaultNoError: promises no exception on any data of 13 or more columns, data with no rows included. The library's `predict` raises a ValueError on an empty array, which is not modelled.
- Chains.ChainRaises: says that raising depends on the width of the data only, even when no row is left in play. This holds because the modelled estimators never raise on the rows themselves; the ValueError of an estimator stage shown no rows is not modelled.
- Settings.Keys: lists the keys in insertion order. `copy(kwargs)` (categorisation.py:127) is a Python 2 `dict`, which iterates in an order set by the keys' hashes, and that order is not modelled. Only the constructor's empty `OrderedDict` and the `best_so_far` preset keep insertion order.
- Settings.PutOrder: puts a new key at the end, as an `OrderedDict` does. In the plain `dict` that `copy(kwargs)` gives (categorisation.py:132-134) the new key's place follows hash order, which is not modelled.
- Predictors.EntryError: a `_lo`/`_hi` cutoff that is neither a number nor a bool is modelled as raising `NonNumericCutoff`. In the source it need not raise. numpy broadcasts a one-element list, or a list as long as the rows, into an elementwise comparison. Python 2 compares an array with a string or dict by its default ordering, which gives one bool that `&=` spreads over every row. The model does not capture these comparisons, because they depend on numpy broadcasting and on Python 2's ordering of unrelated types.
- Categorisers.Categoriser.Categorise: for a cutoff categoriser whose settings come from `copy(kwargs)`, which entry raises first and the partial mask left in `are_hurr_pred` follow the model's order (the kwargs in order, then `indices`), not Python 2's hash order. Whether the loop raises does not depend on the order (`UnsplittableKeyRaises`), and neither does the mask of lo/hi entries (`CutoffOrderFree`).
- `calc_t_anom`, `get_vort`, `calc_ws_dist`, `calc_ws_dir`, `calc_lat`, `calc_lon` and `get_cyclone_attr` are not modelled. They read external cyclone objects, or use floating-point trigonometry and `geo_dist`, which is not part of this model. Only the registry's column indices are used.
- Floating-point arithmetic is not modelled. Features are reals, and an undefined ratio stands for numpy's NaN.
- Attributes that nothing modelled reads are not modelled: `fig`, `best_settings`, `cat_data` and `cat_data_scaled`.
- `res` is modelled as "no counts yet" or the four counts, not as a dictionary.
- Chains of chains are not modelled. A chain's stages are single categorisers, pairwise distinct.
- `save`, `delete`, the file reading in `load`, `glob`, `os` and `cPickle` are not modelled. The results of the directory listings and of reading a results file are parameters instead.
- The insertion order of the results `OrderedDict` levels is not modelled. The registry is a map.
- `StormtracksResult` is not modelled: `GetResult` returns the names and results under (year, member) as a map.
- Results.ResultsManager.GetResult: does not model the message printed when the pair is missing.
- Paths are joined with a single '/', and a directory name ending in '/' is not modelled.
