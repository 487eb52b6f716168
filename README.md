# LogitBoost for logistic model trees, short-valued instances, and supervised nominal-to-binary encoding

This project models three parts of a Weka-based coreference toolkit in Dafny and proves properties of the model.

**LogisticBase** (module `Lmt`, built on the pure module `LogitBoost`) fits a linear logistic model with LogitBoost.
Each iteration fits one simple linear regression per class to the clipped working responses z and weights w.
It then adds the centered predictions, (pred_j - mean)(K-1)/K, to the committee values F, and recomputes the class probabilities.
An iteration fails, and boosting stops, as soon as one class's fit finds no useful attribute.
The number of iterations is chosen in one of three ways:
- it is fixed (`performBoosting(n)`);
- it is the first minimum of the training error, with early stopping on a `noMin`/`lastMin` counter (`performBoosting()`);
- it is the first minimum of the test errors summed over five cross-validation folds (`performBoostingCV`). Each fold is capped at the iterations every earlier fold completed.

The model's table of regressions is a class field, updated in place.

The pure module `LogitBoost` defines the trajectory a boosting run goes through, the early-stopping rule and the first-minimum rule. The imperative methods are proved against these definitions. Around them it proves:
- the bounds of the working response;
- the positivity of the working weight;
- that F sums to zero over the classes in every state;
- what the coefficient vector of the final linear model holds.

The regression fitter, the softmax and the two error measures are oracles: functions given at construction.

**InstanceShort** (module `WekaCore`) is a dense instance whose attribute values are Java `short`s, with `Short.MIN_VALUE` meaning missing.
Its attribute array is a field that every change replaces with a fresh copy. Because of that, shallow copies sharing one array never see each other's changes, and the model proves this property.

**NominalToBinary** (modules `BinaryEncoding` and `SupervisedAttribute`) is the supervised filter that turns nominal attributes into binary ones:
- With a nominal class, an expanded attribute with k values becomes k one-hot indicators.
- With a numeric class, an attribute with k values becomes k-1 cumulative indicators over the values ordered by their average class value. This is the scheme of Breiman et al., *Classification and Regression Trees*.

The output layout and the per-instance encoding are both specified as a concatenation of one block per input attribute. The array-filling loops, with their `attSoFar` cursor, are proved to produce that concatenation. The filter's buffering decision (`input` and `batchFinished`) is a class whose methods are proved against that encoding.

In the boosting model, real numbers stand in for Java's `float` and `double`. In the filter, attribute values are integers: a nominal value is its index, and a numeric value is an integer stand-in for the source's double.

## Model

| member | source | states |
|---|---|---|
| LogitBoost.GetZ | src/main/weka/reconcile/weka/classifiers/trees/lmt/LogisticBase.java:477-491 | the working response is never zero, so the working weight (y-p)/z is defined |
| LogitBoost.GetZBounds | src/main/weka/reconcile/weka/classifiers/trees/lmt/LogisticBase.java:477-491 | for y = 1 and 0 < p <= 1 the response lies in [1, Z_MAX]; otherwise, for 0 <= p < 1, in [-Z_MAX, -1], with Z_MAX = 3 |
| LogitBoost.WorkingWeight | src/main/weka/reconcile/weka/classifiers/trees/lmt/LogisticBase.java:383-386 | for a 0/1 class indicator and 0 < p < 1 the working weight (y-p)/z is strictly positive |
| LogitBoost.UnclippedNewtonStep | src/main/weka/reconcile/weka/classifiers/trees/lmt/LogisticBase.java:477-491 | when the clip is not active, z is the Newton step (y-p)/(p(1-p)) and the weight is p(1-p) |
| LogitBoost.Centered | src/main/weka/reconcile/weka/classifiers/trees/lmt/LogisticBase.java:406-419 | the centered increments (pred_j - mean)(K-1)/K of one instance have one entry per class |
| LogitBoost.CenteredSumsToZero | src/main/weka/reconcile/weka/classifiers/trees/lmt/LogisticBase.java:406-419 | the centered increments added to one row of F sum to zero |
| LogitBoost.AddIncrementKeepsSum | src/main/weka/reconcile/weka/classifiers/trees/lmt/LogisticBase.java:406-419 | adding one iteration's centered increments to a row of F leaves the row sum unchanged |
| LogitBoost.FsSumToZero | src/main/weka/reconcile/weka/classifiers/trees/lmt/LogisticBase.java:558-578 | the committee values F(x) summed over the first m iterations add up to zero |
| LogitBoost.FsOf | src/main/weka/reconcile/weka/classifiers/trees/lmt/LogisticBase.java:558-578 | F(x) after m iterations has one entry per class |
| LogitBoost.ZColumn | src/main/weka/reconcile/weka/classifiers/trees/lmt/LogisticBase.java:380-386 | the working responses of class j, one per instance |
| LogitBoost.WColumn | src/main/weka/reconcile/weka/classifiers/trees/lmt/LogisticBase.java:380-391 | the instance weights times the working weights of class j, one per instance |
| LogitBoost.FirstFailureSpec | src/main/weka/reconcile/weka/classifiers/trees/lmt/LogisticBase.java:375-401 | the first class whose fit finds no attribute: every earlier class found one, and the one returned (if any) did not |
| LogitBoost.Column | src/main/weka/reconcile/weka/classifiers/trees/lmt/LogisticBase.java:375-401 | one iteration fits one regression per class |
| LogitBoost.AddedRows | src/main/weka/reconcile/weka/classifiers/trees/lmt/LogisticBase.java:404-419 | adding an iteration's increments keeps F an n x K grid |
| LogitBoost.ProbsOf | src/main/weka/reconcile/weka/classifiers/trees/lmt/LogisticBase.java:421-424 | the class probabilities form an n x K grid |
| LogitBoost.Advance | src/main/weka/reconcile/weka/classifiers/trees/lmt/LogisticBase.java:369-426 | a successful iteration keeps F and the probabilities n x K grids |
| LogitBoost.StateAt | src/main/weka/reconcile/weka/classifiers/trees/lmt/LogisticBase.java:256-273 | every state of a boosting run keeps F and the probabilities n x K grids |
| LogitBoost.ColumnAt | src/main/weka/reconcile/weka/classifiers/trees/lmt/LogisticBase.java:375-401 | the column fitted in iteration t has one regression per class |
| LogitBoost.TableAt | src/main/weka/reconcile/weka/classifiers/trees/lmt/LogisticBase.java:462-472 | the table after t iterations has K rows of t regressions |
| LogitBoost.CountOk | src/main/weka/reconcile/weka/classifiers/trees/lmt/LogisticBase.java:256-273 | the number of consecutive successful iterations from t is at most n, every iteration before it succeeds, and it is n or the first failure |
| LogitBoost.Start | src/main/weka/reconcile/weka/classifiers/trees/lmt/LogisticBase.java:203-213 | the starting F and probabilities computed from the current model are n x K grids |
| LogitBoost.StateKeepsRowSums | src/main/weka/reconcile/weka/classifiers/trees/lmt/LogisticBase.java:404-419 | boosting never changes the sum of a row of F |
| LogitBoost.StatesCentered | src/main/weka/reconcile/weka/classifiers/trees/lmt/LogisticBase.java:404-419 | starting from any model, every row of F in every state of the run sums to zero |
| LogitBoost.StopAt | src/main/weka/reconcile/weka/classifiers/trees/lmt/LogisticBase.java:224-247 | the early-stopping loop ends within its limit; every iteration before the end succeeded; it ends at the limit, at a failed fit, or right after an iteration begun with noMin above the patience; no earlier iteration had noMin above the patience |
| LogitBoost.NoImprovementWindow | src/main/weka/reconcile/weka/classifiers/trees/lmt/LogisticBase.java:240-246 | noMin above the patience P means none of the last P+1 errors fell strictly below the running minimum |
| LogitBoost.FirstMinUnique | src/main/weka/reconcile/weka/classifiers/trees/lmt/LogisticBase.java:346-356 | there is only one first minimum |
| LogitBoost.IsFirstMin | src/main/weka/reconcile/weka/classifiers/trees/lmt/LogisticBase.java:346-356 | a first minimum lies within 0..m and precedes every other index holding the same error |
| LogitBoost.Eq | src/main/weka/reconcile/weka/classifiers/trees/lmt/LogisticBase.java:644-644 | Utils.eq holds exactly when the two values differ by less than Utils.SMALL, and always for equal values |
| LogitBoost.Coefficients | src/main/weka/reconcile/weka/classifiers/trees/lmt/LogisticBase.java:701-717 | a class's coefficient vector has one slot for the constant and one per attribute |
| LogitBoost.CoefficientsLinear | src/main/weka/reconcile/weka/classifiers/trees/lmt/LogisticBase.java:701-717 | the linear model given by the coefficients computes the same value as the sum of the kept simple regressions |
| LogitBoost.CoefficientSlots | src/main/weka/reconcile/weka/classifiers/trees/lmt/LogisticBase.java:701-717 | slot 0 is the sum of the kept intercepts, slot a+1 the sum of the slopes of the kept regressions on attribute a |
| Lmt.YsOf | src/main/weka/reconcile/weka/classifiers/trees/lmt/LogisticBase.java:543-553 | the class indicator table has one row per instance and one column per class |
| Lmt.RunFrom | src/main/weka/reconcile/weka/classifiers/trees/lmt/LogisticBase.java:203-213 | a boosting run on valid data from a model is well formed |
| Lmt.StartIsFsRows | src/main/weka/reconcile/weka/classifiers/trees/lmt/LogisticBase.java:256-262 | the starting state holds getFs of every row and the probabilities of those values |
| Lmt.PrefixIsTable | src/main/weka/reconcile/weka/classifiers/trees/lmt/LogisticBase.java:462-472 | the first t columns of the table, once they hold the run's columns, are the run's table after t iterations |
| Lmt.StartFromNothing | src/main/weka/reconcile/weka/classifiers/trees/lmt/LogisticBase.java:156-189 | an empty model starts the same run as a fresh one |
| Lmt.CountOkIs | src/main/weka/reconcile/weka/classifiers/trees/lmt/LogisticBase.java:256-273 | the loop of performBoosting(n) ends at the count of consecutive successes |
| Lmt.EarlyStop | src/main/weka/reconcile/weka/classifiers/trees/lmt/LogisticBase.java:240-246 | stop exactly when noMin already exceeds the patience; the new lastMin is the smaller of the error and the old minimum; noMin resets to 0 exactly on a strict improvement and otherwise grows by one |
| Lmt.EarlyStopTracks | src/main/weka/reconcile/weka/classifiers/trees/lmt/LogisticBase.java:240-246 | one early-stopping test stops exactly where the stopping rule says, and otherwise updates lastMin and noMin to the running minimum and the iterations since a strict improvement |
| Lmt.Predictions | src/main/weka/reconcile/weka/classifiers/trees/lmt/LogisticBase.java:383-394 | the predictions of one column of regressions on an instance, and their mean |
| Lmt.AddCenteredRow | src/main/weka/reconcile/weka/classifiers/trees/lmt/LogisticBase.java:406-419 | one row of F gains the centered increments; every other row is unchanged |
| Lmt.AddIncrementRow | src/main/weka/reconcile/weka/classifiers/trees/lmt/LogisticBase.java:406-419 | one row of F gains one iteration's increments; every other row is unchanged |
| Lmt.AddCenteredTo | src/main/weka/reconcile/weka/classifiers/trees/lmt/LogisticBase.java:564-577 | the vector F(x) gains the centered increments |
| Lmt.AddIteration | src/main/weka/reconcile/weka/classifiers/trees/lmt/LogisticBase.java:564-577 | adding iteration i to F(x) of the first i iterations gives F(x) of the first i + 1 |
| Lmt.ReadColumn | src/main/weka/reconcile/weka/classifiers/trees/lmt/LogisticBase.java:564-569 | reads the column of regressions fitted in one iteration |
| Lmt.SumIncrements | src/main/weka/reconcile/weka/classifiers/trees/lmt/LogisticBase.java:558-578 | getFs(instance) of the kept table, summed iteration by iteration |
| Lmt.CopyRow | src/main/weka/reconcile/weka/classifiers/trees/lmt/LogisticBase.java:583-592 | one row of the table takes the given values; every other row is unchanged |
| Lmt.WriteColumn | src/main/weka/reconcile/weka/classifiers/trees/lmt/LogisticBase.java:389-401 | the fitted regressions are stored in column i; every other entry is unchanged |
| Lmt.AddIncrements | src/main/weka/reconcile/weka/classifiers/trees/lmt/LogisticBase.java:404-419 | every row of F gains the iteration's centered increments |
| Lmt.UpdateProbs | src/main/weka/reconcile/weka/classifiers/trees/lmt/LogisticBase.java:421-424 | the probabilities are recomputed from the new F |
| Lmt.Responses | src/main/weka/reconcile/weka/classifiers/trees/lmt/LogisticBase.java:380-386 | the working responses and weights of class j, per instance |
| Lmt.UsedOf | src/main/weka/reconcile/weka/classifiers/trees/lmt/LogisticBase.java:638-660 | the used attributes of one class, strictly ascending, are exactly the attributes whose coefficient is not zero up to Utils.SMALL |
| Lmt.UsedBelow | src/main/weka/reconcile/weka/classifiers/trees/lmt/LogisticBase.java:648-660 | the collected indices lie below the number of attributes |
| Lmt.UsedMembers | src/main/weka/reconcile/weka/classifiers/trees/lmt/LogisticBase.java:648-660 | the collected indices are strictly ascending and are exactly the flagged ones |
| Lmt.Collect | src/main/weka/reconcile/weka/classifiers/trees/lmt/LogisticBase.java:646-660 | counting and then collecting the flagged attributes gives the flagged indices in order |
| Lmt.AccumulateClass | src/main/weka/reconcile/weka/classifiers/trees/lmt/LogisticBase.java:703-716 | one class's coefficient vector, accumulated regression by regression |
| Lmt.LogisticBase.Kept | src/main/weka/reconcile/weka/classifiers/trees/lmt/LogisticBase.java:462-472 | the model is a table of K rows, each with the numRegressions kept regressions |
| Lmt.LogisticBase.constructor | src/main/weka/reconcile/weka/classifiers/trees/lmt/LogisticBase.java:92-113 | stores the settings; the model is empty |
| Lmt.LogisticBase.InitRegressions | src/main/weka/reconcile/weka/classifiers/trees/lmt/LogisticBase.java:431-441 | a fresh K x maxIterations table of unfitted regressions |
| Lmt.LogisticBase.GetYs | src/main/weka/reconcile/weka/classifiers/trees/lmt/LogisticBase.java:543-553 | the 0/1 indicator of every instance and class |
| Lmt.LogisticBase.GetZs | src/main/weka/reconcile/weka/classifiers/trees/lmt/LogisticBase.java:496-502 | each entry is getZ of the class indicator and the probability |
| Lmt.LogisticBase.GetWs | src/main/weka/reconcile/weka/classifiers/trees/lmt/LogisticBase.java:507-516 | each entry is the working weight of the class indicator and the probability |
| Lmt.LogisticBase.GetFs | src/main/weka/reconcile/weka/classifiers/trees/lmt/LogisticBase.java:558-578 | F(x) of the kept model: one value per class, summing to zero |
| Lmt.LogisticBase.CurrentFs | src/main/weka/reconcile/weka/classifiers/trees/lmt/LogisticBase.java:583-592 | getFs of every row, as an n x K grid |
| Lmt.LogisticBase.GetFsAll | src/main/weka/reconcile/weka/classifiers/trees/lmt/LogisticBase.java:583-592 | a fresh table holding getFs of every row |
| Lmt.LogisticBase.GetProbs | src/main/weka/reconcile/weka/classifiers/trees/lmt/LogisticBase.java:597-606 | a fresh table of the probabilities of every row of F |
| Lmt.LogisticBase.PerformIteration | src/main/weka/reconcile/weka/classifiers/trees/lmt/LogisticBase.java:369-426 | returns true iff every class's fit finds an attribute; stores the fits up to the first failure in column i and changes no other column; on success F gains the centered increments and the probabilities are recomputed; on failure F and the probabilities are unchanged |
| Lmt.LogisticBase.FitOne | src/main/weka/reconcile/weka/classifiers/trees/lmt/LogisticBase.java:380-394 | the regression fitted for class j from the working responses and weights |
| Lmt.LogisticBase.FitClasses | src/main/weka/reconcile/weka/classifiers/trees/lmt/LogisticBase.java:375-401 | fits class by class until the first failure; returns true iff all found an attribute |
| Lmt.LogisticBase.StartBoosting | src/main/weka/reconcile/weka/classifiers/trees/lmt/LogisticBase.java:256-262 | the starting indicators, F and probabilities of the run from the current model |
| Lmt.LogisticBase.BoostStep | src/main/weka/reconcile/weka/classifiers/trees/lmt/LogisticBase.java:266-269 | an iteration succeeds exactly when the run says so, and keeps the arrays in step with the run |
| Lmt.LogisticBase.PerformBoosting | src/main/weka/reconcile/weka/classifiers/trees/lmt/LogisticBase.java:256-273 | numRegressions is the number of consecutive successful iterations, at most n, and the table holds the run's columns |
| Lmt.LogisticBase.BoostLoop | src/main/weka/reconcile/weka/classifiers/trees/lmt/LogisticBase.java:264-270 | the loop ends at the count of consecutive successes, with the run's columns stored |
| Lmt.LogisticBase.BoostLoopBody | src/main/weka/reconcile/weka/classifiers/trees/lmt/LogisticBase.java:266-269 | one pass: a success advances the count and keeps the arrays in step; a failure leaves the count |
| Lmt.LogisticBase.PerformBoostingTrain | src/main/weka/reconcile/weka/classifiers/trees/lmt/LogisticBase.java:280-319 | the loop stops where the early-stopping rule says (at most maxIterations), numRegressions is the first minimum of the recorded training errors up to there, and the table holds the run's columns |
| Lmt.LogisticBase.TrainLoop | src/main/weka/reconcile/weka/classifiers/trees/lmt/LogisticBase.java:286-315 | the stopping iteration and the training errors recorded up to it |
| Lmt.LogisticBase.TrainStep | src/main/weka/reconcile/weka/classifiers/trees/lmt/LogisticBase.java:296-305 | one iteration and, if it succeeds, the training error after it |
| Lmt.LogisticBase.TableError | src/main/weka/reconcile/weka/classifiers/trees/lmt/LogisticBase.java:305 | the error of the model made of the run's first t columns |
| Lmt.LogisticBase.RecordError | src/main/weka/reconcile/weka/classifiers/trees/lmt/LogisticBase.java:305 | records the training error after the next iteration |
| Lmt.LogisticBase.AddFoldError | src/main/weka/reconcile/weka/classifiers/trees/lmt/LogisticBase.java:233-234 | adds the test error after the next iteration to the fold sums |
| Lmt.LogisticBase.FoldStep | src/main/weka/reconcile/weka/classifiers/trees/lmt/LogisticBase.java:224-234 | one fold iteration and, if it succeeds, the test error it adds |
| Lmt.LogisticBase.TrainBody | src/main/weka/reconcile/weka/classifiers/trees/lmt/LogisticBase.java:295-315 | one pass of the training loop: error recorded, early-stopping test, and the counters kept equal to noMin and lastMin of the error sequence |
| Lmt.LogisticBase.FoldBody | src/main/weka/reconcile/weka/classifiers/trees/lmt/LogisticBase.java:224-247 | one pass of the fold loop: error added, early-stopping test on the summed errors, counters kept |
| Lmt.LogisticBase.PerformBoostingFold | src/main/weka/reconcile/weka/classifiers/trees/lmt/LogisticBase.java:203-250 | returns the iteration where the stopping rule on the summed errors says, at most the cap; adds this fold's error to error[k] exactly for k up to that iteration and leaves the rest; numRegressions is that count if positive |
| Lmt.LogisticBase.FoldLoop | src/main/weka/reconcile/weka/classifiers/trees/lmt/LogisticBase.java:221-247 | the fold loop's stopping iteration and what it adds to error[] |
| Lmt.LogisticBase.AfterFold | src/main/weka/reconcile/weka/classifiers/trees/lmt/LogisticBase.java:180-181 | the summed errors and the cap stay of the same shape after a fold |
| Lmt.LogisticBase.CVAfter | src/main/weka/reconcile/weka/classifiers/trees/lmt/LogisticBase.java:164-182 | the summed errors and the cap after the first i folds |
| Lmt.LogisticBase.CompletedIsMinimum | src/main/weka/reconcile/weka/classifiers/trees/lmt/LogisticBase.java:161-182 | completedIterations is at most maxIterations, at most every fold's count, and equal to the last fold's count when it lowered the cap: the minimum of maxIterations and all fold counts |
| Lmt.LogisticBase.CompletedStep | src/main/weka/reconcile/weka/classifiers/trees/lmt/LogisticBase.java:180-181 | a fold stops within the cap left by earlier folds, and that count becomes the new cap |
| Lmt.LogisticBase.PerformBoostingCV | src/main/weka/reconcile/weka/classifiers/trees/lmt/LogisticBase.java:156-189 | bestIteration is the first minimum of the summed fold errors up to completedIterations, which is at most maxIterations; the final model is performBoosting(bestIteration) from an empty model on all the data |
| Lmt.LogisticBase.CrossValidate | src/main/weka/reconcile/weka/classifiers/trees/lmt/LogisticBase.java:164-182 | the summed fold errors and the least fold count |
| Lmt.LogisticBase.CrossValidateFold | src/main/weka/reconcile/weka/classifiers/trees/lmt/LogisticBase.java:170-181 | one fold from a fresh table, capped and lowering the cap |
| Lmt.LogisticBase.FoldOutcome | src/main/weka/reconcile/weka/classifiers/trees/lmt/LogisticBase.java:178-181 | what a fold leaves in error[] and completedIterations is what the fold record says |
| Lmt.LogisticBase.GetBestIteration | src/main/weka/reconcile/weka/classifiers/trees/lmt/LogisticBase.java:346-356 | the index is at most m, its error is at most every error up to m, and every earlier error is strictly larger |
| Lmt.LogisticBase.SelectRegressions | src/main/weka/reconcile/weka/classifiers/trees/lmt/LogisticBase.java:462-472 | a fresh K x numRegressions table equal to the prefix of its input |
| Lmt.LogisticBase.GetCoefficients | src/main/weka/reconcile/weka/classifiers/trees/lmt/LogisticBase.java:701-717 | per class, slot 0 sums the kept intercepts and slot a+1 the kept slopes on attribute a |
| Lmt.LogisticBase.GetUsedAttributes | src/main/weka/reconcile/weka/classifiers/trees/lmt/LogisticBase.java:631-664 | per class, strictly ascending, exactly the attributes whose coefficient is not zero up to Utils.SMALL |
| WekaCore.InsertedAt | src/main/weka/reconcile/weka/core/InstanceShort.java:971-980 | one longer, missing at the position, prefix kept, suffix shifted up |
| WekaCore.DeletedAt | src/main/weka/reconcile/weka/core/InstanceShort.java:952-963 | one shorter, prefix kept, suffix shifted down |
| WekaCore.DeleteUndoesInsert | src/main/weka/reconcile/weka/core/InstanceShort.java:952-980 | deleting at the position where a value was inserted restores the vector |
| WekaCore.ReplacedMissing | src/main/weka/reconcile/weka/core/InstanceShort.java:509-521 | missing slots take the replacement value; the others keep theirs |
| WekaCore.ArrayCopy | src/main/weka/reconcile/weka/core/InstanceShort.java:971-980 | System.arraycopy: the target range gets the source values, the rest of the target is unchanged |
| WekaCore.InstanceShort.FromInstance | src/main/weka/reconcile/weka/core/InstanceShort.java:95-100 | the shallow copy constructor shares the value array, copies the weight, and has no dataset |
| WekaCore.InstanceShort.FromValues | src/main/weka/reconcile/weka/core/InstanceShort.java:111-117 | shares the given array, takes the weight, has no dataset |
| WekaCore.InstanceShort.IsMissing | src/main/weka/reconcile/weka/core/InstanceShort.java:387-393 | an attribute is missing exactly when its stored value is Short.MIN_VALUE, -32768 |
| WekaCore.InstanceShort.Missing | src/main/weka/reconcile/weka/core/InstanceShort.java:127-135 | a fresh vector of the given length, every value missing, weight 1, no dataset |
| WekaCore.InstanceShort.Copy | src/main/weka/reconcile/weka/core/InstanceShort.java:250-254 | shares the value array and keeps weight and dataset |
| WekaCore.InstanceShort.ToShortArray | src/main/weka/reconcile/weka/core/InstanceShort.java:804-810 | a fresh array equal to the values |
| WekaCore.InstanceShort.FreshAttributeVector | src/main/weka/reconcile/weka/core/InstanceShort.java:992-995 | a fresh array with the same values; nothing else changes |
| WekaCore.InstanceShort.ForceDeleteAttributeAt | src/main/weka/reconcile/weka/core/InstanceShort.java:952-963 | a fresh vector with the value at the position removed |
| WekaCore.InstanceShort.ForceInsertAttributeAt | src/main/weka/reconcile/weka/core/InstanceShort.java:971-980 | a fresh vector with a missing value inserted at the position |
| WekaCore.InstanceShort.DeleteAttributeAt | src/main/weka/reconcile/weka/core/InstanceShort.java:279-286 | RuntimeException with a dataset; IndexOutOfBounds outside 0..numAttributes-1; otherwise the forced delete |
| WekaCore.InstanceShort.InsertAttributeAt | src/main/weka/reconcile/weka/core/InstanceShort.java:369-380 | RuntimeException with a dataset; IllegalArgumentException outside 0..numAttributes; otherwise the forced insert |
| WekaCore.InstanceShort.HasMissingValue | src/main/weka/reconcile/weka/core/InstanceShort.java:329-342 | UnassignedDatasetException without a dataset; otherwise true iff some index other than the class index is missing |
| WekaCore.InstanceShort.MergeInstance | src/main/weka/reconcile/weka/core/InstanceShort.java:438-449 | a fresh instance whose values are this one's followed by the other's, weight 1, no dataset |
| WekaCore.InstanceShort.ReplaceMissingValues | src/main/weka/reconcile/weka/core/InstanceShort.java:509-521 | IllegalArgumentException for null or a length mismatch; otherwise each missing slot takes the replacement value and the rest are kept |
| WekaCore.InstanceShort.SetValue | src/main/weka/reconcile/weka/core/InstanceShort.java:632-636 | a fresh vector that differs from the old one only at the index |
| WekaCore.SetValueAfterCopy | src/main/weka/reconcile/weka/core/InstanceShort.java:250-254 | after copy() and setValue on the original, the copy keeps the old values and the original has the new one |
| WekaCore.SetValueKeepsCallerArray | src/main/weka/reconcile/weka/core/InstanceShort.java:632-636 | setValue on an instance built around a caller's array leaves that array as it was |
| WekaCore.InsertThenDelete | src/main/weka/reconcile/weka/core/InstanceShort.java:279-286 | insertAttributeAt then deleteAttributeAt at one position: the slot was missing and the vector is restored |
| BinaryEncoding.NominalBlock | src/main/weka/reconcile/weka/filters/supervised/attribute/NominalToBinary.java:383-417 | an expanded nominal attribute gives one attribute per value; any other attribute gives one |
| BinaryEncoding.BuildNominalFormat | src/main/weka/reconcile/weka/filters/supervised/attribute/NominalToBinary.java:371-423 | the nominal-class output format, with the class index landing on the class attribute |
| BinaryEncoding.NominalStep | src/main/weka/reconcile/weka/filters/supervised/attribute/NominalToBinary.java:383-418 | attribute j appends its block, and the class index shifts by the block width minus one for an expanded attribute before the class |
| BinaryEncoding.NominalClassLands | src/main/weka/reconcile/weka/filters/supervised/attribute/NominalToBinary.java:381-421 | the shifted class index picks out the class attribute in the output |
| BinaryEncoding.NominalAttributes | src/main/weka/reconcile/weka/filters/supervised/attribute/NominalToBinary.java:385-417 | the attributes appended for input attribute j |
| BinaryEncoding.NominalCode | src/main/weka/reconcile/weka/filters/supervised/attribute/NominalToBinary.java:493-518 | the block written for attribute j has the width of its layout block |
| BinaryEncoding.NominalAligned | src/main/weka/reconcile/weka/filters/supervised/attribute/NominalToBinary.java:491-519 | the cursor attSoFar before attribute j equals the layout offset, and the whole encoding has the output width |
| BinaryEncoding.NominalOneHot | src/main/weka/reconcile/weka/filters/supervised/attribute/NominalToBinary.java:498-516 | a present value of an expanded attribute: 1 exactly at offset value, 0 elsewhere in the block |
| BinaryEncoding.NominalMissingBlock | src/main/weka/reconcile/weka/filters/supervised/attribute/NominalToBinary.java:498-516 | a missing value of an expanded attribute: every slot of the block is missing |
| BinaryEncoding.NominalCopiesValue | src/main/weka/reconcile/weka/filters/supervised/attribute/NominalToBinary.java:495-497 | a value that is not expanded is copied |
| BinaryEncoding.ConvertInstanceNominal | src/main/weka/reconcile/weka/filters/supervised/attribute/NominalToBinary.java:488-530 | the converted instance is the encoding, of the output width, with the weight kept |
| BinaryEncoding.NominalBlockStep | src/main/weka/reconcile/weka/filters/supervised/attribute/NominalToBinary.java:493-519 | one pass of the loop extends the filled prefix by attribute j's block |
| BinaryEncoding.PutNominalCode | src/main/weka/reconcile/weka/filters/supervised/attribute/NominalToBinary.java:495-517 | writes attribute j's block at the cursor, which advances by its width |
| BinaryEncoding.SortedCovers | src/main/weka/reconcile/weka/filters/supervised/attribute/NominalToBinary.java:442-474 | sorted orderings name every value of each nominal attribute |
| BinaryEncoding.NumericBlock | src/main/weka/reconcile/weka/filters/supervised/attribute/NominalToBinary.java:444-474 | a nominal non-class attribute with n values gives n-1 attributes; any other gives one |
| BinaryEncoding.BuildNumericFormat | src/main/weka/reconcile/weka/filters/supervised/attribute/NominalToBinary.java:428-480 | the numeric-class output format, with the class index landing on the class attribute |
| BinaryEncoding.NumericStep | src/main/weka/reconcile/weka/filters/supervised/attribute/NominalToBinary.java:444-475 | attribute j appends its block, and the class index shifts by the block width minus one for a nominal attribute before the class |
| BinaryEncoding.NumericClassLands | src/main/weka/reconcile/weka/filters/supervised/attribute/NominalToBinary.java:442-479 | the shifted class index picks out the class attribute in the output |
| BinaryEncoding.NumericAttributes | src/main/weka/reconcile/weka/filters/supervised/attribute/NominalToBinary.java:446-474 | the attributes appended for input attribute j |
| BinaryEncoding.NameOf | src/main/weka/reconcile/weka/filters/supervised/attribute/NominalToBinary.java:452-466 | output attribute k is named name=v_k,...,v_{n-1}, from the values m_Indices[j][k..n-1] |
| BinaryEncoding.Position | src/main/weka/reconcile/weka/filters/supervised/attribute/NominalToBinary.java:553-562 | the position of a value in the ordering |
| BinaryEncoding.NumericCode | src/main/weka/reconcile/weka/filters/supervised/attribute/NominalToBinary.java:543-565 | the block written for attribute j has the width of its layout block |
| BinaryEncoding.NumericAligned | src/main/weka/reconcile/weka/filters/supervised/attribute/NominalToBinary.java:541-566 | the cursor attSoFar before attribute j equals the layout offset, and the whole encoding has the output width |
| BinaryEncoding.NumericThermometer | src/main/weka/reconcile/weka/filters/supervised/attribute/NominalToBinary.java:548-564 | a present value v: slot k-1 is 1 iff v is among the values named by output attribute k, i.e. iff k is at most the position of v in the ordering |
| BinaryEncoding.NumericMissingBlock | src/main/weka/reconcile/weka/filters/supervised/attribute/NominalToBinary.java:548-553 | a missing value: every slot of the block is missing |
| BinaryEncoding.ConvertInstanceNumeric | src/main/weka/reconcile/weka/filters/supervised/attribute/NominalToBinary.java:538-577 | the converted instance is the encoding, of the output width, with the weight kept |
| BinaryEncoding.NumericBlockStep | src/main/weka/reconcile/weka/filters/supervised/attribute/NominalToBinary.java:543-566 | one pass of the loop extends the filled prefix by attribute j's block |
| BinaryEncoding.PutNumericCode | src/main/weka/reconcile/weka/filters/supervised/attribute/NominalToBinary.java:545-564 | writes attribute j's block at the cursor, which advances by its width |
| BinaryEncoding.PutMissing | src/main/weka/reconcile/weka/filters/supervised/attribute/NominalToBinary.java:549-553 | n-1 missing values after the cursor |
| BinaryEncoding.PutCumulative | src/main/weka/reconcile/weka/filters/supervised/attribute/NominalToBinary.java:553-562 | the position of v in the ordering many ones, then zeros, in n-1 slots |
| BinaryEncoding.EmptyNominalCounterexample | src/main/weka/reconcile/weka/filters/supervised/attribute/NominalToBinary.java:428-480 | a nominal attribute with no values before a numeric class: the code's class index and cursor are -1 where the layout puts the class at 0 |
| BinaryEncoding.NumericClassIndexAsWritten | src/main/weka/reconcile/weka/filters/supervised/attribute/NominalToBinary.java:442-452 | while every nominal attribute has a value, newClassIndex drops by at most one per attribute before the class and so stays at or above 0 |
| BinaryEncoding.NumericCursorAsWritten | src/main/weka/reconcile/weka/filters/supervised/attribute/NominalToBinary.java:538-566 | attSoFar drops by at most one per attribute, and never below 0 while every nominal attribute has a value |
| BinaryEncoding.CountersAgree | src/main/weka/reconcile/weka/filters/supervised/attribute/NominalToBinary.java:538-577 | with at least one value per nominal attribute, the code's class index and cursor equal the layout's |
| BinaryEncoding.CountersStep | src/main/weka/reconcile/weka/filters/supervised/attribute/NominalToBinary.java:444-475 | each attribute moves the code's cursor by its block width, and its class index by the width minus one before the class |
| SupervisedAttribute.ConvertAllNumeric | src/main/weka/reconcile/weka/filters/supervised/attribute/NominalToBinary.java:164-168 | converts the buffered instances in order with the numeric-class encoding |
| SupervisedAttribute.NominalToBinary.constructor | src/main/weka/reconcile/weka/filters/supervised/attribute/NominalToBinary.java:257-300 | the two flags; no formats; empty buffers |
| SupervisedAttribute.NominalToBinary.SetInputFormat | src/main/weka/reconcile/weka/filters/supervised/attribute/NominalToBinary.java:103-117 | UnassignedClassException for a negative class index; otherwise true iff the class is nominal, with the nominal output format, or for a numeric class the format from the old orderings (none if unset), which are then cleared |
| SupervisedAttribute.NominalToBinary.Input | src/main/weka/reconcile/weka/filters/supervised/attribute/NominalToBinary.java:128-144 | IllegalStateException without an input format; a new batch clears the queue; converts and returns true when orderings are set or the class is nominal, otherwise buffers and returns false |
| SupervisedAttribute.NominalToBinary.BatchFinished | src/main/weka/reconcile/weka/filters/supervised/attribute/NominalToBinary.java:154-174 | IllegalStateException without an input format; only with no orderings and a numeric class it fixes the orderings, builds the format and converts every buffered instance; then the buffer is empty, a new batch starts, and the result says whether output is pending |
| SupervisedAttribute.NominalToBinary.GetOptionsAsWritten | src/main/weka/reconcile/weka/filters/supervised/attribute/NominalToBinary.java:223-240 | with -N and -A both due the second write overruns the one-element array; otherwise the one option is -N if binary attributes are nominal, else -A if all values are transformed, else the empty string |
| SupervisedAttribute.NominalToBinary.GetOptions | src/main/weka/reconcile/weka/filters/supervised/attribute/NominalToBinary.java:223-240 | exactly the two slots -N (if binary attributes are nominal), then -A (if all values are transformed), then empty strings |

## Left out

- `probs` (`Math.exp` with normalisation, LogisticBase.java:521-538) is an oracle `Softmax`. `logLikelihood` (`Math.log`) is not modelled.
- `getErrorRate` and `getMeanAbsoluteError` are oracle `Evaluator` functions of a data set and a table of regressions. They depend on Weka's `Evaluation`, which is not part of this model.
- `SimpleLinearRegression.buildClassifier` is not part of this model. It is an oracle `Fitter` from working responses and weights to an `(attribute, slope, intercept)` triple.
- Float rounding in the `(float)` casts is not modelled. All arithmetic is over `real`, so the centering identity and the `getZ` bounds are exact.
- `getZ`'s division by a zero probability gives an IEEE infinity in Java, which the clip turns into ±Z_MAX. The model writes this case out as the clipped value.
- `buildClassifier` is not modelled. It dispatches to the three boosting variants after `getNumericData` and `selectRegressions`. Its set-up (LogisticBase.java:124-132) is not modelled either. The constructor starts with `numClasses = 0`, `numAttributes = 0` and a 0×0 table. The caller must assign these fields in place of that set-up, since the boosting methods require `numClasses >= 1`.
- The data sets arrive already in numeric form, and the five folds arrive already drawn. `Instances.stratify`, `trainCV`, `testCV` and `getNumericData` are plumbing over `Instances`, which is not part of this model.
- `percentAttributesUsed` (a float percentage) and `toString` (formatting) are not modelled.
- `setMaxIterations` and `setHeuristicStop` are not modelled. Both settings are constructor parameters (the source defaults to 500 and 50), and `fixedNumIterations`/`useCrossValidation` are kept only as fields.
- Lmt.LogisticBase.PerformBoosting: requires n to be at most the table's width, maxIterations. Beyond that width the source throws ArrayIndexOutOfBoundsException, which is not modelled. PerformBoostingTrain and PerformBoostingFold carry the same requirement.
- Lmt.LogisticBase.GetCoefficients: requires every kept regression's attribute to be a valid attribute of the numeric header, or -1. Otherwise the source throws ArrayIndexOutOfBoundsException, which is not modelled. GetUsedAttributes inherits the requirement.
- Lmt.LogisticBase.PerformBoostingTrain: in the source the training-error loop also writes `m_numRegressions` on every iteration. The model writes only the final value, which is what the method leaves.
- Lmt.LogisticBase.PerformBoostingFold: writes `numRegressions` once after the loop rather than on every successful iteration. The final value is the same.
- Lmt.LogisticBase.PerformIteration: the fitted column is written after the fitting loop. The final table is the same.
- Lmt.LogisticBase.PerformBoostingCV: returns its two locals, `completedIterations` and `bestIteration`, so that their values can be stated.
- The javadoc of `performBoosting()` speaks of the validation error. The code uses the training error, and the model follows the code.
- `getFs(Instance)` builds its F(x) in a one-dimensional array and reads each iteration's column of the table with `ReadColumn`, where the source indexes `m_regressions[j][i]` directly.
- The loop bodies of the boosting methods are separate methods (`BoostLoopBody`, `TrainBody`, `FoldBody`, `TrainStep`, `FoldStep`) with the same statements.
- BinaryEncoding.Value: a value is `Missing` or an integer, where the source holds a double. BinaryEncoding.ConvertInstanceNominal and BinaryEncoding.ConvertInstanceNumeric copy that integer unchanged. They do not model the double-to-float narrowing of the source's `float[] vals` (NominalToBinary.java:490, 496, 500, 540, 546), nor non-integral numeric values.
- In NominalToBinary, `computeAverageClassValues` is not modelled, because it uses double averages and `Utils.sort`. Its result, `m_Indices`, is a parameter of `batchFinished`, assumed to hold a permutation of each nominal attribute's values.
- The filter's queue plumbing is not modelled: `push`, `bufferInput`, `flushInput`, `copyStringValues`, and the `Filter` superclass. The superclass is only assumed to store the input format and to clear the output format and the queue.
- SupervisedAttribute.NominalToBinary.BatchFinished: appends the batch's conversions to the queue as one sequence.
- SupervisedAttribute.NominalToBinary.SetInputFormat: when an old ordering does not name every value of the new header, the source throws. After this error the model does not restore the filter's invariant.
- `SparseInstance`, `setOptions` and `listOptions` (`Utils.getFlag`) and `main` are not modelled. The flags `m_Numeric` and `m_TransformAll` are constructor parameters; the setters mid-stream are not modelled.
- In InstanceShort, the methods that need the dataset's attributes are not modelled, because `InstancesShort` and `AttributeShort` are not part of this model. These are `attribute`, `stringValue`, `setValue(int, String)`, `toString`, `equalHeaders` and `enumerateAttributes`, plus the demo `main`. The dataset is a stand-in that carries only its class index.
- WekaCore.InstanceShort.DeleteAttributeAt: any exception from an out-of-range position is reported as IndexOutOfBounds. In the source it is the exception of `System.arraycopy`, or `NegativeArraySizeException` on an empty vector.
- `deleteAttributeAt`'s JML precondition `m_Dataset != null` contradicts its body, which throws exactly then. The model follows the body: it succeeds only without a dataset.

## Findings

| source | as written | input that shows it | evidently intended | confidence | as-written member | corrected member |
|---|---|---|---|---|---|---|
| src/main/weka/reconcile/weka/filters/supervised/attribute/NominalToBinary.java:223-240 | `getOptions` allocates one slot but writes both "-N" and "-A" into it | a filter with binary attributes treated as nominal and all values transformed: the second write is out of bounds | room for both flags, the rest padded with "" | not executed; high | SupervisedAttribute.NominalToBinary.GetOptionsAsWritten | SupervisedAttribute.NominalToBinary.GetOptions |
| src/main/weka/reconcile/weka/filters/supervised/attribute/NominalToBinary.java:442-479 | with a numeric class, every nominal attribute shifts the class index by numValues-2 and the cursor by numValues-1, even when it has no values | attributes [nominal "a" with no values, numeric class "c"], class index 1: the layout holds only "c", at index 0, but the class index becomes -1 and the class value is written at cursor -1 | the counters advance by the width of the block actually emitted | not executed; medium | BinaryEncoding.EmptyNominalCounterexample | BinaryEncoding.BuildNumericFormat, BinaryEncoding.NumericStep, BinaryEncoding.PutNumericCode, BinaryEncoding.NumericWidth |
