# mnist_svm_example: a verified model of the SVM core

This project models the classification core of `mnist_svm_example`:

- the one-vs-one multiclass linear SVM of `code/ml/multiclass_svm.cpp`;
- the binary linear SVM it trains per label pair (`code/ml/binary_svm.cpp`);
- the helpers of `code/ml/util.cpp`: training-data validators, the dot product, elementwise normalisation, quadratic feature expansion, and the model file layout;
- the older binary SVM of the superpixel tool (`vlfeat_slic_cli/binary_svm.cpp`).

Every `double` is a Dafny `real`. The external SGD solver is a function parameter `fit`. Its only promise (`SolverContract`) is one weight per input column. Everything else is stated in terms of `fit`: the k-th trained model is whatever the solver returns on the k-th pair's sub-problem.

Modules, in dependency order:

- `Failures`: `Option`, `Result`, `Outcome` and the `Error` cases that stand for the thrown exceptions.
- `PairOrder`: the enumeration of pairs (i, j), i < j < n, with i in the outer loop. Multiclass training and prediction walk it, and so does the quadratic expansion. It proves the length n(n-1)/2, strict lexicographic order, completeness and the position of every pair.
- `Util`: the validators as functions. `DotProduct` and `AddQuadraticInteractions` are loop methods proved against specification functions (`Dot`, `Products` over the pair order). `Normalize` is a nested loop whose postconditions state the elementwise formula and its inverse directly.
- `BinarySvm`:
  - the sign rule `Decide`;
  - the prediction specification `LinearPredict`;
  - the `BinarySVM` class, whose `Train` validates, resets, flattens the rows into arrays and stores the solver's output, and whose `Predict` loops over the rows.
- `UniqueLabels`: `GetUniqueLabels` sorts an array in place, then compacts the duplicates in place.
- `Voting`:
  - the ballot tally with the first-to-reach-the-maximum tie-break (`Winner`);
  - `Commonest`, the map-counting loop of prediction, proved equal to it.
- `MulticlassSvm`:
  - sub-problems, ballots and the prediction specification;
  - the `MulticlassSVM` class with the restoring constructor, nested-loop `Train` and `Predict`.
- `Persistence`: the model file as a sequence of numeric tokens. `SaveModel` writes it. `ReadModel` reads it field by field, with one error per field. `SavePredictions` checks the lengths.
- `SlicBinarySvm`: the older variant, with its own label and training-data validators and a solver that takes only lambda. Its `ValidateDimensions` and `DotProduct` (vlfeat_slic_cli/binary_svm.cpp:24-31, 51-57) do what the library's do, so the model uses `Util.ValidateDimensions` and `Util.DotProduct` for them.

The getters (`GetModel`, `GetBias`, `GetModels`, `GetBiases`, `GetLabels`) return the stored fields and read nothing else.

## Model

| member | source | states |
|---|---|---|
| Util.ValidateBinaryLabels | code/ml/util.cpp:21-30 | Passes iff every label is 1 or -1. Otherwise it fails with the index and value of the first bad label. |
| Util.ValidateDimensions | code/ml/util.cpp:32-40 | Passes iff expected equals got. Otherwise it fails with a mismatch quoting the input index and both widths. |
| Util.ValidateTrainData | code/ml/util.cpp:42-61 | Passes iff x is non-empty, \|x\| == \|y\|, every label is ±1 (when binary labels are required) and every row is as wide as row 0. The checks run in that order: empty input first, then the size mismatch, then a wrong label (the result is then exactly the binary-label validator's error), then the first ragged row with its index and widths (a ragged row that passes the earlier checks always yields DimensionMismatch). |
| Util.DotProduct | code/ml/util.cpp:63-69 | The accumulating loop returns the sum of v1[i]*v2[i] over the indices of v1, given \|v2\| >= \|v1\|. |
| Util.DotPrefix | code/ml/util.cpp:63-69 | Only the first \|v1\| entries of v2 take part in the dot product. |
| Util.Normalize | code/ml/util.cpp:258-268 | Keeps the number of rows and each row's length. Maps every value in the first \|x[0]\| columns to (v - mean) / std and leaves any longer tail alone. Every normalised value gives back the original as v' * std + mean. |
| Util.NormalizeInverse | code/ml/util.cpp:261-265 | For a matrix standardised as Normalize's loops do (std != 0), every value within row 0's width is recovered as v' * std + mean. |
| Util.ProductsAt | code/ml/util.cpp:348-350 | The t-th appended feature is the product of the t-th pair's two columns. |
| Util.AddQuadraticInteractions | code/ml/util.cpp:345-356 | Keeps the row count. Every row is its original values followed by x[j]*x[k] for all j < k < \|x[0]\|, in lexicographic pair order. |
| Util.AppendProducts | code/ml/util.cpp:348-352 | The j/k loops for one row append exactly the products of Pairs(d). |
| Util.AppendRowProducts | code/ml/util.cpp:349-351 | One pass of the k loop adds the products of the pairs (j, k) for k from j+1 to d-1. |
| Util.QuadraticLength | code/ml/util.cpp:345-356 | For every width D = \|x[0]\| up to the row's length, including D = 0 and D = 1, a row of length N expands to length N + D(D-1)/2. |
| Util.QuadraticLayout | code/ml/util.cpp:345-356 | For columns j < k < D, the product of columns j and k sits at position N plus the number of pairs enumerated before (j, k), where N is the row's own length. |
| Util.QuadraticOfTwo | code/ml/util.cpp:345-356 | A row [a, b] becomes [a, b, a*b]. |
| PairOrder.PairsLength | code/ml/multiclass_svm.cpp:60-61 | The nested i < j loops over n labels visit n(n-1)/2 pairs. |
| PairOrder.PairsUpToInPairs | code/ml/multiclass_svm.cpp:60-61 | The pairs visited up to any point of the nested loops are a prefix of the full enumeration. |
| PairOrder.PairAt | code/ml/multiclass_svm.cpp:60-61 | Pair (i, j) is at index \|pairs visited before it\|, so model k belongs to the k-th pair visited. |
| PairOrder.PairsComplete | code/ml/multiclass_svm.cpp:60-61 | Every pair i < j < n is visited. |
| PairOrder.PairsOrdered | code/ml/multiclass_svm.cpp:60-61 | Pairs are visited in strictly increasing lexicographic order, hence each exactly once. |
| PairOrder.PairsOfThree | code/ml/multiclass_svm.cpp:60-61 | Three labels give the pairs (0,1), (0,2), (1,2), in that order. |
| BinarySvm.Decide | code/ml/binary_svm.cpp:90-91 | The prediction is 1 or -1, and it is 1 exactly when dot(row, w) + b > 0. |
| BinarySvm.LinearPredict | code/ml/binary_svm.cpp:78-96 | [] for no rows. Otherwise it succeeds iff row 0's width equals the weight count and all rows are equally wide. On success: one prediction per row, each the sign rule of that row. On failure: the first-row/weight mismatch, else the first ragged row, both quoting input 0. |
| BinarySvm.UntrainedRejects | code/test/test_binary_svm.cpp:9-19 | A model with no weights rejects any input whose first row is non-empty. |
| BinarySvm.PredictionsAreSigns | code/ml/binary_svm.cpp:91 | Every prediction is ±1, and +1 exactly for a strictly positive score. |
| BinarySvm.ZeroScoreIsNegative | code/ml/binary_svm.cpp:91 | A score of exactly 0 predicts -1. |
| BinarySvm.SavedModelExample | code/test/test_binary_svm.cpp:61-78 | w = [0.9986288825], b = -4.00736089 classify [[8],[7],[6],[3],[2],[1]] as [1,1,1,-1,-1,-1]. |
| BinarySvm.FlatAt | code/ml/binary_svm.cpp:40-48 | The row-major buffer has \|x\|*d entries, with x[i][j] at position i*d + j. |
| BinarySvm.Flatten | code/ml/binary_svm.cpp:40-48 | The copying loops fill arrays equal to the row-major flattening of x and the labels as reals. |
| BinarySvm.CopyRow | code/ml/binary_svm.cpp:44-46 | The inner copy loop writes row i after the rows already copied and keeps them; every buffer entry after the row is unchanged. |
| BinarySvm.BinarySVM.constructor | code/ml/binary_svm.h:10 | An untrained model: no weights, bias 0. |
| BinarySvm.BinarySVM.FromSaved | code/ml/binary_svm.h:11-12 | Stores the given weights and bias verbatim. |
| BinarySvm.BinarySVM.GetModel | code/ml/binary_svm.cpp:17-19 | Returns the stored weight vector unchanged and reads nothing but the classifier. |
| BinarySvm.BinarySVM.GetBias | code/ml/binary_svm.cpp:21-23 | Returns the stored bias unchanged. |
| BinarySvm.BinarySVM.Train | code/ml/binary_svm.cpp:25-76 | Returns the training-data validation (binary labels). On failure the weights and bias are untouched. On success it stores the solver's bias and exactly \|x[0]\| weights, for the solver run on the flattened data. |
| BinarySvm.BinarySVM.Predict | code/ml/binary_svm.cpp:78-96 | Returns exactly LinearPredict of the stored weights and bias, and changes nothing. |
| UniqueLabels.SortInPlace | code/ml/multiclass_svm.cpp:17 | Sorts the array in place; the result is sorted and a permutation of the input. |
| UniqueLabels.InsertAt | code/ml/multiclass_svm.cpp:17 | One insertion step extends the sorted prefix by one element and keeps the multiset; the unsorted tail a[i + 1..] is unchanged. |
| UniqueLabels.SwapDown | code/ml/multiclass_svm.cpp:17 | Swaps two neighbours, leaves every other entry alone and keeps the multiset. |
| UniqueLabels.UniqueInPlace | code/ml/multiclass_svm.cpp:18-19 | On a sorted array, compacts a strictly increasing prefix with the same set of values and returns its length. |
| UniqueLabels.GetUniqueLabels | code/ml/multiclass_svm.cpp:15-21 | The result is strictly increasing, and its values are exactly the values of y. |
| UniqueLabels.IncreasingUnique | code/ml/multiclass_svm.cpp:15-21 | Two strictly increasing sequences with the same values are equal, so the unique labels are determined by the set of y. |
| UniqueLabels.ElementsCount | code/ml/multiclass_svm.cpp:27-32 | A sequence has at most as many distinct values as entries, with equality iff it has no duplicates. |
| UniqueLabels.UniqueKeepsLength | code/ml/multiclass_svm.cpp:27-32 | The deduplicated copy is as long as the input iff the input has no duplicates. This is the constructor's check. |
| UniqueLabels.MaxIsLast | code/ml/multiclass_svm.cpp:15-21 | The last unique label is the largest. |
| Voting.MaxCountIsMax | code/ml/multiclass_svm.cpp:117-122 | No ballot count exceeds the maximal count, and some ballot reaches it. |
| Voting.WinnerIsFirstToMax | code/ml/multiclass_svm.cpp:114-126 | The vote is one of the ballots. It has the maximal count. Among tied labels it is the one whose count reached the maximum first, in ballot order (the strict `>`). |
| Voting.WinnerTally | code/ml/multiclass_svm.cpp:119-121 | A running count never exceeds the final maximum, and a ballot whose running count reaches it has a maximal final count. |
| Voting.WinnerStep | code/ml/multiclass_svm.cpp:119-122 | One more ballot updates maxcount and commonest only when its count strictly exceeds the previous maximum. |
| Voting.TallyStep | code/ml/multiclass_svm.cpp:119 | `++dict[b]` keeps the map equal to the ballot counts; an absent key counts 0. |
| Voting.Commonest | code/ml/multiclass_svm.cpp:115-123 | The map-counting loop for row i returns the vote winner of that row's ballots. |
| Voting.Column | code/ml/multiclass_svm.cpp:118-119 | Row i's ballots are entry i of every pair's ballot list, in pair order. |
| Voting.TieGoesToFirst | code/ml/multiclass_svm.cpp:119 | With ballots b, a, a, b the tie goes to a, which reached two votes first. |
| Voting.MajorityOfThree | code/ml/multiclass_svm.cpp:114-126 | Of three ballots, the vote is the second when the last two agree, and otherwise the first. |
| MulticlassSvm.SubProblemRows | code/ml/multiclass_svm.cpp:66-78 | The sub-problem of labels (a, b) has Count(a) + Count(b) rows. Row t is the t-th picked row of x, class -1 if labelled a and +1 otherwise. |
| MulticlassSvm.PickedExactly | code/ml/multiclass_svm.cpp:68-77 | Rows are picked in increasing original order, and every row labelled a or b is picked. |
| MulticlassSvm.SubProblemValid | code/ml/multiclass_svm.cpp:66-81 | For a validated set and two distinct labels present in it, the sub-problem passes binary validation: it is non-empty, rectangular and labelled ±1. |
| MulticlassSvm.SubProblemRectangular | code/ml/multiclass_svm.cpp:66-78 | Every sub-problem row is as wide as x[0]. |
| MulticlassSvm.BuildSubProblem | code/ml/multiclass_svm.cpp:66-78 | The k loop builds exactly the sub-problem of the pair's two labels. |
| MulticlassSvm.TrainPair | code/ml/multiclass_svm.cpp:80-81 | Binary training of every pair's sub-problem passes validation, so it never throws. |
| MulticlassSvm.FitPair | code/ml/multiclass_svm.cpp:66-83 | The stored weights and bias of pair (i, j) are the solver's output on that pair's sub-problem. |
| MulticlassSvm.ModelsStep | code/ml/multiclass_svm.cpp:82-83 | Pushing pair (i, j)'s model extends the models matching the pairs visited so far. |
| MulticlassSvm.AllModels | code/ml/multiclass_svm.cpp:60-85 | After all pairs there are L(L-1)/2 models and biases, and entry k is the model of the k-th pair. |
| MulticlassSvm.PairModelWidth | code/ml/multiclass_svm.cpp:80-82 | Every pairwise model of a validated set has \|x[0]\| weights. |
| MulticlassSvm.RecodeAll | code/ml/multiclass_svm.cpp:105-107 | Ballot i names labels[i] of the pair when binary prediction i is -1, and labels[j] otherwise. |
| MulticlassSvm.RecodePredictions | code/ml/multiclass_svm.cpp:104-107 | The recoding loop produces exactly those ballots. |
| MulticlassSvm.Ballots | code/ml/multiclass_svm.cpp:98-111 | On success there is one ballot list per pair, each one entry per input row. |
| MulticlassSvm.BallotsAreLabels | code/ml/multiclass_svm.cpp:105-107 | Every ballot of pair (i, j) is labels[i] or labels[j]. |
| MulticlassSvm.BallotsSucceed | code/ml/multiclass_svm.cpp:100-111 | Ballots exist iff every pairwise binary prediction succeeds. |
| MulticlassSvm.BallotsFailureStays | code/ml/multiclass_svm.cpp:100-111 | The first failing pair's error is the error of the whole prediction. |
| MulticlassSvm.PairBallot | code/ml/multiclass_svm.cpp:102-109 | One inner step predicts with model idx and appends its recoded ballots. |
| MulticlassSvm.PairBallots | code/ml/multiclass_svm.cpp:101-110 | The inner j loop for label i appends the ballots of pairs (i, i+1..L-1), or stops at the first error. |
| MulticlassSvm.VoteRows | code/ml/multiclass_svm.cpp:113-126 | The row loop returns each row's vote winner. |
| MulticlassSvm.Votes | code/ml/multiclass_svm.cpp:113-126 | One vote per input row. |
| MulticlassSvm.PredictSucceeds | code/ml/multiclass_svm.cpp:88-129 | Prediction succeeds iff the input is empty, or there are models, the rows are rectangular and every pairwise model is as wide as the rows. |
| MulticlassSvm.PredictionsAreLabels | code/ml/multiclass_svm.cpp:100-126 | A successful prediction has one entry per row, each one of the stored labels. |
| MulticlassSvm.UntrainedRejects | code/test/test_multiclass_svm.cpp:10-22 | Without models, non-empty input fails with "no models". |
| MulticlassSvm.TrainThenPredict | code/ml/multiclass_svm.cpp:47-129 | After Train, rows of the training width predict successfully iff training saw at least two labels, each prediction being a label. With one label there are no models and prediction fails. |
| MulticlassSvm.RestoredThreeLabels | code/test/test_multiclass_svm.cpp:47-69 | The restored three-label models classify 1..6 as [1,1,2,2,3,3]. |
| MulticlassSvm.ThreeLabelBallots | code/test/test_multiclass_svm.cpp:47-69 | The three pairwise ballot lists of that example. |
| MulticlassSvm.ThreeLabelPredictions | code/test/test_multiclass_svm.cpp:47-69 | The three binary predictions of that example. |
| MulticlassSvm.VotesOfThree | code/ml/multiclass_svm.cpp:113-126 | With three pairs, each row's vote is the second pair's ballot if the last two agree, else the first pair's. |
| MulticlassSvm.ThreeLabelVotes | code/test/test_multiclass_svm.cpp:47-69 | The votes of that example's ballots. |
| MulticlassSvm.OneWeightDecisions | code/test/test_multiclass_svm.cpp:47-69 | One-weight models predict +1 exactly where w*v + b > 0. |
| MulticlassSvm.InconsistentInputRejected | code/test/test_multiclass_svm.cpp:71-85 | Rows of different widths make prediction fail. |
| MulticlassSvm.MulticlassSVM.constructor | code/ml/multiclass_svm.h:13 | An untrained classifier with no models, biases or labels. |
| MulticlassSvm.MulticlassSVM.Init | code/ml/multiclass_svm.cpp:23-26 | The member initialisers store the three lists verbatim; the duplicate check that follows them is Restore's. |
| MulticlassSvm.MulticlassSVM.Restore | code/ml/multiclass_svm.cpp:23-33 | Fails with DuplicateLabels iff the labels contain a duplicate. Otherwise it holds the given models, biases and labels unchanged (labels not re-sorted). |
| MulticlassSvm.MulticlassSVM.GetModels | code/ml/multiclass_svm.cpp:35-37 | Returns the stored weight vectors unchanged. |
| MulticlassSvm.MulticlassSVM.GetBiases | code/ml/multiclass_svm.cpp:39-41 | Returns the stored biases unchanged. |
| MulticlassSvm.MulticlassSVM.GetLabels | code/ml/multiclass_svm.cpp:43-45 | Returns the stored labels unchanged, in stored order. |
| MulticlassSvm.MulticlassSVM.Train | code/ml/multiclass_svm.cpp:47-86 | Returns the validation with any integer labels; on failure nothing changes. On success the labels are the sorted distinct labels of y, and there are L(L-1)/2 models and biases. Entry k is the solver's model on the sub-problem of the k-th pair (i, j), i < j, i outer. |
| MulticlassSvm.MulticlassSVM.TrainRow | code/ml/multiclass_svm.cpp:61-84 | One pass of the j loop extends the models with those of pairs (i, j), j > i, and keeps the labels. |
| MulticlassSvm.MulticlassSVM.Predict | code/ml/multiclass_svm.cpp:88-129 | Returns [] for no rows and NoModels without models. Otherwise: the first failing pair's error, or each row's vote over all pairs' ballots. |
| Persistence.ReadReals | code/ml/util.cpp:177-188 | The next k tokens, or nothing when the stream runs out first. |
| Persistence.ReadRows | code/ml/util.cpp:154-168 | Reads m rows of d values iff m*d tokens remain; otherwise it names a model index below m. |
| Persistence.ReadRowsFailure | code/ml/util.cpp:155-164 | The failing model is the first whose values run out: earlier models fit, it does not. |
| Persistence.ReadLabels | code/ml/util.cpp:199-209 | Reads k labels iff k tokens remain and all are integers; otherwise it fails with the label-values error. |
| Persistence.ConcatLength | code/ml/util.cpp:121-126 | Rows of width d write \|rows\|*d values. |
| Persistence.ReadRowsOfConcat | code/ml/util.cpp:121-126 | Rows written as values read back as the same rows. |
| Persistence.RoundTrip | code/ml/util.cpp:115-221 | For non-empty rectangular models, reading the saved tokens recovers the same models, biases and labels, whatever follows. Bias and label counts need not match the model count. |
| Persistence.SavedRows | code/ml/util.cpp:120-128 | The header and rows of a saved model read back, and the bias count follows them. |
| Persistence.SavedBiases | code/ml/util.cpp:128-133 | The saved biases read back, and the label count follows them. |
| Persistence.SavedLabels | code/ml/util.cpp:133-136 | The saved labels read back. |
| Persistence.ReadLabelsOfTokens | code/ml/util.cpp:133-136 | Labels written as tokens read back as the same labels. |
| Persistence.ParseFields | code/ml/util.cpp:144-209 | Reading succeeds with the fields found when every field is present in order. |
| Persistence.Truncated | code/ml/util.cpp:144-209 | Every proper prefix of a saved model fails to read. The error names the field that was cut: header, model values, bias count, biases, label count or labels. |
| Persistence.SaveModel | code/ml/util.cpp:115-137 | The output loops emit exactly the saved layout: model count and first model's width, all model values, bias count and biases, label count and labels. |
| Persistence.ParseModel | code/ml/util.cpp:139-209 | The reading loops compute exactly the field-by-field parse. |
| Persistence.ReadModelRows | code/ml/util.cpp:154-168 | The nested model-reading loops read exactly the rows specification. |
| Persistence.ReadValues | code/ml/util.cpp:177-188 | The bias loop, and the value loop of each model row, reads exactly the next count values, or reports that the stream ran out. |
| Persistence.ReadLabelValues | code/ml/util.cpp:199-209 | The label loop reads exactly the labels specification. |
| Persistence.ReadModel | code/ml/util.cpp:139-221 | A parse failure is returned with its field. Otherwise duplicate labels fail through the constructor. Otherwise the classifier holds the parsed models, biases and labels. |
| Persistence.SavePredictions | code/ml/util.cpp:223-239 | Fails iff the image and prediction counts differ. Otherwise it writes one line per image, line i holding images[i] and predictions[i]. |
| SlicBinarySvm.ValidateLabels | vlfeat_slic_cli/binary_svm.cpp:13-22 | The label loop fails exactly as the binary-label validator does: at the first label outside {1, -1}. |
| SlicBinarySvm.ValidateTrainingData | vlfeat_slic_cli/binary_svm.cpp:33-49 | Rejects empty x, then a size mismatch, then bad labels, then ragged rows, in that order. It agrees with the validator with binary labels required. |
| SlicBinarySvm.BinarySVM.constructor | vlfeat_slic_cli/binary_svm.h:9 | An untrained model: no weights, bias 0. |
| SlicBinarySvm.BinarySVM.FromSaved | vlfeat_slic_cli/binary_svm.h:10-11 | Stores the given weights and bias verbatim. |
| SlicBinarySvm.BinarySVM.GetModel | vlfeat_slic_cli/binary_svm.cpp:60-62 | Returns the stored weight vector (by value in this variant) unchanged. |
| SlicBinarySvm.BinarySVM.GetBias | vlfeat_slic_cli/binary_svm.cpp:64-66 | Returns the stored bias unchanged. |
| SlicBinarySvm.BinarySVM.Train | vlfeat_slic_cli/binary_svm.cpp:68-110 | Returns the validation; on failure nothing changes. On success it stores the lambda solver's bias and exactly \|x[0]\| weights. |
| SlicBinarySvm.BinarySVM.Predict | vlfeat_slic_cli/binary_svm.cpp:112-130 | Returns exactly LinearPredict of the stored weights and bias: [] for no rows, the width errors, else the sign rule per row. SavedModelExample therefore also holds for this variant (vlfeat_slic_cli/test/test_binary_svm.cpp:52-76). |

## Left out

- The VLFeat solver (`vl_svm_new`, `vl_svm_train`, `vl_svm_get_model`, `vl_svm_get_bias`) is a foreign library. It is the function parameter `fit`, whose only promise is one weight per column. The learned values in the training tests are solver output and are not modelled.
- The `std::cout` progress messages and all file opening and closing. `SaveModel` produces a token sequence, `ReadModel` consumes one, and `SavePredictions` produces a sequence of lines.
- Floating point: doubles are reals. The 6-significant-digit text output of `SaveModel` is lossy on real files; the round trip is stated at token level.
- Stream extraction into `size_t` and `int`: a count field must be a non-negative integer token and a label an integer token. Reading "2.5" as 2, a negative count wrapping around, and non-numeric text are not modelled.
- `ReadModel` does not cross-check the bias count against the model count, nor the model count against the label pairs. The model keeps that, so a restored classifier can violate `PredictReady`.
- `ReadData`, `SavePCA`/`LoadPCA`/`CreatePCA`/`ProjectPCA`, `MatrixToCVMat`/`CVMatToMatrix`: OpenCV and file I/O.
- `Normalize(x)` (mean and standard-deviation estimation with `std::sqrt`), `SaveNormalizationParams` and `LoadNormalizationParams`: floating-point statistics and file I/O. Only the elementwise `Normalize(x, mean, std)` is modelled.
- Util.Normalize: requires std != 0, because division by zero (IEEE infinities and NaN) has no real counterpart. Rows shorter than row 0 are undefined behaviour in the source (indexing past the row), so they are excluded by a requires.
- Util.AddQuadraticInteractions: rows shorter than row 0 are excluded by a requires for the same reason.
- BinarySvm.BinarySVM.constructor: the source leaves the bias uninitialised. The model sets it to 0, which is what the empty-model test expects.
- SlicBinarySvm.BinarySVM.constructor: sets the bias to 0 for the same reason.
- MulticlassSvm.MulticlassSVM.Predict: requires `PredictReady`. With input rows and models, the source indexes `models_[idx]` and `biases_[idx]` pair by pair, and reads `commonest`, which is never assigned when there are fewer than two labels. Reaching a missing model or that unassigned read is undefined behaviour, so the model asks for at least two labels and at least L(L-1)/2 models and biases. This also excludes some inputs that are defined in the source: when a classifier holds fewer models than label pairs, an earlier pair's binary prediction can throw first, e.g. a dimension mismatch at pair 0 (labels [1, 2, 3], models [[1.0, 2.0]], biases [0.0], x [[1.0]]), before any missing model is indexed. The model does not cover that error for such inconsistent classifier states.
- Persistence.SaveModel: requires a non-empty model list, because the source reads `GetModels()[0]`. The round trip also requires every model to be as wide as the first, since only the first width is written.
- The readers (`ReadReals`, `ReadRows`, `ReadLabels`) require their start position to lie within the token sequence. `ParseSpec` only calls them from such positions.
- The variable-length stack arrays of the superpixel `Train` (and their stack limit) are modelled as Dafny arrays, as in the library variant.
- The hyper-parameters (lambda, bias multiplier, epsilon) are passed as a `Hyper` record. They affect only the solver's output. The default arguments of the Train declarations (lambda 0.01, bias multiplier 1, epsilon 0.02 at code/ml/binary_svm.h:20-23 and code/ml/multiclass_svm.h:24-26) are not modelled: every call passes its record explicitly.
- `code/main.cpp` (command-line parsing and pipeline glue) and `validate.py` (accuracy script) are not part of this model.
