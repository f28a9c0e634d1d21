# Brancher's shape and dispatch core, in Dafny

Brancher is a PyTorch library for probabilistic programming. This project models the
part of it that decides, for a distribution and its keyword parameters, what happens
when a log-probability is computed or a sample is drawn:

- the tensor-shape helpers of `brancher/utilities.py`: summing out data axes,
  `partial_broadcast`, `uniform_shapes`, `broadcast_and_squeeze`,
  `broadcast_and_squeeze_mixed`, `broadcast_parent_values`, `get_diagonal`,
  `coerce_to_dtype`, `tile_parameter`, and the dictionary helpers `zip_dict`,
  `zip_dict_list`, `split_dict`, `flatten_list` and `join_dicts_list`;
- the parameter check and the two entry points of `brancher/distributions.py`
  (`check_parameters`, `calculate_log_probability`, `get_sample`);
- the three preprocessing strategies: univariate (broadcast everything together),
  implicit (pass through) and vector (fold samples and datapoints into one batch
  axis);
- how each family picks its torch law (location-scale families, Beta, Binomial,
  Categorical);
- the empirical distribution's `_get_sample`: dataset size, weighted draws without
  replacement, and selection from tensor and non-tensor datasets.

A tensor is its shape and its elements in row-major order. A Python exception becomes
`Err(kind)` of a `Result`. Torch operations the code relies on (`view`, `expand`,
`broadcast_tensors`, `unsqueeze`, `repeat`, `cat`, advanced indexing) are modelled
from their documented shape rules. What the laws compute is not modelled: an `Oracle`
supplies the numbers, and the model fixes which law is built from which parameters
and the shape of what it returns. Randomness is a sequence of rolls passed in.

Modules follow the source: `Collections` (dictionary and list helpers), `Data`
(Python values and keyword lists), `Shapes` (shapes and broadcasting), `Tensors`
(tensor operations), `Utilities` and `Reshaping` (the two halves of
`utilities.py`), `Parameters`, `Laws`, `Distributions` and `Empirical` (the parts of
`distributions.py`), and `Wrappers` (`Result` and `Option`).

Where the code and the usual meaning differ, the model follows the code:

- a missing parameter is the `AssertionError` of `check_parameters`, not a dedicated
  error;
- Beta passes `alpha` as `concentration0`;
- the empirical distribution without `indices` on a dataset that is not a list, set,
  tuple, dict or string names the undefined `number_samples`, a `NameError`;
- `get_diagonal` and the vector strategy inherit numpy's float result for an empty
  product, so they fail where a reader might expect an empty result; the empirical
  distribution likewise fails with an IndexError on an empty dataset with batch size 0,
  because numpy's draw from `range(0)` is an empty float array.

## Model

| member | source | states |
|---|---|---|
| Collections.ZipDict | brancher/utilities.py:30-32 | the result has exactly the keys both dictionaries share, and each value is the first dictionary's entry as a tuple followed by the second's |
| Collections.ZipDictListKeys | brancher/utilities.py:35-44 | zipping two or more dictionaries keeps exactly the keys every one of them has |
| Collections.ZipDictListReverses | brancher/utilities.py:35-44 | each key's tuple lists the entries from the last dictionary back to the first, because the last two are always zipped first |
| Collections.SplitDict | brancher/utilities.py:47-55 | the two halves partition the keys; the first holds exactly the entries meeting the condition, the second the rest, values unchanged |
| Collections.FlattenAt | brancher/utilities.py:58-60 | with sublists of equal length `m`, item `k` of sublist `n` is item `n*m+k` of the flat list |
| Collections.FlattenMembers | brancher/utilities.py:58-60 | an item is in the flat list exactly when some sublist holds it |
| Collections.FlattenConcat | brancher/utilities.py:58-60 | flattening distributes over concatenation of the outer list |
| Collections.JoinDictsList | brancher/utilities.py:68-72 | the joined dictionary has every key of every dictionary, and `{}` for none |
| Collections.JoinDictsListLastWins | brancher/utilities.py:68-72 | a key's joined value comes from the last dictionary that has the key |
| Collections.SplitThenJoin | brancher/utilities.py:47-72 | joining the two halves of a split gives the original dictionary back |
| Data.Update | brancher/distributions.py:145 | after `update`, the key maps to the new value and the key set gains exactly that key |
| Data.UpdateOthers | brancher/distributions.py:145 | `update` leaves the value under every other name unchanged |
| Data.UpdateDistinct | brancher/distributions.py:145 | `update` keeps names distinct |
| Data.Remove | brancher/distributions.py:147 | `pop` removes exactly that name, keeps every other value, and keeps names distinct |
| Data.AsTensors | brancher/utilities.py:103 | the tensor assertion passes exactly when every value is a torch tensor, and fails with an AssertionError otherwise |
| Parameters.CheckParameters | brancher/distributions.py:31-33 | the check passes exactly when every required name is given and, for every tuple of names, at least one of them is; otherwise an AssertionError |
| Parameters.CheckParametersIgnoresExtra | brancher/distributions.py:31-33 | only the names matter, and extra names never make a passing check fail |
| Parameters.CheckedNames | brancher/distributions.py:31-33 | once the check passes, every name required outright is present |
| Parameters.StrategyOf | brancher/distributions.py:157-212 | exactly Categorical folds its parameters (vector strategy) and exactly the empirical distribution passes them through (implicit strategy) |
| Parameters.Get | brancher/distributions.py:296-297 | `parameters[key]` is a KeyError exactly when the key is missing, and otherwise the value stored under it |
| Shapes.BroadcastPairCommutes | brancher/utilities.py:120 | whether two shapes broadcast, and to what, does not depend on their order |
| Shapes.BroadcastPairSound | brancher/utilities.py:120 | when two shapes broadcast, both broadcast to the result |
| Shapes.BroadcastPairComplete | brancher/utilities.py:120 | two shapes with a common target broadcast, and their broadcast reaches that target too |
| Shapes.BroadcastsToTransitive | brancher/utilities.py:120 | broadcasting to a target is transitive |
| Shapes.CommonShapeSound | brancher/utilities.py:120 | every input shape broadcasts to the common shape `broadcast_tensors` computes |
| Shapes.CommonShapeComplete | brancher/utilities.py:120 | when all shapes share a broadcast target, the common shape exists and reaches that target: it is the least common target |
| Shapes.CommonShapeRank | brancher/utilities.py:120 | the common shape has exactly the largest input rank |
| Tensors.View | brancher/utilities.py:150 | `view` succeeds exactly when the element counts agree, keeps the elements in order, and is a RuntimeError otherwise |
| Tensors.ViewRoundTrip | brancher/utilities.py:150 | viewing back to the original shape undoes a view |
| Tensors.Unsqueeze | brancher/utilities.py:256 | `unsqueeze` inserts one axis of size 1 at the given position and keeps the elements |
| Tensors.ExpandTo | brancher/utilities.py:106 | `expand` succeeds exactly when every axis keeps its size or grows from 1; the result has the target shape and only elements of the input |
| Tensors.ExpandAt | brancher/utilities.py:106 | entry `ix` of an `expand` is the input's entry at `ix` with every size-1 axis read at 0: each input entry is copied along the axes that grow from 1 |
| Tensors.ExpandToSelf | brancher/utilities.py:106 | expanding a tensor to its own shape returns it unchanged |
| Tensors.BroadcastTo | brancher/utilities.py:120 | a tensor broadcasts to a target exactly when its shape does; the result has the target shape and only elements of the input |
| Tensors.BroadcastAt | brancher/utilities.py:120 | entry `ix` of a broadcast tensor is the input's entry at the trailing indices of `ix`, with its size-1 axes read at 0: the padded leading axes and the size-1 axes replicate the input |
| Tensors.RepeatFirst | brancher/utilities.py:228-230 | `repeat` along a first axis of size 1 makes that axis `n` long, and every slice along it is the original content |
| Tensors.BlockSumsAt | brancher/utilities.py:82-88 | entry `i` of the block sums is the sum of the `i`-th block of consecutive elements |
| Tensors.BlockSumsTotal | brancher/utilities.py:82-88 | summing blocks keeps the grand total |
| Tensors.BlockSumsNest | brancher/utilities.py:82-88 | summing blocks of `b` and then blocks of `m` of those sums is summing blocks of `m*b`, so summing axes one at a time equals summing them at once |
| Tensors.SumLastAxis | brancher/utilities.py:87 | `sum(dim=-1)` drops the last axis and keeps the total |
| Tensors.SumTrailingAt | brancher/utilities.py:82-88 | entry `i` of the sum over the axes from `k` on is the sum of the `i`-th block of `Prod(shape[k..])` elements |
| Tensors.SumLastAxisOfTrailing | brancher/utilities.py:86-87 | summing the last remaining axis after summing the axes from `k` on is summing the axes from `k-1` on: one iteration of the loop |
| Tensors.GatherAt | brancher/distributions.py:266-269 | indexing one axis with a list of positions: each entry of the result is the input's entry whose index on that axis is the listed position, every other index unchanged |
| Tensors.TakeGather | brancher/distributions.py:266-269 | with a one-dimensional index array, indexing with an array of positions is the gather along that list |
| Tensors.SelectAt | brancher/distributions.py:184-186 | each entry of `t[..., i, ...]` is the input's entry with `i` put back on the selected axis |
| Tensors.RowAt | brancher/distributions.py:261-263 | entry `rest` of `t[n]` is entry `[n] + rest` of `t` |
| Tensors.Stack | brancher/distributions.py:261-263 | `cat` of unsqueezed tensors succeeds exactly when there is at least one and all have one shape; it adds a leading axis, holds the tensors' elements one after another, and is a RuntimeError otherwise |
| Tensors.StackAt | brancher/distributions.py:261-263 | entry `[n] + rest` of the stacked tensor is entry `rest` of tensor `n` |
| Utilities.SumFromDim | brancher/utilities.py:82-88 | the loop summing axes from the last down to `dim` yields the independent block-sum reference: shape `shape[..dim]`, same total |
| Utilities.SumDataDimensions | brancher/utilities.py:97-98 | summing the data axes leaves the sample and datapoint axes and keeps the total; a tensor with fewer than two axes is unchanged |
| Utilities.SumDataDimensionsAt | brancher/utilities.py:97-98 | each sample-datapoint entry is the sum of that position's data block |
| Utilities.UniformShapes | brancher/utilities.py:251-257 | every tensor exactly one axis short of the largest rank gets a trailing axis of size 1, the others are unchanged, elements are kept; no tensors is a ValueError |
| Utilities.UniformShapesRanks | brancher/utilities.py:251-257 | the largest rank is unchanged, and every tensor at most one axis short of it reaches it |
| Utilities.UniformShapesIdempotent | brancher/utilities.py:251-257 | applying `uniform_shapes` twice is applying it once |
| Utilities.PartialBroadcast | brancher/utilities.py:101-106 | succeeds exactly when every tensor has two leading axes each of size 1 or the largest; then each tensor is expanded to the largest sizes with its own data axes; otherwise IndexError, ValueError or RuntimeError as the code raises them |
| Utilities.LeadingAgreeExpandable | brancher/utilities.py:101-106 | every tensor can be expanded to the largest leading sizes exactly when each leading size is 1 or the largest |
| Utilities.PartialBroadcastPairwise | brancher/utilities.py:101-106 | with no empty axis, `partial_broadcast` succeeds exactly when every two tensors have compatible sample sizes and compatible datapoint sizes |
| Utilities.PartialBroadcastIdempotent | brancher/utilities.py:101-106 | broadcasting already broadcast tensors changes nothing |
| Utilities.PartialBroadcastOfBroadcast | brancher/utilities.py:101-106 | tensors that already share their leading sizes pass through unchanged |
| Utilities.PartialBroadcastAt | brancher/utilities.py:101-106 | each tensor of the result is that tensor expanded on its own: the others only decide the target sizes |
| Utilities.PartialBroadcastEntry | brancher/utilities.py:101-106 | entry `ix` of each result is that tensor's entry with a size-1 sample or datapoint axis read at 0 |
| Utilities.Squeezed | brancher/utilities.py:117-118 | when every tensor has one element per sample-datapoint position, each gets data axes `(1, 1)`; otherwise all are left as they are; elements are kept |
| Utilities.BroadcastAll | brancher/utilities.py:120 | `broadcast_tensors` succeeds exactly when the shapes have a common shape; every result has it and only elements of its input; otherwise a RuntimeError |
| Utilities.BroadcastAllAt | brancher/utilities.py:120 | each result of `broadcast_tensors` is that tensor broadcast on its own to the common shape |
| Utilities.BroadcastAllEntry | brancher/utilities.py:120 | entry `ix` of each result of `broadcast_tensors` is that tensor's entry at the trailing indices, with its size-1 axes read at 0 |
| Utilities.BroadcastAndSqueeze | brancher/utilities.py:114-121 | the results share one shape of rank at least 2, one per input, each drawn from its input; no tensors is a ValueError, no common shape a RuntimeError |
| Utilities.BroadcastAndSqueezeSteps | brancher/utilities.py:114-121 | `broadcast_and_squeeze` succeeds exactly when the squeezed and rank-aligned shapes have a common shape, and then broadcasts those tensors |
| Utilities.BroadcastAndSqueezeSwap | brancher/utilities.py:114-121 | for two tensors, the result does not depend on their order |
| Utilities.TensorArgs | brancher/utilities.py:126-127 | the positional values then the keyword values are passed on as tensors exactly when all are torch tensors; otherwise the AssertionError of the tensor check |
| Utilities.BroadcastAndSqueezeMixed | brancher/utilities.py:124-131 | fails exactly when the dict is empty (ValueError), a value is not a tensor (AssertionError) or the values do not broadcast; returns the positional values only when there were some, and the keyword values under their names in order, all of one shape |
| Utilities.BroadcastRegroup | brancher/utilities.py:127-131 | the broadcast of all arguments, split back into the first `n` positional values and the named ones |
| Utilities.Regroup | brancher/utilities.py:128-131 | the first `n` broadcast values are the positional ones and the rest go to the names in order; with names and one shared shape every part has it |
| Utilities.BroadcastAndSqueezeMixedSource | brancher/utilities.py:124-131 | each returned keyword value takes its elements from the tensor given under that position |
| Utilities.BroadcastAndSqueezeMixedValue | brancher/utilities.py:124-131 | each returned keyword value is `broadcast_and_squeeze` of all the arguments, taken at that value's position after the positional ones |
| Utilities.BroadcastAndSqueezeMixedLookup | brancher/utilities.py:124-131 | with distinct names, each name looks up a value drawn from the tensor given under that name |
| Reshaping.FoldBatch | brancher/utilities.py:148-150 | folding the sample and datapoint axes into one batch axis keeps the elements, and viewing back restores the tensor |
| Reshaping.BroadcastParentValues | brancher/utilities.py:141-151 | succeeds exactly when the dict is non-empty, every value is a tensor with two leading axes, and each leading size is 1 or the largest; names keep their order; the recorded sizes are the largest sample and datapoint sizes |
| Reshaping.BroadcastParentValuesShape | brancher/utilities.py:141-151 | each folded value has one batch axis of `number_samples * number_datapoints` entries followed by its own data axes |
| Reshaping.BroadcastParentValuesCount | brancher/utilities.py:141-151 | each folded value holds `number_samples * number_datapoints` times its data shape's element count |
| Reshaping.BroadcastParentValuesUnfold | brancher/utilities.py:141-151 | unfolding a value with the recorded sizes gives back exactly what `partial_broadcast` made |
| Reshaping.SquareView | brancher/utilities.py:174 | the view to `(dim1*dim2, m, m)` keeps the element count exactly when the matrices are square or there are no elements |
| Reshaping.GetDiagonal | brancher/utilities.py:166-177 | anything but a rank-4 tensor fails the assertions; a rank-4 tensor succeeds exactly when its matrices are square and `dim1*dim2*m` is not 0 (an empty index array is a float array, an IndexError); the result has shape `(dim1, dim2, m)` |
| Reshaping.GetDiagonalData | brancher/utilities.py:171-177 | the result's elements are the diagonals of the input's matrices, matrix after matrix |
| Reshaping.GetDiagonalAt | brancher/utilities.py:171-177 | entry `(i, k, j)` of the result is entry `(i, k, j, j)` of the input |
| Reshaping.Converted | brancher/utilities.py:207-213 | a tensor or array keeps its shape and elements; a number becomes a 1x1 tensor holding it |
| Reshaping.Reformat | brancher/utilities.py:193-205 | observed data gains one leading axis and a result of rank 2 or 3 is padded with trailing 1s to rank 4; latent data gains two leading axes; elements are kept |
| Reshaping.CoerceToDtype | brancher/utilities.py:190-219 | succeeds exactly for numeric inputs (tensors, non-object arrays, and numbers whose type is `float`, `int` or derives from `np.floating` or `np.signedinteger`) and discrete ones; discrete ones are returned unchanged, numeric ones become tensors with the sample and datapoint axes added; anything else is a TypeError |
| Reshaping.CoerceNumber | brancher/utilities.py:212-213 | a number becomes a 1x1x1x1 tensor holding it, observed or not |
| Reshaping.CoerceRoundTrip | brancher/utilities.py:190-219 | coercion only adds axes of size 1: viewing back to the converted shape gives the converted tensor |
| Reshaping.TileParameter | brancher/utilities.py:222-232 | a first axis of `n` entries returns the tensor as it is; one of a single entry is repeated `n` times, every slice being the original; a non-tensor is an AssertionError, a rank-0 tensor an IndexError, anything else a ValueError |
| Reshaping.RepeatFirstRows | brancher/utilities.py:228-230 | every slice of the repeated tensor along its first axis is the original's only slice |
| Reshaping.TileParameterIdempotent | brancher/utilities.py:222-232 | tiling an already tiled parameter to the same number of samples changes nothing |
| Laws.LawBatch | brancher/distributions.py:180-186 | the batch shape is the first argument's shape, without its class axis for the class laws, which need one (a ValueError for a 0-d argument) |
| Laws.LogProb | brancher/distributions.py:296-297 | `log_prob` yields one number per batch element, each the law's value at that element |
| Laws.Sample | brancher/distributions.py:310-311 | a draw has the shape of the law's first argument, each element the law's draw |
| Laws.LocScale | brancher/distributions.py:296-297 | the law is built from `loc` then `scale`, and a missing one is a KeyError |
| Laws.BinomialLaw | brancher/distributions.py:481-491 | `p` is used whenever given and `logit_p` otherwise, both with `total_count=n`; neither is a ValueError, a missing `n` a KeyError |
| Laws.BinomialPrefersProbs | brancher/distributions.py:503-508 | with `p` given, `logit_p` plays no part |
| Laws.UnivariateLaw | brancher/distributions.py:444-445 | each univariate family builds its own law from its own parameters; Beta passes `alpha` as `concentration0` and `beta` as `concentration1`; the law's arguments are parameter values |
| Laws.UnivariateLawChecked | brancher/distributions.py:59-62 | once `check_parameters` has passed, the law's arguments can all be read |
| Laws.ClassZero | brancher/distributions.py:184 | `t[:, :, 0]` succeeds exactly when the tensor has a non-empty third axis, and drops that axis; otherwise an IndexError |
| Laws.FirstEntries | brancher/distributions.py:186 | `t[:, 0, 0]` succeeds exactly when the second and third axes are non-empty, and drops both; otherwise an IndexError |
| Laws.CategoricalLogProbLaw | brancher/distributions.py:169-190 | `p` wins; with only `softmax_p`, a one-hot observation of its shape is scored against `softmax_p[:, :, 0]` as `x[:, :, 0]` and any other as class indices `x[:, 0, 0]`; neither is a ValueError; the iff covers every index error |
| Laws.CategoricalZerosAreIndices | brancher/distributions.py:183 | an observation of zeros only is never read as one-hot |
| Laws.CategoricalPrefersProbs | brancher/distributions.py:179-186 | with `p` given, removing `softmax_p` changes nothing |
| Laws.CategoricalSampleLaw | brancher/distributions.py:192-209 | draws are one-hot from `p` when given, from the logits `softmax_p` otherwise, a ValueError with neither |
| Distributions.UnivariateLogProbPreprocess | brancher/distributions.py:91-93 | the observation and the parameters broadcast together; fails exactly when `broadcast_and_squeeze_mixed` does, with its error; names are kept and all share the observation's shape |
| Distributions.UnivariateSamplingPreprocess | brancher/distributions.py:87-89 | the parameters broadcast to one shape; fails exactly when `broadcast_and_squeeze_mixed` does, with its error |
| Distributions.UnivariateLogProb | brancher/distributions.py:286-297 | preprocessing errors pass through; afterwards it succeeds exactly when the law can be built, with one value per element of the common shape |
| Distributions.UnivariateSample | brancher/distributions.py:300-311 | preprocessing errors pass through; afterwards it succeeds exactly when the law can be built, and the draw has the common shape |
| Distributions.ImplicitLogProb | brancher/distributions.py:116-117 | the implicit log-probability is a 1x1 tensor holding only zero |
| Distributions.VectorLogProbPreprocess | brancher/distributions.py:142-148 | the observation joins the parameters as `x_data`, everything is folded together, and the folded observation is taken back out; fails exactly when `broadcast_parent_values` does |
| Distributions.VectorLogProbNames | brancher/distributions.py:142-148 | the parameters come back under their own names, without `x_data` |
| Distributions.VectorLogProbObservation | brancher/distributions.py:142-148 | the observation comes out with one batch axis of `number_samples * number_datapoints` entries and its own data axes |
| Distributions.VectorLogProb | brancher/distributions.py:153-154 | preprocessing errors pass through; a result is viewed as samples by datapoints |
| Distributions.VectorLogProbCount | brancher/distributions.py:153-154 | the final view succeeds exactly when the law gives one number per sample and datapoint, and keeps them in order |
| Distributions.Matrix | brancher/distributions.py:137 | a vector parameter of rank at least 2 becomes a matrix of one row per batch entry with the same elements; of rank 1, `np.prod([])` is a float and `view` raises a TypeError |
| Distributions.ReshapeVectors | brancher/distributions.py:134-138 | vector parameters become matrices and the others are kept, names in order; the TypeError exactly when a vector parameter has rank 1 |
| Distributions.FirstVector | brancher/distributions.py:139 | the position of the first vector parameter in parameter order, absent exactly when there is none |
| Distributions.VectorSamplingPreprocess | brancher/distributions.py:131-140 | folding errors pass through; then it succeeds exactly when there is a vector parameter and none has rank 1; the draw shape is samples, datapoints, and the first vector parameter's data axes |
| Distributions.FirstVectorMatrix | brancher/distributions.py:137 | after preprocessing, the first vector parameter is the matrix of its folded value |
| Distributions.VectorSampleRoundTrip | brancher/distributions.py:150-151 | a draw of the first vector parameter's matrix shape can be viewed to the draw shape and viewed back unchanged |
| Distributions.VectorSample | brancher/distributions.py:131-151 | preprocessing errors pass through; a draw has the draw shape |
| Distributions.VectorSampleFits | brancher/distributions.py:150-151 | when the law draws from the first vector parameter, the draw always fits the draw shape and keeps the law's numbers in order |
| Distributions.StrategyLogProb | brancher/distributions.py:61-63 | the strategy's log-probability has samples and datapoints first; the empirical one is the 1x1 zero; univariate results have the broadcast shape and vector ones are samples by datapoints; a KeyError only from a univariate law |
| Distributions.CalculateLogProbability | brancher/distributions.py:59-64 | a failed check is an AssertionError; otherwise it succeeds exactly when the strategy does, with its error; the result is samples by datapoints with the strategy's total |
| Distributions.EmpiricalLogProbability | brancher/distributions.py:116-117 | once its check passes, the empirical distribution's log-probability is the 1x1 zero |
| Distributions.CalculateLogProbabilityReads | brancher/distributions.py:59-64 | `calculate_log_probability` never raises a KeyError: the check guarantees every parameter the code reads |
| Distributions.GetSample | brancher/distributions.py:66-71 | a failed check is an AssertionError; otherwise the family's preprocessing, draw and postprocessing, and for the empirical distribution its `_get_sample` on `dataset`, `indices` and `weights` |
| Distributions.GetSampleReads | brancher/distributions.py:66-71 | once the check passes, a univariate family's draw fails exactly when broadcasting does |
| Empirical.DatasetSize | brancher/distributions.py:241-247 | a tensor's datapoint axis (1 observed, 2 latent; an IndexError without it), `len` of a container or string, the first axis of an array; a TypeError for anything without a length |
| Empirical.Draw | brancher/distributions.py:250-251 | `batch_size` positions from the pool, none twice |
| Empirical.DrawComplete | brancher/distributions.py:250-251 | every batch of distinct positions of the pool is a possible draw |
| Empirical.WeightsOf | brancher/distributions.py:237 | converting weights to floats succeeds for tensors, arrays, numbers and lists or tuples of numbers, keeping their values; a string or a list holding non-numbers is a ValueError, any other object a TypeError |
| Empirical.Support | brancher/distributions.py:238-251 | numpy accepts the weights exactly when they are one-dimensional, one per position, of non-zero sum, non-negative once normalised, with at least `batch_size` non-zero; the drawable positions are the non-zero ones; otherwise a ValueError |
| Empirical.Pool | brancher/distributions.py:235-251 | without weights every position can be drawn; with weights exactly the positions of non-zero weight; the pool is distinct and large enough |
| Empirical.AxisIndexOf | brancher/distributions.py:265-273 | a non-empty list of booleans is a mask; a list of integers lists positions and a list holding a non-integer is not an index; an integer array lists positions in its shape; a rank-1 boolean array is a mask and a boolean array of another rank is not an index; float and object arrays, tuples, sets, dicts, strings, tensors and other objects are not indices |
| Empirical.Normalize | brancher/distributions.py:267 | a position counts from the end when negative, and is in range exactly when `-size <= i < size` |
| Empirical.Resolve | brancher/distributions.py:265-269 | integer positions are normalised, in range or an IndexError; a mask must be as long as the axis and picks its true positions in order |
| Empirical.SelectAxis | brancher/distributions.py:265-269 | indexing one axis succeeds exactly when the value is an index that resolves on that axis; the axis is replaced by the index's shape; otherwise an IndexError |
| Empirical.SelectAxisPositions | brancher/distributions.py:265-269 | along a list of positions, entry `j` of the selected axis is entry `ids[j]` of the original axis |
| Empirical.SelectAxisMask | brancher/distributions.py:265-269 | along a mask, entry `j` of the selected axis is the `j`-th entry whose bit is true |
| Empirical.SelectDatapoints | brancher/distributions.py:266-269 | `dataset[:, indices, :]` or `dataset[:, :, indices, :]` indexes the datapoint axis, and needs one axis after it |
| Empirical.SampleRows | brancher/distributions.py:261-263 | `dataset[n, k, :]` or `dataset[n, :, k, :]` indexes the datapoint axis of sample `n` with its own index |
| Empirical.SampleRowsAt | brancher/distributions.py:261-263 | entry `ix` of sample `n`'s selection is sample `n`'s entry at position `ids[j]` of the datapoint axis |
| Empirical.AllSampleRows | brancher/distributions.py:259-263 | the per-sample selections succeed exactly when each does, in sample order |
| Empirical.IndicesOf | brancher/distributions.py:259-271 | only a non-empty list is an index and only its first element decides: a numpy array makes per-sample indices, an `int`, `np.int32` or `np.int64` (booleans included) datapoint indices |
| Empirical.SelectTensor | brancher/distributions.py:258-271 | datapoint indices select the datapoint axis of every sample; per-sample indices select per sample and stack, a RuntimeError when shapes differ; anything else an IndexError |
| Empirical.SelectTensorPerSample | brancher/distributions.py:259-263 | entry `[n] + ix` of the result is sample `n`'s entry at position `indices[n][j]` of the datapoint axis |
| Empirical.SelectTensorDatapoints | brancher/distributions.py:265-269 | with a list of integers, each entry is the dataset's entry at the listed datapoint position |
| Empirical.SelectTensorBoolList | brancher/distributions.py:265-269 | a list of booleans given as datapoint indices acts as a mask over the datapoint axis |
| Empirical.Indexable | brancher/distributions.py:273 | `np.array(dataset)` can be indexed along its first axis exactly for lists, tuples and arrays of rank at least 1, whose items or rows it holds |
| Empirical.SelectList | brancher/distributions.py:272-273 | a one-dimensional index that resolves on the dataset's length gives the chosen elements in index order; anything else is an IndexError |
| Empirical.SelectListPositions | brancher/distributions.py:273 | item `j` of the result is the element at position `ids[j]`, counted from the end when negative |
| Empirical.SelectListMask | brancher/distributions.py:273 | a mask as long as the dataset selects exactly the elements whose bit is true, in order |
| Empirical.WeightsOption | brancher/distributions.py:235-240 | no weights means no restriction; given weights are converted or their error is raised |
| Empirical.DrawnIndex | brancher/distributions.py:251 | the array `np.random.choice` returns reads as exactly the drawn positions when the population is non-empty, and is an empty float array, which is not an index, when `range(0)` is the population |
| Empirical.EmpiricalSample | brancher/distributions.py:223-274 | without `indices`: weight errors, then the size error, then a ValueError for a batch larger than the dataset, a NameError for a non-container dataset, and numpy's weight errors; an empty container dataset without weights is an IndexError for batch size 0, since numpy's draw from `range(0)` is a float array; a successful draw has `batch_size` items; with `indices`, tensor or list selection |
| Empirical.EmpiricalDrawDistinct | brancher/distributions.py:250-273 | without indices or weights, a non-empty list or tuple dataset yields `batch_size` of its items taken at distinct positions |
| Empirical.EmpiricalWeightedDraw | brancher/distributions.py:235-273 | with weights, every drawn item comes from a distinct position of non-zero weight |
| Empirical.EmpiricalWeightedAccepts | brancher/distributions.py:235-251 | with weights, the draw succeeds exactly when numpy accepts the weights for the dataset's size and the batch |
| Empirical.EmpiricalWeightedComplete | brancher/distributions.py:235-273 | every batch of distinct positions of non-zero weight is a possible weighted draw |

## Left out

- The laws' numbers: `torch.distributions` densities and samplers are an `Oracle` parameter. The model fixes which law is built from which parameters and the shapes involved, not the values.
- Randomness: `np.random.choice` and torch's samplers are driven by rolls or the oracle passed in. The weights decide which positions can be drawn, not how likely each is; the rounding of `p / np.sum(p)` is not modelled.
- Floating point: elements are real numbers, so `.float()` and dtype conversions are identities; `tensor_range` compares values exactly.
- Exception messages: only the exception type is modelled.
- Empirical.SelectList: `np.array(dataset)` is taken to hold the dataset's items unchanged; numpy's conversion of Python scalars to numpy scalars and of ragged lists to object arrays is not modelled, and a scalar or multi-dimensional index is treated as an IndexError.
- Empirical.AxisIndexOf: tuples, nested lists, boolean arrays of rank above 1 and torch tensors used as indices are read as not indices; a list mixing booleans and other integers counts booleans as 0 and 1.
- Empirical.SampleRows: a numpy float array given as per-sample indices is read as not an index, as numpy reads it; torch may instead convert such an array to integers.
- Empirical.WeightsOf: numeric strings, object arrays and weights given as tensors that require gradients are not distinguished from the cases modelled.
- Empirical.SampleRows: for latent data, torch places the axes of `dataset[n, :, k, :]` after applying the integer `n`; numpy would put the advanced axis first. The model follows torch.
- Laws.LogProb: torch's broadcasting of the observation against the batch shape inside `log_prob` is left to the oracle; the result has the law's batch shape.
- `flatten_set`, `join_sets_list`, `reformat_sampler_input`, `get_model_mapping`, `reassign_samples`, `get_memory`, `reject_samples` and `concatenate_samples` in `brancher/utilities.py`: they serve the variable and model layer, not the distributions, and are not part of this model. The commented-out Chainer versions are not part of it either.
- `is_tensor` is the `TorchTensor` constructor test; `tensor_range` is the set of values of a tensor's elements.
