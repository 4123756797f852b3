# Novel object detection: evaluation bookkeeping and detection fusion

This project models the discrete logic of two files from a novel object
detection pipeline in Dafny, and proves properties of that model. The
neural networks (a Faster R-CNN detector, CLIP, Grounding DINO and SAM)
are replaced by their outputs, which the model takes as input sequences or
as functions.

- `scripts/novel_object_detection/evaluation.py`. The driver loop over a
  data loader, with its warmup, divisor, logging and checkpoint counters
  (`eval_loop.dfy`). The evaluator wrapper that caches one prediction per
  image. The chaining of cached results and the mapping of category ids
  back to dataset ids. The guards and percentage reporting of
  `_evaluate_predictions_on_lvis` (`lvis_evaluator.dfy`). `LVISEvalCustom`:
  the known-id mapping of its constructor, the subset-aware `_summarize`
  (`lvis_summary.dfy`), and `summarize` with its known/novel partition and
  its three result containers (`subset_eval.dfy`).
- `scripts/novel_object_detection/nod_model.py`, `NOD.infer`
  (`nod_infer.dfy`, on top of `geometry.dfy`, `scores.dfy` and
  `grounding.dfy`). The steps are:
  - split the detector's instances into background (class 80) and known;
  - remap known classes to LVIS ids;
  - select background boxes whose crop is non-empty;
  - compute the Grounding DINO query × category scores per prompt chunk and
    concatenate them;
  - take the top 300 of the flattened scores and decode each flat index
    with `//` and `%` into a query, a category column and a prompt chunk;
  - pool the three candidate sources;
  - min-max normalise the scores and multiply them with the normalised SAM
    scores;
  - rerank the top 300;
  - apply the visualisation confidence filter.

Scores and box coordinates are `real`. Python's truncating `int()`, its
slice-bound clamping and its dictionary insertion order are written out.
Every Python exception the modelled code can raise becomes a `Failure` or
`None` result, except the shape, index and size errors that the
preconditions listed under "## Left out" exclude.

Where a loop changes state in the source, the model uses methods with loop
invariants:
- the crop-selection loop and the per-prompt score loop;
- the in-place category-id rewrite on an array;
- `process` appending to the evaluator's prediction list;
- the driver loop.

Each method is proved against a specification function. Lemmas state the
properties of those functions.

## Model

| member | source | states |
|---|---|---|
| EvalLoop.NumWarmup | scripts/novel_object_detection/evaluation.py:36-37 | The warmup count is `min(5, total - 1)`: at most 5, at most `total - 1`, and equal to one of them. |
| EvalLoop.ItersAfterStartCounts | scripts/novel_object_detection/evaluation.py:41-50 | For every batch of the loader, `iters_after_start` equals the number of batches run since the clock was last started, so it is at least 1. |
| EvalLoop.FinalDivisorCounts | scripts/novel_object_detection/evaluation.py:71-73 | `total - num_warmup` is at least 1 for every loader size, including 0. For a non-empty loader it equals the number of batches timed after the warmup restart. |
| EvalLoop.AtLeastCount | scripts/novel_object_detection/evaluation.py:52 | Of the first `n` batches, exactly `n - w` have index at least `w`; none do when `w >= n`, and all do when `w <= 0`. |
| EvalLoop.LoggedBatches | scripts/novel_object_detection/evaluation.py:36-52 | A batch passes the logging gate exactly when `idx >= 2 * num_warmup`. Loaders of 2 to 5 batches never log, a 1-batch loader logs batch 0, and from 6 batches on, logging starts at batch 10. |
| EvalLoop.CheckpointCount | scripts/novel_object_detection/evaluation.py:64-65 | A batch writes a checkpoint exactly when `idx != 0 and idx % 2500 == 0`. A loader of `total` batches writes `(total - 1) // 2500` checkpoints. |
| EvalLoop.SnapshotsUpToAt | scripts/novel_object_detection/evaluation.py:48-65 | Each checkpoint saves the predictions of every batch up to and including its own. |
| EvalLoop.RunEvaluationLoop | scripts/novel_object_detection/evaluation.py:32-73 | The loop leaves the evaluator holding its earlier predictions plus each batch's zipped predictions, in batch order. The logged batches are the gate's positions and the checkpoints are the multiples of 2500. Each snapshot holds the predictions up to its batch. Every divisor is at least 1 and counts the batches since the clock start. The trace records the batch at which `start_time` was last taken, and the final divisor is the number of batches run since then. |
| EvalLoop.RunBatches | scripts/novel_object_detection/evaluation.py:40-65 | The batch loop appends each batch's zipped predictions, in order. It returns the batches past the logging gate, the checkpoint batches with the prediction list saved at each, every batch's `iters_after_start`, and the batch at which `start_time` was last taken. |
| EvalLoop.Inference | scripts/novel_object_detection/evaluation.py:21-24 | After the reset, the evaluator holds exactly this run's predictions. |
| LvisEvaluator.ZipPredictions | scripts/novel_object_detection/evaluation.py:105-110 | One prediction per zipped (input, output) pair, as many as the shorter list. Each carries its input's image id and its output's converted results. |
| LvisEvaluator.CustomEvaluator.Process | scripts/novel_object_detection/evaluation.py:105-112 | Appends exactly the zipped predictions, in order, to the evaluator's list and changes nothing else. |
| LvisEvaluator.CustomEvaluator.Reset | scripts/novel_object_detection/evaluation.py:102-103 | The prediction list is empty afterwards. |
| LvisEvaluator.ChainResultsAt | scripts/novel_object_detection/evaluation.py:143 | Result `k` of prediction `p` sits in the chained list right after the results of all earlier predictions. The chain is as long as all result lists together. |
| LvisEvaluator.ReverseIdMapping | scripts/novel_object_detection/evaluation.py:149-151 | The reversed mapping has a key exactly for each contiguous id occurring in the table. |
| LvisEvaluator.ReverseIdMappingLastWins | scripts/novel_object_detection/evaluation.py:149-151 | A contiguous id maps back to the dataset id of the last pair holding it. |
| LvisEvaluator.ReverseIdMappingRoundTrip | scripts/novel_object_detection/evaluation.py:149-151 | On an injective table, each pair's contiguous id maps back to that pair's dataset id. |
| LvisEvaluator.FirstUnmapped | scripts/novel_object_detection/evaluation.py:152-153 | Gives no position exactly when every result's id is mapped. Otherwise it gives an unmapped position with every earlier id mapped: the result at which the rewrite raises KeyError. |
| LvisEvaluator.RewriteOnlyCategory | scripts/novel_object_detection/evaluation.py:148-157 | Both rewrites change only the category id. The mapped id is the reversed table's entry; the shifted id is the old id plus 1. |
| LvisEvaluator.MapIdsRoundTrip | scripts/novel_object_detection/evaluation.py:148-153 | With an injective table covering every result's id, the rewrite succeeds. Each result gets the dataset id paired with its contiguous id. |
| LvisEvaluator.MapCategoryIds | scripts/novel_object_detection/evaluation.py:148-153 | The in-place rewrite through the reversed table succeeds exactly when every id is mapped, and then leaves the mapped results. Otherwise it reports the first unmapped id, with the results before it rewritten and the rest untouched. |
| LvisEvaluator.ShiftCategoryIds | scripts/novel_object_detection/evaluation.py:154-157 | The in-place `+= 1` rewrite leaves every result's id one larger. |
| LvisEvaluator.PrepareResults | scripts/novel_object_detection/evaluation.py:143-157 | The chained results are rewritten by the table when there is one (failing exactly when an id is missing, and naming the first such id), else by `+1`. |
| LvisEvaluator.MetricNames | scripts/novel_object_detection/evaluation.py:192-195 | Nine metric names for each IoU type. |
| LvisEvaluator.MetricNamesSummarized | scripts/novel_object_detection/evaluation.py:192-195 | The nine reported names are the first nine keys `summarize` writes, for every detection cap. |
| LvisEvaluator.AllNaN | scripts/novel_object_detection/evaluation.py:197-199 | Every metric name is paired with NaN. |
| LvisEvaluator.ResultsForTask | scripts/novel_object_detection/evaluation.py:201-208 | Mask evaluation gets a copy of the results without boxes; box evaluation keeps them. |
| LvisEvaluator.SegmStripsBoxes | scripts/novel_object_detection/evaluation.py:201-208 | After mask preparation no result has a box, and every other field is unchanged. |
| LvisEvaluator.MaxDetsOrDefault | scripts/novel_object_detection/evaluation.py:210-211 | The detection cap defaults to 300; a given cap is used as is. |
| LvisEvaluator.Percentages | scripts/novel_object_detection/evaluation.py:226-234 | Succeeds exactly when every metric is a key of the container. Each metric's value is then its container value × 100. |
| LvisEvaluator.ReportedMetricsAsWritten | scripts/novel_object_detection/evaluation.py:197-237 | Empty input gives all NaN. With known class ids, the returned percentages are those of the novel-class container. |
| LvisEvaluator.ReportedMetrics | scripts/novel_object_detection/evaluation.py:197-237 | Corrected reporting: empty input gives all NaN; otherwise the all-class percentages are returned. |
| LvisEvaluator.ReportedMetricsAgreement | scripts/novel_object_detection/evaluation.py:225-237 | The as-written and the corrected reporting agree without known class ids and on empty input, and fail on the same inputs. |
| LvisEvaluator.ReportedMetricsPresent | scripts/novel_object_detection/evaluation.py:225-237 | Containers filled by `summarize` never make the reporting raise. |
| LvisEvaluator.ReportedMetricsAsWrittenDiffers | scripts/novel_object_detection/evaluation.py:229-237 | An input on which the code as written returns AP 10.0 (the novel classes) instead of 50.0 (all classes). |
| LvisSummary.Summarize | scripts/novel_object_detection/evaluation.py:256-291 | `_summarize` is the sentinel `-1` exactly when no selected cell is above `-1`. |
| LvisSummary.SummarizeWithin | scripts/novel_object_detection/evaluation.py:287-291 | When some selected cell carries data, the summary is the mean of the data-carrying cells, so it lies within their bounds. |
| LvisSummary.SummarizeIsMean | scripts/novel_object_detection/evaluation.py:256-291 | When some selected cell is above `-1`, `_summarize` is the sum of exactly the selected cells above `-1`, each as often as it occurs, divided by how many there are. |
| LvisSummary.MeanAboveSentinel | scripts/novel_object_detection/evaluation.py:287-291 | The mean over cells above `-1` is the sentinel exactly when no value is above `-1`. |
| LvisSummary.AboveSentinelMultiset | scripts/novel_object_detection/evaluation.py:287-290 | `s[s > -1]` keeps every value above `-1` as often as it occurs and drops every other value. |
| LvisSummary.MeanAboveSentinelIsMean | scripts/novel_object_detection/evaluation.py:287-291 | When some value is above `-1`, the result is the sum of the values above `-1` divided by their number, for any listing of them. |
| LvisSummary.MeanWithin | scripts/novel_object_detection/evaluation.py:287-291 | When some value carries data, the result lies between any bounds of the data-carrying values. |
| LvisSummary.SelectedValues | scripts/novel_object_detection/evaluation.py:264-285 | One value per selected cell, in order: the precision or recall table entry at that cell. |
| LvisSummary.PrecisionSummaryLocality | scripts/novel_object_detection/evaluation.py:270-279 | The AP summary depends only on the cells at the requested IoU, in the (group-intersected) subset, and at the matching area label. |
| LvisSummary.RecallSummaryLocality | scripts/novel_object_detection/evaluation.py:280-285 | The AR summary depends only on the cells at the requested IoU, in the subset, and at the matching area label. |
| LvisSummary.PrecisionCellAgrees | scripts/novel_object_detection/evaluation.py:270-279 | Two precision tables that agree on the cells at the requested IoU, in the subset and at the area label give the same value at every selected cell. |
| LvisSummary.RecallCellAgrees | scripts/novel_object_detection/evaluation.py:280-285 | Two recall tables that agree on the cells at the requested IoU, in the subset and at the area label give the same value at every selected cell. |
| LvisSummary.RecallIgnoresFreqGroup | scripts/novel_object_detection/evaluation.py:280-285 | The recall summary is the same for every frequency group. |
| LvisSummary.NoSubsetIsEveryCategory | scripts/novel_object_detection/evaluation.py:261-262 | Passing no subset (`None`) gives the same summary as passing `range(len(cat_ids))`, that is, every contiguous index. |
| LvisSummary.CategoryIndicesMember | scripts/novel_object_detection/evaluation.py:261-277 | A category is used exactly when it is in the subset (or in range, without one), and also in the frequency group when AP has one. |
| LvisSummary.SelectedCellSatisfies | scripts/novel_object_detection/evaluation.py:264-285 | Every selected cell has the requested IoU threshold and area label. |
| LvisSummary.PrecisionCellSelected | scripts/novel_object_detection/evaluation.py:264-279 | Every in-bounds precision cell meeting the three conditions is selected. |
| LvisSummary.BroadcastSingleArea | scripts/novel_object_detection/evaluation.py:277-285 | Indexing with a category list and a single area index pairs every category with that area. |
| SubsetEval.IndexOf | scripts/novel_object_detection/evaluation.py:254 | `list.index`: the first position holding the value, or none exactly when the value is absent. |
| SubsetEval.MapKnownIds | scripts/novel_object_detection/evaluation.py:251-254 | Succeeds exactly when every known id is a dataset category id. `cat_ids[mapped[i]] == known[i]` holds, and a failure names the first missing id. |
| SubsetEval.KnownNovelPartition | scripts/novel_object_detection/evaluation.py:302-303 | Known and novel indices are disjoint, and together they are every contiguous index. |
| SubsetEval.NovelIds | scripts/novel_object_detection/evaluation.py:302-303 | The novel indices are in range and strictly increasing. |
| SubsetEval.FindKey | scripts/novel_object_detection/evaluation.py:314-330 | The position of a key in an ordered dictionary, or none exactly when the key is absent. |
| SubsetEval.PutLookup | scripts/novel_object_detection/evaluation.py:314-330 | After `d[k] = v`, `k` maps to `v` and every other key is unchanged. |
| SubsetEval.PutAllLookup | scripts/novel_object_detection/evaluation.py:314-330 | After a run of writes with distinct keys, each written key holds its written value and every other key keeps its old value. |
| SubsetEval.PutAllNewKeys | scripts/novel_object_detection/evaluation.py:304-330 | Writing distinct new keys into a container appends them in write order, as an `OrderedDict` does. |
| SubsetEval.PutAllOverwrites | scripts/novel_object_detection/evaluation.py:314-330 | Rewriting every key of a container, in its own order, leaves exactly the new entries. |
| SubsetEval.MapKnownIdsFirstOccurrence | scripts/novel_object_detection/evaluation.py:254 | Like `list.index`, each known id maps to its first position in `cat_ids`. |
| SubsetEval.MapKnownIdsRoundTrip | scripts/novel_object_detection/evaluation.py:254 | Looking the mapped indices up in `cat_ids` gives back the known dataset ids. |
| SubsetEval.MetricKeysDistinct | scripts/novel_object_detection/evaluation.py:315-330 | The thirteen metric keys are distinct for every detection cap. |
| SubsetEval.GroupMetrics | scripts/novel_object_detection/evaluation.py:314-330 | A container's entries have exactly the thirteen metric keys, in order. |
| SubsetEval.ContainerHoldsSummaries | scripts/novel_object_detection/evaluation.py:314-330 | After filling, each metric's key holds `_summarize` for that metric over the subset. |
| SubsetEval.FillContainer | scripts/novel_object_detection/evaluation.py:304-330 | Filling a fresh or already filled container leaves exactly the thirteen new entries. |
| SubsetEval.LvisEvalCustom.constructor | scripts/novel_object_detection/evaluation.py:245-254 | A new evaluator holds the given parameters and known indices, with no accumulated tables and empty result containers. |
| SubsetEval.LvisEvalCustom.Accumulate | scripts/novel_object_detection/evaluation.py:296-297 | Stores the accumulated tables that `summarize` requires, leaving the result containers as they were. |
| SubsetEval.LvisEvalCustom.Create | scripts/novel_object_detection/evaluation.py:245-254 | The evaluator has no known ids when none are given. Otherwise it is created exactly when the mapping succeeds, holding the mapped indices, and it fails with the mapping's error. |
| SubsetEval.LvisEvalCustom.Summarize | scripts/novel_object_detection/evaluation.py:293-330 | Raises and changes nothing without accumulated tables. Otherwise `results` gets the all-class metrics. With known ids, fresh known and novel containers get their subsets' metrics; without known ids, those two are left as they were. |
| SubsetEval.LvisEvalCustom.SummarizeSubsets | scripts/novel_object_detection/evaluation.py:301-330 | With known ids, `resultsKnown` holds the known-subset metrics and `resultsNovel` the metrics over the contiguous indices not known. |
| Geometry.CenterToCorner | scripts/novel_object_detection/nod_model.py:172 | The corner box has the centre box's width, height and centre. |
| Geometry.CenterCornerRoundTrip | scripts/novel_object_detection/nod_model.py:172 | Converting to corners and back gives the same box. |
| Geometry.CornersOrdered | scripts/novel_object_detection/nod_model.py:170-172 | After scaling by `[w, h, w, h]` and conversion, `x1 <= x2` and `y1 <= y2` whenever the width and height are non-negative. |
| Geometry.Trunc | scripts/novel_object_detection/nod_model.py:115-119 | `int()` truncates toward zero: the result is the integer between 0 and `x` at distance less than 1. |
| Geometry.SliceNonEmptyInRange | scripts/novel_object_detection/nod_model.py:121-124 | For bounds inside the axis, the slice has length `hi - lo` when `lo < hi` and is empty otherwise. |
| Scores.MinMaxNormalize | scripts/novel_object_detection/nod_model.py:181-183 | Every normalised score lies in [0, 1]. |
| Scores.MinMaxEndpoints | scripts/novel_object_detection/nod_model.py:181-183 | The minimum maps to 0. On a non-constant column the maximum maps to 1. |
| Scores.MinMaxMonotone | scripts/novel_object_detection/nod_model.py:181-183 | Normalisation keeps the order of the scores. |
| Scores.MinMaxConstant | scripts/novel_object_detection/nod_model.py:181-183 | A constant column normalises to zeros. |
| Scores.FuseInUnit | scripts/novel_object_detection/nod_model.py:215 | The product of two normalised lists lies in [0, 1] and is at most either factor. |
| Scores.TopKFrom | scripts/novel_object_detection/nod_model.py:160-162 | Selects `k` distinct candidates. Each selected score is at least the score of every candidate not selected before it. |
| Scores.TopK | scripts/novel_object_detection/nod_model.py:160-162 | `k` distinct positions of the list. |
| Scores.TopKSpec | scripts/novel_object_detection/nod_model.py:160-162 | The selected scores are non-increasing, and no position left out has a higher score than a selected one. |
| Scores.ThresholdKeeps | scripts/novel_object_detection/nod_model.py:224-227 | The mask keeps a position exactly when its score reaches the threshold, in increasing order. |
| Grounding.MatMulT | scripts/novel_object_detection/nod_model.py:156 | `a @ b.T` is a `|a| × |b|` matrix. |
| Grounding.ChunkScores | scripts/novel_object_detection/nod_model.py:153-157 | One `nq × categories` matrix per prompt chunk. |
| Grounding.BuildChunkScores | scripts/novel_object_detection/nod_model.py:153-157 | The append loop builds exactly the per-chunk score matrices, in prompt order. |
| Grounding.ConcatColumnsAt | scripts/novel_object_detection/nod_model.py:159 | Column `c` of chunk `b` lands at column `Offset(b) + c` of every row. |
| Grounding.ConcatColumnsShape | scripts/novel_object_detection/nod_model.py:159 | The concatenation is an `nq × (sum of widths)` matrix. |
| Grounding.Flatten | scripts/novel_object_detection/nod_model.py:161 | `view(-1)` has `rows * cols` entries. |
| Grounding.FlattenAt | scripts/novel_object_detection/nod_model.py:161-166 | The flat entry at `q * cols + c` is matrix entry `[q][c]`. |
| Grounding.DecodeBounds | scripts/novel_object_detection/nod_model.py:165-166 | For `f < rows * cols`: `f // cols < rows`, `f % cols < cols`, and the two recompose to `f`. |
| Grounding.EncodeDecode | scripts/novel_object_detection/nod_model.py:165-166 | Decoding `q * cols + c` gives `(q, c)` back. |
| Grounding.ChunkOfLabel | scripts/novel_object_detection/nod_model.py:167 | When every chunk but the last has `length` columns, `label // length` is the chunk whose column range holds `label`. |
| NodInfer.BackgroundMask | scripts/novel_object_detection/nod_model.py:98 | The mask holds exactly at class 80. |
| NodInfer.SplitPartition | scripts/novel_object_detection/nod_model.py:98-103 | Every instance is background or known, never both. The two counts add up to the total, and both index lists are increasing. |
| NodInfer.RemapClasses | scripts/novel_object_detection/nod_model.py:105 | Succeeds exactly when every class is in `coco_to_lvis`, mapping each through it. A failure names the first missing class. |
| NodInfer.KnownDetectionsOutcome | scripts/novel_object_detection/nod_model.py:98-105 | The known side succeeds exactly when every non-background class has an LVIS id; otherwise it names one that has none. |
| NodInfer.KnownDetectionsAt | scripts/novel_object_detection/nod_model.py:101-105 | Known entry `k` is the detector's `k`-th non-background instance, with its box, its score and its mapped class. |
| NodInfer.CropMask | scripts/novel_object_detection/nod_model.py:112-124 | A background box passes exactly when its truncated, rescaled crop has positive height and width. |
| NodInfer.SelectBackgroundCrops | scripts/novel_object_detection/nod_model.py:110-132 | The loop's `selected_idx` is exactly the positions passing the crop mask, in increasing order. The crops are theirs, in the same order. |
| NodInfer.SelectedCropsSpec | scripts/novel_object_detection/nod_model.py:112-130 | A background box is selected exactly when its crop is non-empty. |
| NodInfer.BackgroundDetections | scripts/novel_object_detection/nod_model.py:134-138 | Background entry `j` is box `selected[j]` with CLIP's score and class for its crop. |
| NodInfer.GroundingDetections | scripts/novel_object_detection/nod_model.py:159-172 | The stage fails with too few scores exactly when `nq * categories < 300`. On success it gives 300 aligned candidates. |
| NodInfer.GroundingSucceeds | scripts/novel_object_detection/nod_model.py:159-172 | With one positive map per prompt, `length` columns per chunk and at least 300 scores, the chunk index never runs past the prompts, so the stage succeeds. |
| NodInfer.GroundingDecode | scripts/novel_object_detection/nod_model.py:159-172 | Candidate `j` comes from the `j`-th top flat index `f`. Its label is `f % C` and its query `f // C < nq`, with `query * C + label == f`. Its chunk `label // length` is a valid prompt, and its column `label - chunk * length` lies in that chunk. Its score is that query's dot product with that category's positive map. Its box is that query's box in that chunk, scaled and converted. |
| NodInfer.FlatScoreAt | scripts/novel_object_detection/nod_model.py:153-167 | Flat score `f` is the entry of chunk `labels // length` at query `f // C`, at that chunk's column `labels - chunk * length`. |
| NodInfer.DecodeTopAt | scripts/novel_object_detection/nod_model.py:164-172 | Decoded candidate `j` carries label `f % C`, the flat score at `f`, and the scaled, converted box of its query in its chunk. |
| NodInfer.GroundingStageSucceeds | scripts/novel_object_detection/nod_model.py:149-172 | The whole Grounding DINO stage succeeds under the chunk layout when there are at least 300 scores. |
| NodInfer.PoolLayout | scripts/novel_object_detection/nod_model.py:140-176 | The pool lists the known entries, then the background entries, then the Grounding DINO entries, each kept whole. |
| NodInfer.PoolSize | scripts/novel_object_detection/nod_model.py:140-176 | The pool has `|known| + |selected| + 300` entries, so the second top-300 always has enough candidates. |
| NodInfer.FusedScores | scripts/novel_object_detection/nod_model.py:211-215 | The fused scores (normalised pool scores times normalised SAM scores) lie in [0, 1]. |
| NodInfer.RefinedBoxes | scripts/novel_object_detection/nod_model.py:203-218 | SAM's refined box for every pooled box, position by position. |
| NodInfer.RerankAt | scripts/novel_object_detection/nod_model.py:215-220 | Output `j` is SAM's refined box, the fused score (in [0, 1]) and the label of the one pool entry `top[j]`. |
| NodInfer.RerankOrdered | scripts/novel_object_detection/nod_model.py:216-220 | The reranked scores are non-increasing. |
| NodInfer.RerankBest | scripts/novel_object_detection/nod_model.py:215-216 | No pool entry left out of the rerank has a higher fused score than an entry kept. |
| Scores.TopKValues | scripts/novel_object_detection/nod_model.py:160-164 | The `topk` values are the selected scores, largest first, and none is smaller than a score left out. |
| NodInfer.InferSpec | scripts/novel_object_detection/nod_model.py:93-220 | A successful `infer` returns 300 aligned detections. |
| NodInfer.Infer | scripts/novel_object_detection/nod_model.py:93-257 | The pipeline with its two loops computes exactly the specification `InferSpec`. |
| NodInfer.InferStages | scripts/novel_object_detection/nod_model.py:105-172 | `infer` fails at its first failing stage, in source order: class remapping, then the empty crop list, then Grounding DINO. Otherwise it succeeds. |
| NodInfer.InferSucceeds | scripts/novel_object_detection/nod_model.py:93-220 | `infer` returns its detections when three things hold: every known class maps, some background crop is non-empty, and the prompts are well laid out with at least 300 scores. |
| NodInfer.BackgroundCropKept | scripts/novel_object_detection/nod_model.py:112-133 | A background box with a non-empty crop makes the crop list non-empty. |
| NodInfer.VisibleDetections | scripts/novel_object_detection/nod_model.py:224-227 | The filtered detections are aligned and all reach the threshold. |
| NodInfer.VisibleDetectionsSpec | scripts/novel_object_detection/nod_model.py:224-227 | Every detection reaching the threshold is kept, as a whole triple. |
| NodInfer.VisibleDetectionsExact | scripts/novel_object_detection/nod_model.py:224-227 | The filtered detections are exactly the input triples reaching the threshold, each once, in input order: they sit at strictly increasing input positions, and those positions are exactly the qualifying ones. |

## Left out

- Neural models: the detector, CLIP, Grounding DINO, SAM and `batched_mask_to_box`. Their outputs are inputs of the model. SAM is a function from a box to its refined box and IoU prediction, so each candidate gets one refined box.
- Image I/O and pixels: `prepare_inputs`, `prepare_image_for_GDINO`, colour conversion, resizing, CLIP preprocessing, drawing, `mkdir`, `imwrite`, `torch.save` (the model records the snapshot instead) and the JSON dump of results. The crop itself is left out; only the emptiness of its slice is modelled.
- Timing, logging and device moves: `time.perf_counter` becomes the batch index at which the clock started. `log_every_n_seconds` further throttles the gated logging by time, which is not modelled. CUDA synchronisation is not modelled either.
- Library code: the base `LVISEval` run and accumulation (the precision and recall tables are inputs), `LVISResults` and its per-image cap, `instances_to_coco_json` (a function parameter), `create_small_table`, `_tasks_from_predictions` and the per-task loop of `_eval_predictions`, and `evaluate()` after the driver loop.
- `NpEncoder` and `NOD.__init__`: type coercion and model thresholds only.
- Floating point: scores and boxes are real numbers, so there is no rounding, NaN or overflow. The NaN of empty evaluation is a separate constructor.
- `MinMaxScaler` on a constant column: its library behaviour is not visible, so the model sets every value to 0 (`Scores.MinMaxConstant`). On an empty column the scaler raises, so normalisation requires a non-empty list.
- `torch.topk` tie order: `Scores.TopK` picks some order, and `Scores.TopKSpec` states only what holds for every tie order.
- Python `set` order in `summarize` and `_summarize`: the intersection and difference lists are taken in increasing order. The summaries do not depend on their order.
- `positive_map_list`: the model takes one positive map per prompt and one box set per prompt. `NodInfer.GroundingSucceeds` needs the chunk layout (every chunk but the last has `length` columns); without it the model reports a chunk-index error where PyTorch would raise.
- SubsetEval.LvisEvalCustom.Summarize: the container writes are replaced by direct assignment of the filled container. `SubsetEval.FillContainer` proves this gives the same dictionary for a fresh or previously filled container. Aliasing between `results` and outside references is not modelled.
- LvisEvaluator.CustomEvaluator: the wrapped evaluator is reduced to its prediction list. The cached predictions and the chained results are values, so the rewrite of category ids does not change the cached predictions the way the shared Python dictionaries do.
- LvisEvaluator.PrepareResults: an unmapped id raises KeyError in the source. The model returns the id instead.
- Shape and index errors excluded by preconditions rather than modelled as failures. These are listed below.
- `Grounding.GroundingShaped` and `NodInfer.GroundingOk`: `positive_map_list` has one map per prompt, and every map has the token width of its `prob_to_token` matrix. The `IndexError` of a short list at `nod_model.py` line 155 and the `@` shape error at line 156 are not modelled.
- `NodInfer.RcnnAligned` and `NodInfer.Aligned`: the detector's boxes, scores and classes have one entry per instance, as do the pooled lists. Misaligned tensors are not modelled.
- `NodInfer.ImageOk`: the original height and width are positive, so the crop rescaling never divides by zero. A zero-sized image is not modelled.
- `Scores.MinMaxNormalize`: the list is non-empty, since the scaler raises on an empty column. The pool always holds at least 300 entries, so this cannot arise inside `infer`.
- `LvisSummary.SelectionOk`: the frequency group index and the subset are in range, and the category list broadcasts against the area index. numpy's `IndexError` at `evaluation.py` lines 277, 279 and 285 is not modelled (`LvisSummary.Broadcast` returns `None` for it, but `_summarize` requires success).
- `LvisSummary.Shaped` and `SubsetEval.ParamsValid`: the precision and recall tables have the parameter shapes, the area labels are distinct and include the four standard ones, and there are three frequency groups with in-range categories. Malformed LVIS parameters are not modelled.
- The empty background crop list: `torch.cat` of an empty list raises, so the model returns `NoBackgroundCrop` instead of skipping that source.

## Findings

| source | as written | input that shows it | evidently intended | confidence | as-written member | corrected member |
|---|---|---|---|---|---|---|
| scripts/novel_object_detection/evaluation.py:229-237 | The loop printing the known and novel summaries reuses the name `results`. So with `known_class_ids`, the function returns the novel-class percentages. | All-class AP 0.5, known 0.3, novel 0.1 with results present: 10.0 is returned as AP instead of 50.0. | Return the all-class percentages and only print the subset ones. | not executed | LvisEvaluator.ReportedMetricsAsWritten (shown by LvisEvaluator.ReportedMetricsAsWrittenDiffers) | LvisEvaluator.ReportedMetrics (LvisEvaluator.ReportedMetricsAgreement, LvisEvaluator.ReportedMetricsPresent) |
