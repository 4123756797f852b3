/** The evaluator front end of `evaluation.py`: `CustomEvaluator.process`
    caching one prediction per image, `LVISEvaluatorCustom._eval_predictions`
    chaining the cached results and mapping their category ids back to
    dataset ids, and the guards and reporting of
    `_evaluate_predictions_on_lvis`. */
module LvisEvaluator {
  import opened Wrappers
  import opened SeqUtil
  import opened SubsetEval

  /** One LVIS-format result, as `instances_to_coco_json` produces it. The
      box is optional because mask evaluation removes it. */
  datatype LvisResult = LvisResult(imageId: int, categoryId: int, bbox: Option<seq<real>>, score: real)

  /** One cached prediction: an image id and that image's results. */
  datatype Prediction = Prediction(imageId: int, instances: seq<LvisResult>)

  // ---------------------------------------------------------------------
  // CustomEvaluator.process

  /** The predictions `process` builds from one batch: one per pair of the
      zipped inputs and outputs (the shorter list decides how many), each
      with the input's image id and its output converted by
      `instances_to_coco_json`, given here as `toJson`. */
  function ZipPredictions<I>(imageIds: seq<int>, outputs: seq<I>, toJson: (I, int) -> seq<LvisResult>): (r: seq<Prediction>)
    ensures |r| == if |imageIds| <= |outputs| then |imageIds| else |outputs|
    ensures forall k :: 0 <= k < |r| ==> r[k].imageId == imageIds[k] && r[k].instances == toJson(outputs[k], imageIds[k])
  {
    var n := if |imageIds| <= |outputs| then |imageIds| else |outputs|;
    seq(n, k requires 0 <= k < n => Prediction(imageIds[k], toJson(outputs[k], imageIds[k])))
  }

  /** The wrapper around the library evaluator; `predictions` is the wrapped
      evaluator's `_predictions` list. */
  class CustomEvaluator {
    var predictions: seq<Prediction>

    constructor ()
      ensures predictions == []
    {
      predictions := [];
    }

    /** `reset()`: the wrapped evaluator starts a fresh prediction list. */
    method Reset()
      modifies this
      ensures predictions == []
    {
      predictions := [];
    }

    /** `process(inputs, outputs)`: appends one prediction per zipped pair,
        in order. */
    method Process<I>(imageIds: seq<int>, outputs: seq<I>, toJson: (I, int) -> seq<LvisResult>)
      modifies this
      ensures predictions == old(predictions) + ZipPredictions(imageIds, outputs, toJson)
    {
      var i := 0;
      ghost var start := predictions;
      while i < |imageIds| && i < |outputs|
        invariant 0 <= i <= |imageIds| && i <= |outputs|
        invariant predictions == start + ZipPredictions(imageIds[..i], outputs[..i], toJson)
      {
        assert ZipPredictions(imageIds[..i + 1], outputs[..i + 1], toJson)
            == ZipPredictions(imageIds[..i], outputs[..i], toJson) + [Prediction(imageIds[i], toJson(outputs[i], imageIds[i]))];
        predictions := predictions + [Prediction(imageIds[i], toJson(outputs[i], imageIds[i]))];
        i := i + 1;
      }
      assert ZipPredictions(imageIds[..i], outputs[..i], toJson) == ZipPredictions(imageIds, outputs, toJson);
    }
  }

  // ---------------------------------------------------------------------
  // _eval_predictions: chaining and category-id mapping

  function InstanceLists(preds: seq<Prediction>): (r: seq<seq<LvisResult>>)
    ensures |r| == |preds| && forall p :: 0 <= p < |preds| ==> r[p] == preds[p].instances
  {
    seq(|preds|, p requires 0 <= p < |preds| => preds[p].instances)
  }

  /** `list(itertools.chain(*[x["instances"] for x in predictions]))`. */
  function ChainResults(preds: seq<Prediction>): seq<LvisResult> {
    Concat(InstanceLists(preds))
  }

  /** The chain holds every prediction's results, prediction after
      prediction: result `k` of prediction `p` sits after all results of
      the predictions before `p`. */
  lemma ChainResultsAt(preds: seq<Prediction>, p: nat, k: nat)
    requires p < |preds| && k < |preds[p].instances|
    ensures |ChainResults(preds)| == SumNat(Lengths(InstanceLists(preds)))
    ensures Offset(Lengths(InstanceLists(preds)), p) + k < |ChainResults(preds)|
    ensures ChainResults(preds)[Offset(Lengths(InstanceLists(preds)), p) + k] == preds[p].instances[k]
  {
    ConcatIndex(InstanceLists(preds), p, k);
  }

  /** `thing_dataset_id_to_contiguous_id.items()` in dictionary order:
      pairs (dataset id, contiguous id) with distinct dataset ids. */
  type IdTable = seq<(int, int)>

  /** The contiguous ids of the table, in order. */
  function ContiguousIds(table: IdTable): (r: seq<int>)
    ensures |r| == |table| && forall i :: 0 <= i < |table| ==> r[i] == table[i].1
  {
    seq(|table|, i requires 0 <= i < |table| => table[i].1)
  }

  /** `{v: k for k, v in table.items()}`: a later pair overwrites an earlier
      one with the same contiguous id. */
  function ReverseIdMapping(table: IdTable): (r: map<int, int>)
    ensures forall v :: v in r <==> v in ContiguousIds(table)
  {
    if table == [] then map[]
    else
      var n := |table| - 1;
      assert ContiguousIds(table) == ContiguousIds(table[..n]) + [table[n].1];
      ReverseIdMapping(table[..n])[table[n].1 := table[n].0]
  }

  /** The pair that is the last one with its contiguous id decides where
      that id maps back to. */
  lemma {:induction false} ReverseIdMappingLastWins(table: IdTable, i: nat)
    requires i < |table| && forall j :: i < j < |table| ==> table[j].1 != table[i].1
    ensures table[i].1 in ReverseIdMapping(table)
    ensures ReverseIdMapping(table)[table[i].1] == table[i].0
    decreases |table|
  {
    var n := |table| - 1;
    var prefix := table[..n];
    assert ReverseIdMapping(table) == ReverseIdMapping(prefix)[table[n].1 := table[n].0];
    if i < n {
      assert prefix[i] == table[i];
      assert forall j :: i < j < |prefix| ==> prefix[j].1 != prefix[i].1 by {
        forall j | i < j < |prefix| ensures prefix[j].1 != prefix[i].1 {
          assert prefix[j] == table[j];
        }
      }
      ReverseIdMappingLastWins(prefix, i);
      assert table[n].1 != table[i].1;
    }
  }

  /** The contiguous ids of the table are pairwise distinct. */
  predicate Injective(table: IdTable) {
    forall i, j :: 0 <= i < j < |table| ==> table[i].1 != table[j].1
  }

  /** On an injective table the reversed mapping undoes it: the contiguous
      id of every pair maps back to that pair's dataset id. */
  lemma ReverseIdMappingRoundTrip(table: IdTable, i: nat)
    requires Injective(table) && i < |table|
    ensures table[i].1 in ReverseIdMapping(table)
    ensures ReverseIdMapping(table)[table[i].1] == table[i].0
  {
    ReverseIdMappingLastWins(table, i);
  }

  /** Every result's category id has an entry in the mapping. */
  predicate AllMapped(results: seq<LvisResult>, rev: map<int, int>) {
    forall i :: 0 <= i < |results| ==> results[i].categoryId in rev
  }

  /** The position of the first result whose category id the mapping lacks:
      where the rewrite loop raises KeyError. */
  function FirstUnmapped(results: seq<LvisResult>, rev: map<int, int>): (r: Option<nat>)
    ensures r.None? <==> AllMapped(results, rev)
    ensures r.Some? ==> && r.value < |results| && results[r.value].categoryId !in rev
                        && AllMapped(results[..r.value], rev)
  {
    if results == [] then None
    else if results[0].categoryId !in rev then Some(0)
    else
      var rest := results[1..];
      assert forall j :: 0 <= j < |rest| ==> rest[j] == results[j + 1];
      match FirstUnmapped(rest, rev)
      case None => None
      case Some(k) =>
        assert forall j :: 0 <= j < k ==> rest[..k][j] == results[..k + 1][j + 1];
        Some(k + 1)
  }

  /** An unmapped id with every earlier id mapped is the first unmapped one. */
  lemma FirstUnmappedAt(results: seq<LvisResult>, rev: map<int, int>, i: nat)
    requires i < |results| && results[i].categoryId !in rev && AllMapped(results[..i], rev)
    ensures FirstUnmapped(results, rev) == Some(i)
  {
  }

  /** The results with their category ids replaced through the mapping. */
  function MapIds(results: seq<LvisResult>, rev: map<int, int>): (r: seq<LvisResult>)
    requires AllMapped(results, rev)
    ensures |r| == |results|
  {
    seq(|results|, i requires 0 <= i < |results| => results[i].(categoryId := rev[results[i].categoryId]))
  }

  /** The results with their 0-based category ids made 1-based. */
  function ShiftIds(results: seq<LvisResult>): (r: seq<LvisResult>)
    ensures |r| == |results|
  {
    seq(|results|, i requires 0 <= i < |results| => results[i].(categoryId := results[i].categoryId + 1))
  }

  /** Both rewrites change the category id of each result and nothing else:
      the mapped id is the reversed table's entry, the shifted id is one
      more than before. */
  lemma RewriteOnlyCategory(results: seq<LvisResult>, rev: map<int, int>, i: nat)
    requires i < |results|
    ensures var s := ShiftIds(results)[i];
            && s.categoryId == results[i].categoryId + 1
            && s.imageId == results[i].imageId && s.bbox == results[i].bbox && s.score == results[i].score
    ensures AllMapped(results, rev) ==>
              (var m := MapIds(results, rev)[i];
               && m.categoryId == rev[results[i].categoryId]
               && m.imageId == results[i].imageId && m.bbox == results[i].bbox && m.score == results[i].score)
  {
  }

  /** With an injective table whose contiguous ids cover every result, the
      mapping succeeds and sends each result to the dataset id paired with
      its contiguous id, so no information is lost. */
  lemma MapIdsRoundTrip(results: seq<LvisResult>, table: IdTable, i: nat, j: nat)
    requires Injective(table) && i < |results| && j < |table| && table[j].1 == results[i].categoryId
    requires forall k :: 0 <= k < |results| ==> results[k].categoryId in ContiguousIds(table)
    ensures AllMapped(results, ReverseIdMapping(table))
    ensures MapIds(results, ReverseIdMapping(table))[i].categoryId == table[j].0
  {
    ReverseIdMappingRoundTrip(table, j);
  }

  /** The rewrite loop through the reversed table, in place on the chained
      results; an unmapped id raises KeyError after the results before it
      have been rewritten. */
  method MapCategoryIds(a: array<LvisResult>, rev: map<int, int>) returns (err: Option<int>)
    modifies a
    ensures err.None? <==> AllMapped(old(a[..]), rev)
    ensures err.None? ==> a[..] == MapIds(old(a[..]), rev)
    ensures err.Some? ==>
              var k := FirstUnmapped(old(a[..]), rev).value;
              && err.value == old(a[k]).categoryId
              && a[..] == MapIds(old(a[..k]), rev) + old(a[..])[k..]
  {
    ghost var s := a[..];
    var i := 0;
    while i < a.Length
      invariant 0 <= i <= a.Length
      invariant forall j :: 0 <= j < i ==> s[j].categoryId in rev
      invariant forall j :: 0 <= j < i ==> a[j] == s[j].(categoryId := rev[s[j].categoryId])
      invariant forall j :: i <= j < a.Length ==> a[j] == s[j]
    {
      if a[i].categoryId !in rev {
        assert AllMapped(s[..i], rev) by {
          forall j | 0 <= j < i ensures s[..i][j].categoryId in rev {
            assert s[..i][j] == s[j];
          }
        }
        FirstUnmappedAt(s, rev, i);
        assert a[..] == MapIds(s[..i], rev) + s[i..];
        return Some(a[i].categoryId);
      }
      a[i] := a[i].(categoryId := rev[a[i].categoryId]);
      i := i + 1;
    }
    assert a[..] == MapIds(s, rev);
    return None;
  }

  /** The `+= 1` loop, in place on the chained results. */
  method ShiftCategoryIds(a: array<LvisResult>)
    modifies a
    ensures a[..] == ShiftIds(old(a[..]))
  {
    ghost var s := a[..];
    var i := 0;
    while i < a.Length
      invariant 0 <= i <= a.Length
      invariant forall j :: 0 <= j < i ==> a[j] == s[j].(categoryId := s[j].categoryId + 1)
      invariant forall j :: i <= j < a.Length ==> a[j] == s[j]
    {
      a[i] := a[i].(categoryId := a[i].categoryId + 1);
      i := i + 1;
    }
  }

  /** `_eval_predictions` up to the evaluation: the chained results with
      their ids mapped back (through the reversed table when the metadata
      has one, by one otherwise), or the first id the reversed table lacks. */
  method PrepareResults(preds: seq<Prediction>, table: Option<IdTable>) returns (r: Result<seq<LvisResult>, int>)
    ensures table.None? ==> r == Success(ShiftIds(ChainResults(preds)))
    ensures table.Some? ==> (r.Success? <==> AllMapped(ChainResults(preds), ReverseIdMapping(table.value)))
    ensures table.Some? && r.Success? ==> r.value == MapIds(ChainResults(preds), ReverseIdMapping(table.value))
    ensures table.Some? && r.Failure? ==>
              var k := FirstUnmapped(ChainResults(preds), ReverseIdMapping(table.value)).value;
              r.error == ChainResults(preds)[k].categoryId
  {
    var chain := ChainResults(preds);
    var a := new LvisResult[|chain|](i requires 0 <= i < |chain| => chain[i]);
    assert a[..] == chain;
    if table.None? {
      ShiftCategoryIds(a);
      return Success(a[..]);
    }
    var err := MapCategoryIds(a, ReverseIdMapping(table.value));
    if err.Some? {
      return Failure(err.value);
    }
    return Success(a[..]);
  }

  // ---------------------------------------------------------------------
  // _evaluate_predictions_on_lvis

  datatype IouType = Bbox | Segm

  /** The metrics reported for each IoU type. */
  function MetricNames(iou: IouType): (r: seq<string>)
    ensures |r| == 9
  {
    match iou
    case Bbox => ["AP", "AP50", "AP75", "APs", "APm", "APl", "APr", "APc", "APf"]
    case Segm => ["AP", "AP50", "AP75", "APs", "APm", "APl", "APr", "APc", "APf"]
  }

  /** Every reported metric is one of the thirteen keys `summarize` writes,
      whatever the detection cap, so reading it from a filled container
      cannot raise. */
  lemma MetricNamesSummarized(iou: IouType, maxDets: nat, k: nat)
    requires k < 9
    ensures MetricNames(iou)[k] == MetricKeys(maxDets)[k]
  {
  }

  /** A reported value: `float("nan")` or a number. */
  datatype Metric = NaN | Num(value: real)

  /** The LVIS default detection cap applies when none is given. */
  function MaxDetsOrDefault(maxDets: Option<nat>): (r: nat)
    ensures maxDets.Some? ==> r == maxDets.value
    ensures maxDets.None? ==> r == 300
  {
    if maxDets.None? then 300 else maxDets.value
  }

  /** For mask evaluation every result loses its box (on a copy); box
      evaluation keeps the results as they are. */
  function ResultsForTask(results: seq<LvisResult>, iou: IouType): (r: seq<LvisResult>)
    ensures |r| == |results|
    ensures forall i :: 0 <= i < |results| ==>
              r[i] == if iou == Segm then results[i].(bbox := None) else results[i]
  {
    if iou == Segm then seq(|results|, i requires 0 <= i < |results| => results[i].(bbox := None))
    else results
  }

  /** After mask preparation no result carries a box, and every other field
      is as before. */
  lemma SegmStripsBoxes(results: seq<LvisResult>, i: nat)
    requires i < |results|
    ensures var r := ResultsForTask(results, Segm)[i];
            && r.bbox.None?
            && r.imageId == results[i].imageId && r.categoryId == results[i].categoryId && r.score == results[i].score
  {
  }

  /** `{metric: float(results[metric] * 100) for metric in metrics}`, or
      `None` when a metric is missing (KeyError). */
  function Percentages(d: OrderedDict, names: seq<string>): (r: Option<seq<(string, Metric)>>)
    ensures r.Some? <==> forall k :: 0 <= k < |names| ==> names[k] in Keys(d)
    ensures r.Some? ==> |r.value| == |names|
    ensures r.Some? ==> forall k :: 0 <= k < |names| ==> r.value[k] == (names[k], Num(Lookup(d, names[k]).value * 100.0))
  {
    if exists k :: 0 <= k < |names| && names[k] !in Keys(d) then None
    else Some(seq(|names|, k requires 0 <= k < |names| => (names[k], Num(Lookup(d, names[k]).value * 100.0))))
  }

  /** `{metric: float("nan") for metric in metrics}`. */
  function AllNaN(names: seq<string>): (r: seq<(string, Metric)>)
    ensures |r| == |names| && forall k :: 0 <= k < |names| ==> r[k] == (names[k], NaN)
  {
    seq(|names|, k requires 0 <= k < |names| => (names[k], NaN))
  }

  /** The known- and novel-class containers of the custom evaluator, present
      exactly when known class ids were given. */
  type SubsetResults = Option<(OrderedDict, OrderedDict)>

  /** What `_evaluate_predictions_on_lvis` returns as written: with known
      class ids, the loop over the known and novel containers rebinds
      `results`, so the novel-class percentages come back. */
  function ReportedMetricsAsWritten(numResults: nat, iou: IouType, overall: OrderedDict, subsets: SubsetResults)
    : (r: Option<seq<(string, Metric)>>)
    ensures numResults == 0 ==> r == Some(AllNaN(MetricNames(iou)))
    ensures numResults > 0 && subsets.Some? && r.Some? ==> r == Percentages(subsets.value.1, MetricNames(iou))
  {
    var names := MetricNames(iou);
    if numResults == 0 then Some(AllNaN(names))
    else
      match Percentages(overall, names)
      case None => None
      case Some(res) =>
        match subsets
        case None => Some(res)
        case Some((known, novel)) =>
          if Percentages(known, names).None? then None else Percentages(novel, names)
  }

  /** What the function evidently means to return: the all-class
      percentages, with the subset containers only read for logging (a
      missing key there still raises). */
  function ReportedMetrics(numResults: nat, iou: IouType, overall: OrderedDict, subsets: SubsetResults)
    : (r: Option<seq<(string, Metric)>>)
    ensures numResults == 0 ==> r == Some(AllNaN(MetricNames(iou)))
    ensures numResults > 0 && r.Some? ==> r == Percentages(overall, MetricNames(iou))
  {
    var names := MetricNames(iou);
    if numResults == 0 then Some(AllNaN(names))
    else
      match Percentages(overall, names)
      case None => None
      case Some(res) =>
        match subsets
        case None => Some(res)
        case Some((known, novel)) =>
          if Percentages(known, names).None? || Percentages(novel, names).None? then None else Some(res)
  }

  /** The two agree without known class ids and on empty input, and both
      fail on exactly the same inputs. */
  lemma ReportedMetricsAgreement(numResults: nat, iou: IouType, overall: OrderedDict, subsets: SubsetResults)
    ensures subsets.None? || numResults == 0 ==>
              ReportedMetricsAsWritten(numResults, iou, overall, subsets) == ReportedMetrics(numResults, iou, overall, subsets)
    ensures ReportedMetricsAsWritten(numResults, iou, overall, subsets).None? <==>
              ReportedMetrics(numResults, iou, overall, subsets).None?
  {
  }

  /** Containers filled by `summarize` always yield the full set of
      reported metrics. */
  lemma ReportedMetricsPresent(numResults: nat, iou: IouType, overall: OrderedDict, subsets: SubsetResults, maxDets: nat)
    requires Keys(overall) == MetricKeys(maxDets)
    requires subsets.Some? ==> Keys(subsets.value.0) == MetricKeys(maxDets) && Keys(subsets.value.1) == MetricKeys(maxDets)
    ensures ReportedMetrics(numResults, iou, overall, subsets).Some?
    ensures numResults > 0 ==> ReportedMetrics(numResults, iou, overall, subsets) == Percentages(overall, MetricNames(iou))
  {
    var names := MetricNames(iou);
    forall d: OrderedDict, k | Keys(d) == MetricKeys(maxDets) && 0 <= k < |names| ensures names[k] in Keys(d) {
      MetricNamesSummarized(iou, maxDets, k);
      assert Keys(d)[k] == names[k];
    }
  }

  /** A container holding `v` under every reported metric name. */
  function Constant(v: real): OrderedDict {
    seq(9, k requires 0 <= k < 9 => (MetricNames(Bbox)[k], v))
  }

  /** An input on which the code as written reports the novel classes: all
      classes score AP 0.5, the novel ones 0.1, and 10.0 comes back instead
      of 50.0. */
  lemma ReportedMetricsAsWrittenDiffers()
    ensures ReportedMetricsAsWritten(1, Bbox, Constant(0.5), Some((Constant(0.3), Constant(0.1))))
         != ReportedMetrics(1, Bbox, Constant(0.5), Some((Constant(0.3), Constant(0.1))))
  {
    var names := MetricNames(Bbox);
    forall v: real, k | 0 <= k < 9 ensures names[k] in Keys(Constant(v)) {
      assert Keys(Constant(v))[k] == names[k];
    }
    forall v: real ensures Lookup(Constant(v), "AP") == Some(v) {
      FindKeyAt(Constant(v), "AP", 0);
    }
    var w := ReportedMetricsAsWritten(1, Bbox, Constant(0.5), Some((Constant(0.3), Constant(0.1))));
    var c := ReportedMetrics(1, Bbox, Constant(0.5), Some((Constant(0.3), Constant(0.1))));
    assert w.value[0] == (names[0], Num(10.0));
    assert c.value[0] == (names[0], Num(50.0));
  }
}
