/** The subset-aware summary of an accumulated LVIS evaluation
    (`LVISEvalCustom._summarize`): selection of precision or recall cells by
    IoU threshold, category subset (optionally intersected with a frequency
    group) and area label, then the mean of the cells that are not the `-1`
    "no ground truth" sentinel. */
module LvisSummary {
  import opened Wrappers
  import opened SeqUtil

  datatype SummaryType = AP | AR

  /** The evaluation parameters read by the summary: dataset category ids
      (their positions are the contiguous indices), IoU thresholds, number of
      recall points, area-range labels and the detection cap. */
  datatype Params = Params(
    catIds: seq<int>,
    iouThrs: seq<real>,
    recallPoints: nat,
    areaRngLbl: seq<string>,
    maxDets: nat)

  /** `eval["precision"]` is indexed [iou][recall point][category][area],
      `eval["recall"]` is indexed [iou][category][area]. */
  datatype Tables = Tables(
    precision: seq<seq<seq<seq<real>>>>,
    recall: seq<seq<seq<real>>>)

  const Sentinel: real := -1.0

  predicate Shaped(p: Params, t: Tables) {
    && |t.precision| == |p.iouThrs|
    && (forall i :: 0 <= i < |t.precision| ==> |t.precision[i]| == p.recallPoints)
    && (forall i, r :: 0 <= i < |t.precision| && 0 <= r < |t.precision[i]| ==>
          |t.precision[i][r]| == |p.catIds|)
    && (forall i, r, k :: 0 <= i < |t.precision| && 0 <= r < |t.precision[i]| && 0 <= k < |t.precision[i][r]| ==>
          |t.precision[i][r][k]| == |p.areaRngLbl|)
    && |t.recall| == |p.iouThrs|
    && (forall i :: 0 <= i < |t.recall| ==> |t.recall[i]| == |p.catIds|)
    && (forall i, k :: 0 <= i < |t.recall| && 0 <= k < |t.recall[i]| ==> |t.recall[i][k]| == |p.areaRngLbl|)
  }

  /** Frequency groups (rare, common, frequent) hold contiguous category indices. */
  predicate FreqGroupsInRange(p: Params, freqGroups: seq<seq<nat>>) {
    forall g :: 0 <= g < |freqGroups| ==> AllBelow(freqGroups[g], |p.catIds|)
  }

  predicate SubsetInRange(p: Params, subset: Option<seq<nat>>) {
    subset.Some? ==> AllBelow(subset.value, |p.catIds|)
  }

  /** Area labels are distinct, as in the standard LVIS parameters. */
  predicate LabelsDistinct(p: Params) {
    Distinct(p.areaRngLbl)
  }

  /** `np.where(iou_thr == iou_thrs)[0]`, or every threshold when none is given. */
  function IouIndices(p: Params, iouThr: Option<real>): (r: seq<nat>)
    ensures AllBelow(r, |p.iouThrs|)
  {
    match iouThr
    case None => Range(|p.iouThrs|)
    case Some(v) => Where(seq(|p.iouThrs|, i requires 0 <= i < |p.iouThrs| => p.iouThrs[i] == v))
  }

  /** The positions of the area labels equal to `areaRng`. */
  function AreaIndices(p: Params, areaRng: string): (r: seq<nat>)
    ensures AllBelow(r, |p.areaRngLbl|)
  {
    Where(seq(|p.areaRngLbl|, a requires 0 <= a < |p.areaRngLbl| => p.areaRngLbl[a] == areaRng))
  }

  /** The category indices a summary reads. No subset means every contiguous
      index; a frequency group (AP only) intersects it with that group. The
      intersection is listed in increasing order (a Python set has no
      specified order, and the mean does not depend on it). */
  function CategoryIndices(p: Params, freqGroups: seq<seq<nat>>, kind: SummaryType,
                           freqGroup: Option<nat>, subset: Option<seq<nat>>): (r: seq<nat>)
    requires FreqGroupsInRange(p, freqGroups) && SubsetInRange(p, subset)
    requires kind == AP && freqGroup.Some? ==> freqGroup.value < |freqGroups|
    ensures AllBelow(r, |p.catIds|)
  {
    var base := if subset.None? then Range(|p.catIds|) else subset.value;
    if kind == AP && freqGroup.Some? then
      Where(seq(|p.catIds|, k requires 0 <= k < |p.catIds| => k in base && k in freqGroups[freqGroup.value]))
    else base
  }

  /** numpy broadcasting of the two adjacent index lists in
      `s[..., cats, aidx]`: equal lengths are zipped, a length-one list is
      repeated, anything else is a shape mismatch (an IndexError). */
  function Broadcast(ks: seq<nat>, ars: seq<nat>): (r: Option<seq<(nat, nat)>>)
    ensures r.Some? ==> forall j :: 0 <= j < |r.value| ==> r.value[j].0 in ks && r.value[j].1 in ars
  {
    if |ks| == |ars| then Some(seq(|ks|, j requires 0 <= j < |ks| => (ks[j], ars[j])))
    else if |ks| == 1 then Some(seq(|ars|, j requires 0 <= j < |ars| => (ks[0], ars[j])))
    else if |ars| == 1 then Some(seq(|ks|, j requires 0 <= j < |ks| => (ks[j], ars[0])))
    else None
  }

  /** With exactly one matching area label the broadcast never fails and is
      the full product of categories and areas. */
  lemma BroadcastSingleArea(ks: seq<nat>, ars: seq<nat>, k: nat, a: nat)
    requires |ars| == 1
    ensures Broadcast(ks, ars).Some?
    ensures k in ks && a in ars ==> (k, a) in Broadcast(ks, ars).value
  {
    if k in ks && a in ars {
      var j :| 0 <= j < |ks| && ks[j] == k;
      assert ars == [a];
      var r := Broadcast(ks, ars).value;
      if |ks| == |ars| {
        assert r[0] == (k, a);
      } else {
        assert r[j] == (k, a);
      }
    }
  }

  ghost predicate SelectionOk(p: Params, freqGroups: seq<seq<nat>>, kind: SummaryType,
                        areaRng: string, freqGroup: Option<nat>, subset: Option<seq<nat>>) {
    && FreqGroupsInRange(p, freqGroups) && SubsetInRange(p, subset)
    && (kind == AP && freqGroup.Some? ==> freqGroup.value < |freqGroups|)
    && Broadcast(CategoryIndices(p, freqGroups, kind, freqGroup, subset), AreaIndices(p, areaRng)).Some?
  }

  datatype Cell = Cell(iou: nat, recallPoint: nat, category: nat, area: nat)

  predicate CellInBounds(p: Params, kind: SummaryType, c: Cell) {
    && c.iou < |p.iouThrs| && c.category < |p.catIds| && c.area < |p.areaRngLbl|
    && (if kind == AP then c.recallPoint < p.recallPoints else c.recallPoint == 0)
  }

  /** The precision cells of a selection, in numpy's order: IoU index,
      recall point, then the broadcast category/area pairs. */
  function PrecisionCells(ti: seq<nat>, rs: seq<nat>, ka: seq<(nat, nat)>): (r: seq<Cell>)
    ensures forall j :: 0 <= j < |r| ==>
      r[j].iou in ti && r[j].recallPoint in rs && (r[j].category, r[j].area) in ka
  {
    var ps := Pairs(Pairs(ti, rs), ka);
    seq(|ps|, j requires 0 <= j < |ps| => Cell(ps[j].0.0, ps[j].0.1, ps[j].1.0, ps[j].1.1))
  }

  /** The recall cells of a selection (the recall table has no recall-point
      axis; the cell's recall point is 0). */
  function RecallCells(ti: seq<nat>, ka: seq<(nat, nat)>): (r: seq<Cell>)
    ensures forall j :: 0 <= j < |r| ==>
      r[j].iou in ti && r[j].recallPoint == 0 && (r[j].category, r[j].area) in ka
  {
    var ps := Pairs(ti, ka);
    seq(|ps|, j requires 0 <= j < |ps| => Cell(ps[j].0, 0, ps[j].1.0, ps[j].1.1))
  }

  /** The cells the summary reads. */
  function SelectedCells(p: Params, freqGroups: seq<seq<nat>>, kind: SummaryType, iouThr: Option<real>,
                         areaRng: string, freqGroup: Option<nat>, subset: Option<seq<nat>>): (r: seq<Cell>)
    requires SelectionOk(p, freqGroups, kind, areaRng, freqGroup, subset)
    ensures forall j :: 0 <= j < |r| ==>
      && CellInBounds(p, kind, r[j])
      && r[j].iou in IouIndices(p, iouThr)
      && r[j].category in CategoryIndices(p, freqGroups, kind, freqGroup, subset)
      && r[j].area in AreaIndices(p, areaRng)
  {
    var ti := IouIndices(p, iouThr);
    var ks := CategoryIndices(p, freqGroups, kind, freqGroup, subset);
    var ai := AreaIndices(p, areaRng);
    var ka := Broadcast(ks, ai).value;
    assert forall x :: x in ka ==> x.0 in ks && x.1 in ai;
    match kind
    case AP => PrecisionCells(ti, Range(p.recallPoints), ka)
    case AR => RecallCells(ti, ka)
  }

  function CellValue(p: Params, t: Tables, kind: SummaryType, c: Cell): real
    requires Shaped(p, t) && CellInBounds(p, kind, c)
  {
    if kind == AP then t.precision[c.iou][c.recallPoint][c.category][c.area]
    else t.recall[c.iou][c.category][c.area]
  }

  function CellValues(p: Params, t: Tables, kind: SummaryType, cells: seq<Cell>): (r: seq<real>)
    requires Shaped(p, t)
    requires forall j :: 0 <= j < |cells| ==> CellInBounds(p, kind, cells[j])
    ensures |r| == |cells|
    ensures forall j :: 0 <= j < |cells| ==> r[j] == CellValue(p, t, kind, cells[j])
  {
    seq(|cells|, j requires 0 <= j < |cells| => CellValue(p, t, kind, cells[j]))
  }

  /** `s[s > -1]`: the cells that carry data, in order. */
  function AboveSentinel(vals: seq<real>): (r: seq<real>)
    ensures forall i :: 0 <= i < |r| ==> r[i] > Sentinel && r[i] in vals
    ensures |r| == 0 <==> forall i :: 0 <= i < |vals| ==> vals[i] <= Sentinel
  {
    if vals == [] then []
    else
      var init := vals[..|vals| - 1];
      var r := AboveSentinel(init) + (if vals[|vals| - 1] > Sentinel then [vals[|vals| - 1]] else []);
      assert forall i :: 0 <= i < |init| ==> init[i] == vals[i];
      r
  }

  /** The filter keeps every value that carries data, as often as it
      occurs, and nothing else. */
  lemma {:induction false} AboveSentinelMultiset(vals: seq<real>)
    ensures forall x :: multiset(AboveSentinel(vals))[x] == if x > Sentinel then multiset(vals)[x] else 0
    decreases |vals|
  {
    if vals != [] {
      var init := vals[..|vals| - 1];
      assert vals == init + [vals[|vals| - 1]];
      AboveSentinelMultiset(init);
      AboveSentinelStep(init, vals[|vals| - 1], AboveSentinel(init));
    }
  }

  /** Filtering one more value keeps the filtered multiset exact. */
  lemma AboveSentinelStep(init: seq<real>, last: real, a: seq<real>)
    requires forall x :: multiset(a)[x] == if x > Sentinel then multiset(init)[x] else 0
    ensures forall x :: multiset(a + (if last > Sentinel then [last] else []))[x]
                        == if x > Sentinel then multiset(init + [last])[x] else 0
  {
    forall x ensures multiset(a + (if last > Sentinel then [last] else []))[x]
                     == if x > Sentinel then multiset(init + [last])[x] else 0 {
      assert multiset(init + [last]) == multiset(init) + multiset{last};
    }
  }

  /** The arithmetic mean of a non-empty sequence. */
  function Mean(v: seq<real>): real
    requires |v| > 0
  {
    Sum(v) / (|v| as real)
  }

  /** A mean lies within any bounds of the values it averages. */
  lemma {:induction false} MeanBetween(v: seq<real>, lo: real, hi: real)
    requires |v| > 0
    requires forall i :: 0 <= i < |v| ==> lo <= v[i] <= hi
    ensures lo <= Mean(v) <= hi
  {
    SumBounds(v, lo, hi);
    DivBetween(Sum(v), |v| as real, lo, hi);
  }

  /** The mean of values strictly above a bound is strictly above it. */
  lemma {:induction false} MeanAbove(v: seq<real>, lo: real)
    requires |v| > 0
    requires forall i :: 0 <= i < |v| ==> lo < v[i]
    ensures lo < Mean(v)
  {
    SumStrictlyAbove(v, lo);
    var n := |v| as real;
    assert Mean(v) * n == Sum(v);
  }

  lemma DivBetween(s: real, n: real, lo: real, hi: real)
    requires n > 0.0
    requires n * lo <= s <= n * hi
    ensures lo <= s / n <= hi
  {
  }

  /** The mean of the cells that carry data, or the sentinel when none does. */
  function MeanAboveSentinel(vals: seq<real>): (m: real)
    ensures m == Sentinel <==> forall i :: 0 <= i < |vals| ==> vals[i] <= Sentinel
  {
    var v := AboveSentinel(vals);
    if |v| == 0 then Sentinel
    else
      MeanAbove(v, Sentinel);
      Mean(v)
  }

  /** When some value carries data, the result is the mean of exactly the
      values that carry data, each counted as often as it occurs: `w` is any
      listing of them, in any order. */
  lemma MeanAboveSentinelIsMean(vals: seq<real>, w: seq<real>)
    requires exists i :: 0 <= i < |vals| && vals[i] > Sentinel
    requires forall x :: multiset(w)[x] == if x > Sentinel then multiset(vals)[x] else 0
    ensures |w| > 0 && MeanAboveSentinel(vals) == Sum(w) / (|w| as real)
  {
    var i :| 0 <= i < |vals| && vals[i] > Sentinel;
    var v := AboveSentinel(vals);
    assert |v| > 0;
    assert MeanAboveSentinel(vals) == Sum(v) / (|v| as real);
    AboveSentinelMultiset(vals);
    forall x ensures multiset(v)[x] == multiset(w)[x] {
    }
    assert multiset(v) == multiset(w);
    assert |v| == |multiset(v)| == |multiset(w)| == |w|;
    SumPermutation(v, w);
  }

  /** When some value carries data, the result is bounded by the values
      that carry data. */
  lemma MeanWithin(vals: seq<real>, lo: real, hi: real)
    requires exists i :: 0 <= i < |vals| && vals[i] > Sentinel
    requires forall i :: 0 <= i < |vals| && vals[i] > Sentinel ==> lo <= vals[i] <= hi
    ensures lo <= MeanAboveSentinel(vals) <= hi
  {
    var v := AboveSentinel(vals);
    assert |v| > 0;
    AboveSentinelWithin(vals, lo, hi);
    MeanBetween(v, lo, hi);
  }

  lemma AboveSentinelWithin(vals: seq<real>, lo: real, hi: real)
    requires forall i :: 0 <= i < |vals| && vals[i] > Sentinel ==> lo <= vals[i] <= hi
    ensures forall i :: 0 <= i < |AboveSentinel(vals)| ==> lo <= AboveSentinel(vals)[i] <= hi
  {
    var v := AboveSentinel(vals);
    forall i | 0 <= i < |v| ensures lo <= v[i] <= hi {
      var j :| 0 <= j < |vals| && vals[j] == v[i];
    }
  }

  /** `LVISEvalCustom._summarize`. The result is the sentinel exactly when no
      selected cell carries data. */
  function Summarize(p: Params, freqGroups: seq<seq<nat>>, t: Tables, kind: SummaryType, iouThr: Option<real>,
                     areaRng: string, freqGroup: Option<nat>, subset: Option<seq<nat>>): (m: real)
    requires Shaped(p, t)
    requires SelectionOk(p, freqGroups, kind, areaRng, freqGroup, subset)
    ensures var cells := SelectedCells(p, freqGroups, kind, iouThr, areaRng, freqGroup, subset);
      m == Sentinel <==> forall j :: 0 <= j < |cells| ==> CellValue(p, t, kind, cells[j]) <= Sentinel
  {
    MeanAboveSentinel(SelectedValues(p, freqGroups, t, kind, iouThr, areaRng, freqGroup, subset))
  }

  /** The values of the selected cells, `s` before the `s > -1` filter. */
  function SelectedValues(p: Params, freqGroups: seq<seq<nat>>, t: Tables, kind: SummaryType, iouThr: Option<real>,
                          areaRng: string, freqGroup: Option<nat>, subset: Option<seq<nat>>): (r: seq<real>)
    requires Shaped(p, t)
    requires SelectionOk(p, freqGroups, kind, areaRng, freqGroup, subset)
    ensures var cells := SelectedCells(p, freqGroups, kind, iouThr, areaRng, freqGroup, subset);
      |r| == |cells| && forall j :: 0 <= j < |cells| ==> r[j] == CellValue(p, t, kind, cells[j])
  {
    CellValues(p, t, kind, SelectedCells(p, freqGroups, kind, iouThr, areaRng, freqGroup, subset))
  }

  /** When some selected cell carries data, the summary is bounded by the
      data-carrying selected cells (so it is never the sentinel and, if they
      all hold one value, it is that value). */
  lemma SummarizeWithin(p: Params, freqGroups: seq<seq<nat>>, t: Tables, kind: SummaryType, iouThr: Option<real>,
                        areaRng: string, freqGroup: Option<nat>, subset: Option<seq<nat>>, lo: real, hi: real)
    requires Shaped(p, t)
    requires SelectionOk(p, freqGroups, kind, areaRng, freqGroup, subset)
    requires var vals := SelectedValues(p, freqGroups, t, kind, iouThr, areaRng, freqGroup, subset);
      && (exists j :: 0 <= j < |vals| && vals[j] > Sentinel)
      && (forall j :: 0 <= j < |vals| && vals[j] > Sentinel ==> lo <= vals[j] <= hi)
    ensures lo <= Summarize(p, freqGroups, t, kind, iouThr, areaRng, freqGroup, subset) <= hi
  {
    MeanWithin(SelectedValues(p, freqGroups, t, kind, iouThr, areaRng, freqGroup, subset), lo, hi);
  }

  /** When some selected cell carries data, `_summarize` is the sum of the
      selected cells above the sentinel divided by how many there are:
      `w` lists exactly those cells, with their multiplicities. */
  lemma SummarizeIsMean(p: Params, freqGroups: seq<seq<nat>>, t: Tables, kind: SummaryType, iouThr: Option<real>,
                        areaRng: string, freqGroup: Option<nat>, subset: Option<seq<nat>>, w: seq<real>)
    requires Shaped(p, t)
    requires SelectionOk(p, freqGroups, kind, areaRng, freqGroup, subset)
    requires var vals := SelectedValues(p, freqGroups, t, kind, iouThr, areaRng, freqGroup, subset);
      && (exists j :: 0 <= j < |vals| && vals[j] > Sentinel)
      && (forall x :: multiset(w)[x] == if x > Sentinel then multiset(vals)[x] else 0)
    ensures |w| > 0
    ensures Summarize(p, freqGroups, t, kind, iouThr, areaRng, freqGroup, subset) == Sum(w) / (|w| as real)
  {
    MeanAboveSentinelIsMean(SelectedValues(p, freqGroups, t, kind, iouThr, areaRng, freqGroup, subset), w);
  }

  /** Locality of the precision summary: it reads only cells whose IoU
      threshold matches, whose category is in the (intersected) subset and
      whose area label is `areaRng`; changing any other cell changes nothing. */
  lemma PrecisionSummaryLocality(p: Params, freqGroups: seq<seq<nat>>, t1: Tables, t2: Tables, iouThr: Option<real>,
                                 areaRng: string, freqGroup: Option<nat>, subset: Option<seq<nat>>)
    requires Shaped(p, t1) && Shaped(p, t2)
    requires SelectionOk(p, freqGroups, AP, areaRng, freqGroup, subset)
    requires forall i, r, k, a ::
      0 <= i < |p.iouThrs| && 0 <= r < p.recallPoints && 0 <= k < |p.catIds| && 0 <= a < |p.areaRngLbl| &&
      (iouThr.None? || p.iouThrs[i] == iouThr.value) &&
      k in CategoryIndices(p, freqGroups, AP, freqGroup, subset) && p.areaRngLbl[a] == areaRng
      ==> t1.precision[i][r][k][a] == t2.precision[i][r][k][a]
    ensures Summarize(p, freqGroups, t1, AP, iouThr, areaRng, freqGroup, subset)
         == Summarize(p, freqGroups, t2, AP, iouThr, areaRng, freqGroup, subset)
  {
    var v1 := SelectedValues(p, freqGroups, t1, AP, iouThr, areaRng, freqGroup, subset);
    var v2 := SelectedValues(p, freqGroups, t2, AP, iouThr, areaRng, freqGroup, subset);
    forall j | 0 <= j < |v1| ensures v1[j] == v2[j] {
      PrecisionCellAgrees(p, freqGroups, t1, t2, iouThr, areaRng, freqGroup, subset, j);
    }
    assert v1 == v2;
  }

  lemma PrecisionCellAgrees(p: Params, freqGroups: seq<seq<nat>>, t1: Tables, t2: Tables, iouThr: Option<real>,
      areaRng: string, freqGroup: Option<nat>, subset: Option<seq<nat>>, j: nat)
    requires Shaped(p, t1) && Shaped(p, t2)
    requires SelectionOk(p, freqGroups, AP, areaRng, freqGroup, subset)
    requires forall i, r, k, a ::
      0 <= i < |p.iouThrs| && 0 <= r < p.recallPoints && 0 <= k < |p.catIds| && 0 <= a < |p.areaRngLbl| &&
      (iouThr.None? || p.iouThrs[i] == iouThr.value) &&
      k in CategoryIndices(p, freqGroups, AP, freqGroup, subset) && p.areaRngLbl[a] == areaRng
      ==> t1.precision[i][r][k][a] == t2.precision[i][r][k][a]
    requires j < |SelectedCells(p, freqGroups, AP, iouThr, areaRng, freqGroup, subset)|
    ensures SelectedValues(p, freqGroups, t1, AP, iouThr, areaRng, freqGroup, subset)[j]
         == SelectedValues(p, freqGroups, t2, AP, iouThr, areaRng, freqGroup, subset)[j]
  {
    var cells := SelectedCells(p, freqGroups, AP, iouThr, areaRng, freqGroup, subset);
    SelectedCellSatisfies(p, freqGroups, AP, iouThr, areaRng, freqGroup, subset, j);
  }

  /** Locality of the recall summary; the frequency group plays no part. */
  lemma RecallSummaryLocality(p: Params, freqGroups: seq<seq<nat>>, t1: Tables, t2: Tables, iouThr: Option<real>,
                              areaRng: string, freqGroup: Option<nat>, subset: Option<seq<nat>>)
    requires Shaped(p, t1) && Shaped(p, t2)
    requires SelectionOk(p, freqGroups, AR, areaRng, freqGroup, subset)
    requires forall i, k, a ::
      0 <= i < |p.iouThrs| && 0 <= k < |p.catIds| && 0 <= a < |p.areaRngLbl| &&
      (iouThr.None? || p.iouThrs[i] == iouThr.value) &&
      k in CategoryIndices(p, freqGroups, AR, None, subset) && p.areaRngLbl[a] == areaRng
      ==> t1.recall[i][k][a] == t2.recall[i][k][a]
    ensures Summarize(p, freqGroups, t1, AR, iouThr, areaRng, freqGroup, subset)
         == Summarize(p, freqGroups, t2, AR, iouThr, areaRng, freqGroup, subset)
  {
    var v1 := SelectedValues(p, freqGroups, t1, AR, iouThr, areaRng, freqGroup, subset);
    var v2 := SelectedValues(p, freqGroups, t2, AR, iouThr, areaRng, freqGroup, subset);
    forall j | 0 <= j < |v1| ensures v1[j] == v2[j] {
      RecallCellAgrees(p, freqGroups, t1, t2, iouThr, areaRng, freqGroup, subset, j);
    }
    assert v1 == v2;
  }

  lemma RecallCellAgrees(p: Params, freqGroups: seq<seq<nat>>, t1: Tables, t2: Tables, iouThr: Option<real>,
      areaRng: string, freqGroup: Option<nat>, subset: Option<seq<nat>>, j: nat)
    requires Shaped(p, t1) && Shaped(p, t2)
    requires SelectionOk(p, freqGroups, AR, areaRng, freqGroup, subset)
    requires forall i, k, a ::
      0 <= i < |p.iouThrs| && 0 <= k < |p.catIds| && 0 <= a < |p.areaRngLbl| &&
      (iouThr.None? || p.iouThrs[i] == iouThr.value) &&
      k in CategoryIndices(p, freqGroups, AR, None, subset) && p.areaRngLbl[a] == areaRng
      ==> t1.recall[i][k][a] == t2.recall[i][k][a]
    requires j < |SelectedCells(p, freqGroups, AR, iouThr, areaRng, freqGroup, subset)|
    ensures SelectedValues(p, freqGroups, t1, AR, iouThr, areaRng, freqGroup, subset)[j]
         == SelectedValues(p, freqGroups, t2, AR, iouThr, areaRng, freqGroup, subset)[j]
  {
    var cells := SelectedCells(p, freqGroups, AR, iouThr, areaRng, freqGroup, subset);
    assert CategoryIndices(p, freqGroups, AR, freqGroup, subset) == CategoryIndices(p, freqGroups, AR, None, subset);
    SelectedCellSatisfies(p, freqGroups, AR, iouThr, areaRng, freqGroup, subset, j);
  }

  /** Each selected cell meets the three selection conditions. */
  lemma SelectedCellSatisfies(p: Params, freqGroups: seq<seq<nat>>, kind: SummaryType, iouThr: Option<real>,
                              areaRng: string, freqGroup: Option<nat>, subset: Option<seq<nat>>, j: nat)
    requires SelectionOk(p, freqGroups, kind, areaRng, freqGroup, subset)
    requires j < |SelectedCells(p, freqGroups, kind, iouThr, areaRng, freqGroup, subset)|
    ensures var c := SelectedCells(p, freqGroups, kind, iouThr, areaRng, freqGroup, subset)[j];
      && (iouThr.None? || p.iouThrs[c.iou] == iouThr.value)
      && p.areaRngLbl[c.area] == areaRng
  {
    var cells := SelectedCells(p, freqGroups, kind, iouThr, areaRng, freqGroup, subset);
    var c := cells[j];
    assert c.iou in IouIndices(p, iouThr) && c.area in AreaIndices(p, areaRng);
    if iouThr.Some? {
      var tmask := seq(|p.iouThrs|, i requires 0 <= i < |p.iouThrs| => p.iouThrs[i] == iouThr.value);
      assert IouIndices(p, iouThr) == Where(tmask);
      WhereMember(tmask, c.iou);
      assert tmask[c.iou];
    }
    var amask := seq(|p.areaRngLbl|, a requires 0 <= a < |p.areaRngLbl| => p.areaRngLbl[a] == areaRng);
    WhereMember(amask, c.area);
    assert amask[c.area];
  }

  /** Membership in the category list: without a subset, every contiguous
      index; with a frequency group, exactly subset ∩ group (so with no subset,
      the group itself). */
  lemma {:induction false} CategoryIndicesMember(p: Params, freqGroups: seq<seq<nat>>, kind: SummaryType,
                                                 freqGroup: Option<nat>, subset: Option<seq<nat>>, k: nat)
    requires FreqGroupsInRange(p, freqGroups) && SubsetInRange(p, subset)
    requires kind == AP && freqGroup.Some? ==> freqGroup.value < |freqGroups|
    ensures var inBase := if subset.None? then k < |p.catIds| else k in subset.value;
      k in CategoryIndices(p, freqGroups, kind, freqGroup, subset) <==>
        if kind == AP && freqGroup.Some? then inBase && k in freqGroups[freqGroup.value] else inBase
  {
    var base := if subset.None? then Range(|p.catIds|) else subset.value;
    if subset.None? {
      assert k < |p.catIds| ==> base[k] == k;
    }
    if kind == AP && freqGroup.Some? {
      var g := freqGroups[freqGroup.value];
      WhereMember(seq(|p.catIds|, i requires 0 <= i < |p.catIds| => i in base && i in g), k);
      if k in g {
        var j :| 0 <= j < |g| && g[j] == k;
        assert k < |p.catIds|;
      }
    }
  }

  /** With distinct area labels, every cell that meets the selection
      conditions is read (completeness; `SelectedCells` also only holds such
      cells, see `SelectedCellSatisfies`). */
  lemma PrecisionCellSelected(p: Params, freqGroups: seq<seq<nat>>, iouThr: Option<real>, areaRng: string,
                              freqGroup: Option<nat>, subset: Option<seq<nat>>, c: Cell)
    requires LabelsDistinct(p)
    requires SelectionOk(p, freqGroups, AP, areaRng, freqGroup, subset)
    requires CellInBounds(p, AP, c)
    requires iouThr.None? || p.iouThrs[c.iou] == iouThr.value
    requires c.category in CategoryIndices(p, freqGroups, AP, freqGroup, subset)
    requires p.areaRngLbl[c.area] == areaRng
    ensures c in SelectedCells(p, freqGroups, AP, iouThr, areaRng, freqGroup, subset)
  {
    var ti := IouIndices(p, iouThr);
    var ai := AreaIndices(p, areaRng);
    var ks := CategoryIndices(p, freqGroups, AP, freqGroup, subset);
    var amask := seq(|p.areaRngLbl|, a requires 0 <= a < |p.areaRngLbl| => p.areaRngLbl[a] == areaRng);
    WhereSingleton(amask, c.area);
    assert ai == [c.area];
    if iouThr.Some? {
      var tmask := seq(|p.iouThrs|, i requires 0 <= i < |p.iouThrs| => p.iouThrs[i] == iouThr.value);
      assert ti == Where(tmask);
      WhereMember(tmask, c.iou);
    } else {
      assert ti[c.iou] == c.iou;
    }
    BroadcastSingleArea(ks, ai, c.category, c.area);
    var rs := Range(p.recallPoints);
    assert rs[c.recallPoint] == c.recallPoint;
    PrecisionCellsComplete(ti, rs, Broadcast(ks, ai).value, c);
  }

  lemma PrecisionCellsComplete(ti: seq<nat>, rs: seq<nat>, ka: seq<(nat, nat)>, c: Cell)
    requires c.iou in ti && c.recallPoint in rs && (c.category, c.area) in ka
    ensures c in PrecisionCells(ti, rs, ka)
  {
    PairsComplete(ti, rs, c.iou, c.recallPoint);
    var tr := Pairs(ti, rs);
    PairsComplete(tr, ka, (c.iou, c.recallPoint), (c.category, c.area));
    var ps := Pairs(tr, ka);
    var j :| 0 <= j < |ps| && ps[j] == ((c.iou, c.recallPoint), (c.category, c.area));
    assert PrecisionCells(ti, rs, ka)[j] == c;
  }

  /** The recall summary never applies the frequency group. */
  lemma RecallIgnoresFreqGroup(p: Params, freqGroups: seq<seq<nat>>, t: Tables, iouThr: Option<real>,
                               areaRng: string, g1: Option<nat>, g2: Option<nat>, subset: Option<seq<nat>>)
    requires Shaped(p, t)
    requires SelectionOk(p, freqGroups, AR, areaRng, None, subset)
    ensures SelectionOk(p, freqGroups, AR, areaRng, g1, subset)
    ensures Summarize(p, freqGroups, t, AR, iouThr, areaRng, g1, subset)
         == Summarize(p, freqGroups, t, AR, iouThr, areaRng, g2, subset)
  {
  }

  /** Passing no subset (`None`) gives the same summary as passing
      `range(len(cat_ids))`, the subset of every contiguous index. */
  lemma NoSubsetIsEveryCategory(p: Params, freqGroups: seq<seq<nat>>, t: Tables, kind: SummaryType,
                                iouThr: Option<real>, areaRng: string, freqGroup: Option<nat>)
    requires Shaped(p, t)
    requires SelectionOk(p, freqGroups, kind, areaRng, freqGroup, None)
    ensures SelectionOk(p, freqGroups, kind, areaRng, freqGroup, Some(Range(|p.catIds|)))
    ensures Summarize(p, freqGroups, t, kind, iouThr, areaRng, freqGroup, None)
         == Summarize(p, freqGroups, t, kind, iouThr, areaRng, freqGroup, Some(Range(|p.catIds|)))
  {
  }
}
