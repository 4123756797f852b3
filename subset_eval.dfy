/** `LVISEvalCustom`: the known-class id mapping built by its constructor,
    the known/novel partition of contiguous category indices, and
    `summarize`, which fills one ordered result dictionary per category
    subset. */
module SubsetEval {
  import opened Wrappers
  import opened SeqUtil
  import opened LvisSummary

  datatype EvalError = UnknownCategoryId(id: int) | NotAccumulated

  /** `xs.index(x)`: the first position holding `x`, or nothing (Python
      raises ValueError) when `x` does not occur. */
  function IndexOf(xs: seq<int>, x: int): (r: Option<nat>)
    ensures r.None? <==> x !in xs
    ensures r.Some? ==> r.value < |xs| && xs[r.value] == x && forall j :: 0 <= j < r.value ==> xs[j] != x
  {
    if xs == [] then None
    else if xs[0] == x then Some(0)
    else match IndexOf(xs[1..], x)
      case None => None
      case Some(i) => Some(i + 1)
  }

  /** `[cat_ids.index(c) for c in known_class_ids]`: each known dataset id
      becomes its contiguous index; the first id missing from `catIds` raises. */
  function MapKnownIds(catIds: seq<int>, known: seq<int>): (r: Result<seq<nat>, EvalError>)
    ensures r.Success? <==> forall i :: 0 <= i < |known| ==> known[i] in catIds
    ensures r.Success? ==>
              && |r.value| == |known|
              && forall i :: 0 <= i < |known| ==> r.value[i] < |catIds| && catIds[r.value[i]] == known[i]
    ensures r.Failure? ==>
              exists i :: && 0 <= i < |known| && r.error == UnknownCategoryId(known[i])
                          && known[i] !in catIds && forall j :: 0 <= j < i ==> known[j] in catIds
  {
    if known == [] then Success([])
    else match IndexOf(catIds, known[0])
      case None => Failure(UnknownCategoryId(known[0]))
      case Some(i) =>
        match MapKnownIds(catIds, known[1..])
        case Failure(e) =>
          ghost var w :| 0 <= w < |known[1..]| && e == UnknownCategoryId(known[1..][w]) &&
            known[1..][w] !in catIds && forall j :: 0 <= j < w ==> known[1..][j] in catIds;
          assert known[w + 1] == known[1..][w];
          assert forall j :: 1 <= j < w + 1 ==> known[j] == known[1..][j - 1];
          Failure(e)
        case Success(rest) =>
          var m := [i] + rest;
          assert m[0] == i;
          assert forall j :: 1 <= j < |known| ==> known[j] == known[1..][j - 1] && m[j] == rest[j - 1];
          Success(m)
  }

  /** Like `list.index`, each known id maps to the position of its first
      occurrence in `catIds`, so a repeated dataset id maps to its earliest
      position. */
  lemma {:induction false} MapKnownIdsFirstOccurrence(catIds: seq<int>, known: seq<int>)
    requires MapKnownIds(catIds, known).Success?
    ensures var m := MapKnownIds(catIds, known).value;
            forall i, j :: 0 <= i < |known| && 0 <= j < m[i] ==> catIds[j] != known[i]
  {
    if known != [] {
      var first := IndexOf(catIds, known[0]).value;
      var rest := MapKnownIds(catIds, known[1..]).value;
      MapKnownIdsFirstOccurrence(catIds, known[1..]);
      var m := MapKnownIds(catIds, known).value;
      assert m == [first] + rest;
      forall i, j | 0 <= i < |known| && 0 <= j < m[i] ensures catIds[j] != known[i] {
        if i > 0 {
          assert m[i] == rest[i - 1] && known[i] == known[1..][i - 1];
        }
      }
    }
  }

  /** The mapped known ids index back to the dataset ids they came from. */
  lemma {:induction false} MapKnownIdsRoundTrip(catIds: seq<int>, known: seq<int>)
    requires MapKnownIds(catIds, known).Success?
    ensures Gather(catIds, MapKnownIds(catIds, known).value) == known
  {
  }

  /** `list(set(range(n)).difference(known))` in increasing order. */
  function NovelIds(numCats: nat, known: seq<nat>): (r: seq<nat>)
    ensures AllBelow(r, numCats) && StrictlyIncreasing(r)
  {
    Where(seq(numCats, k requires 0 <= k < numCats => k !in known))
  }

  /** Known and novel indices partition the contiguous index range: every
      index is in exactly one of them and nothing else is. */
  lemma KnownNovelPartition(numCats: nat, known: seq<nat>, k: nat)
    requires AllBelow(known, numCats)
    ensures k in NovelIds(numCats, known) <==> k < numCats && k !in known
    ensures k < numCats <==> (k in known || k in NovelIds(numCats, known))
    ensures !(k in known && k in NovelIds(numCats, known))
  {
    WhereMember(seq(numCats, i requires 0 <= i < numCats => i !in known), k);
  }

  // ---------------------------------------------------------------------
  // Ordered result dictionaries (`collections.OrderedDict`)

  type OrderedDict = seq<(string, real)>

  function Keys(d: OrderedDict): (r: seq<string>)
    ensures |r| == |d| && forall i :: 0 <= i < |d| ==> r[i] == d[i].0
  {
    seq(|d|, i requires 0 <= i < |d| => d[i].0)
  }

  /** Position of key `k` in `d`, if present. */
  function FindKey(d: OrderedDict, k: string): (r: Option<nat>)
    ensures r.None? <==> k !in Keys(d)
    ensures r.Some? ==> r.value < |d| && d[r.value].0 == k && forall j :: 0 <= j < r.value ==> d[j].0 != k
  {
    if d == [] then None
    else if d[0].0 == k then Some(0)
    else
      assert forall i :: 0 <= i < |d| - 1 ==> Keys(d[1..])[i] == Keys(d)[i + 1];
      match FindKey(d[1..], k)
      case None => None
      case Some(i) => Some(i + 1)
  }

  /** `d.get(k)`. */
  function Lookup(d: OrderedDict, k: string): (r: Option<real>)
    ensures r.None? <==> k !in Keys(d)
  {
    match FindKey(d, k)
    case None => None
    case Some(i) => Some(d[i].1)
  }

  /** `d[k] = v`: an existing key keeps its position and takes the new
      value, a new key goes at the end. */
  function Put(d: OrderedDict, k: string, v: real): (r: OrderedDict)
    ensures k !in Keys(d) ==> r == d + [(k, v)]
    ensures k in Keys(d) ==> |r| == |d| && Keys(r) == Keys(d)
  {
    match FindKey(d, k)
    case None => d + [(k, v)]
    case Some(i) => d[i := (k, v)]
  }

  /** After `d[k] = v`, `k` maps to `v` and every other key is as before. */
  lemma PutLookup(d: OrderedDict, k: string, v: real, k': string)
    ensures Lookup(Put(d, k, v), k') == if k' == k then Some(v) else Lookup(d, k')
  {
    var r := Put(d, k, v);
    match FindKey(d, k)
    case None =>
      if k' != k {
        assert k' in Keys(r) <==> k' in Keys(d) by { KeysAppendOne(d, (k, v), k'); }
        if k' in Keys(d) {
          FindKeyAt(r, k', FindKey(d, k').value);
        }
      } else {
        FindKeyAt(r, k, |d|);
      }
    case Some(i) =>
      FindKeyAt(r, k, i);
      if k' != k && k' in Keys(d) {
        var j := FindKey(d, k').value;
        FindKeyAt(r, k', j);
      }
  }

  lemma FindKeyAt(d: OrderedDict, k: string, i: nat)
    requires i < |d| && d[i].0 == k && forall j :: 0 <= j < i ==> d[j].0 != k
    ensures FindKey(d, k) == Some(i)
  {
    assert Keys(d)[i] == k;
  }

  lemma KeysAppendOne(d: OrderedDict, e: (string, real), x: string)
    ensures x in Keys(d + [e]) <==> x in Keys(d) || x == e.0
  {
    var ks := Keys(d + [e]);
    assert ks == Keys(d) + [e.0];
  }

  /** Successive `d[k] = v` for each entry, in order. */
  function PutAll(d: OrderedDict, entries: seq<(string, real)>): OrderedDict
    decreases |entries|
  {
    if entries == [] then d else PutAll(Put(d, entries[0].0, entries[0].1), entries[1..])
  }

  /** Dropping the first of entries with distinct keys leaves distinct
      keys, none of them the first key. */
  lemma DistinctKeysTail(entries: seq<(string, real)>)
    requires |entries| > 0 && Distinct(Keys(entries))
    ensures Distinct(Keys(entries[1..]))
    ensures entries[0].0 !in Keys(entries[1..])
  {
    var rest := entries[1..];
    forall a, b | 0 <= a < b < |rest| ensures Keys(rest)[a] != Keys(rest)[b] {
      assert Keys(entries)[a + 1] != Keys(entries)[b + 1];
    }
    forall j | 0 <= j < |rest| ensures Keys(rest)[j] != entries[0].0 {
      assert Keys(entries)[0] != Keys(entries)[j + 1];
    }
  }

  /** Putting entries whose keys are distinct and new: the first one is
      appended, and the rest are again distinct and new. */
  lemma NewKeysStep(d: OrderedDict, entries: seq<(string, real)>)
    requires |entries| > 0 && Distinct(Keys(entries))
    requires forall i :: 0 <= i < |entries| ==> entries[i].0 !in Keys(d)
    ensures PutAll(d, entries) == PutAll(d + [entries[0]], entries[1..])
    ensures Distinct(Keys(entries[1..]))
    ensures forall i :: 0 <= i < |entries| - 1 ==> entries[1..][i].0 !in Keys(d + [entries[0]])
  {
    assert Put(d, entries[0].0, entries[0].1) == d + [entries[0]];
    DistinctKeysTail(entries);
    forall i | 0 <= i < |entries| - 1 ensures entries[1..][i].0 !in Keys(d + [entries[0]]) {
      assert Keys(entries)[0] != Keys(entries)[i + 1];
      KeysAppendOne(d, entries[0], entries[i + 1].0);
    }
  }

  /** Entries with distinct keys, none already present, are appended as they are. */
  lemma {:induction false} PutAllNewKeys(d: OrderedDict, entries: seq<(string, real)>)
    requires Distinct(Keys(entries))
    requires forall i :: 0 <= i < |entries| ==> entries[i].0 !in Keys(d)
    ensures PutAll(d, entries) == d + entries
    decreases |entries|
  {
    if entries != [] {
      NewKeysStep(d, entries);
      PutAllNewKeys(d + [entries[0]], entries[1..]);
      AppendFirst(d, entries);
    }
  }

  lemma AppendFirst<T>(d: seq<T>, entries: seq<T>)
    requires |entries| > 0
    ensures (d + [entries[0]]) + entries[1..] == d + entries
  {
    assert entries == [entries[0]] + entries[1..];
  }

  /** After a sequence of puts with distinct keys every key put holds the
      value of its entry, and every other key is as before. */
  lemma {:induction false} PutAllLookup(d: OrderedDict, entries: seq<(string, real)>, k: string)
    requires Distinct(Keys(entries))
    ensures k !in Keys(entries) ==> Lookup(PutAll(d, entries), k) == Lookup(d, k)
    ensures forall i :: 0 <= i < |entries| && entries[i].0 == k ==>
              Lookup(PutAll(d, entries), k) == Some(entries[i].1)
    decreases |entries|
  {
    if entries != [] {
      var e := entries[0];
      var rest := entries[1..];
      var d' := Put(d, e.0, e.1);
      assert PutAll(d, entries) == PutAll(d', rest);
      DistinctKeysTail(entries);
      PutLookup(d, e.0, e.1, k);
      PutAllLookup(d', rest, k);
      if k !in Keys(entries) {
        assert Keys(entries)[0] == e.0;
        assert k !in Keys(rest) by {
          forall j | 0 <= j < |rest| ensures Keys(rest)[j] != k {
            assert Keys(entries)[j + 1] == Keys(rest)[j];
          }
        }
      }
      forall i | 0 <= i < |entries| && entries[i].0 == k
        ensures Lookup(PutAll(d, entries), k) == Some(entries[i].1)
      {
        if i > 0 {
          assert rest[i - 1] == entries[i];
        }
      }
    }
  }

  // ---------------------------------------------------------------------
  // The metrics `summarize` writes into each container

  function DigitChar(d: nat): char
    requires d < 10
  {
    "0123456789"[d]
  }

  /** `str(n)` for a natural number. */
  function NatToString(n: nat): (s: string)
    ensures |s| >= 1
    decreases n
  {
    if n < 10 then [DigitChar(n)] else NatToString(n / 10) + [DigitChar(n % 10)]
  }

  datatype MetricSpec = MetricSpec(key: string, kind: SummaryType, iouThr: Option<real>,
                                   areaRng: string, freqGroup: Option<nat>)

  /** The thirteen `_summarize` calls of `summarize`, in order. */
  function MetricSpecs(maxDets: nat): (r: seq<MetricSpec>)
    ensures |r| == 13
  {
    var md := NatToString(maxDets);
    [ MetricSpec("AP", AP, None, "all", None),
      MetricSpec("AP50", AP, Some(0.5), "all", None),
      MetricSpec("AP75", AP, Some(0.75), "all", None),
      MetricSpec("APs", AP, None, "small", None),
      MetricSpec("APm", AP, None, "medium", None),
      MetricSpec("APl", AP, None, "large", None),
      MetricSpec("APr", AP, None, "all", Some(0)),
      MetricSpec("APc", AP, None, "all", Some(1)),
      MetricSpec("APf", AP, None, "all", Some(2)),
      MetricSpec("AR@" + md, AR, None, "all", None),
      MetricSpec("ARs@" + md, AR, None, "small", None),
      MetricSpec("ARm@" + md, AR, None, "medium", None),
      MetricSpec("ARl@" + md, AR, None, "large", None) ]
  }

  function MetricKeys(maxDets: nat): (r: seq<string>)
    ensures |r| == 13
  {
    seq(13, i requires 0 <= i < 13 => MetricSpecs(maxDets)[i].key)
  }

  /** The thirteen keys are pairwise distinct, for every detection cap. */
  lemma MetricKeysDistinct(maxDets: nat)
    ensures Distinct(MetricKeys(maxDets))
  {
    var md := NatToString(maxDets);
    var ks := MetricKeys(maxDets);
    assert ks == APKeys + ARKeys(md);
    APKeysDistinct();
    ARKeysDistinct(md);
    forall i, j | 0 <= i < j < 13 ensures ks[i] != ks[j] {
      if j >= 9 {
        assert ks[j] == ARKeys(md)[j - 9];
        if i >= 9 {
          assert ks[i] == ARKeys(md)[i - 9];
        } else {
          assert ks[i] == APKeys[i] && ks[i][1] == 'P' && ks[j][1] == 'R';
        }
      }
    }
  }

  /** The nine precision keys. */
  const APKeys: seq<string> := ["AP", "AP50", "AP75", "APs", "APm", "APl", "APr", "APc", "APf"]

  /** The four recall keys for the detection cap written `md`. */
  function ARKeys(md: string): (r: seq<string>)
    ensures |r| == 4 && forall i :: 0 <= i < 4 ==> |r[i]| >= 3 && r[i][..2] == "AR"
  {
    ["AR@" + md, "ARs@" + md, "ARm@" + md, "ARl@" + md]
  }

  lemma APKeysDistinct()
    ensures Distinct(APKeys)
    ensures forall i :: 0 <= i < |APKeys| ==> |APKeys[i]| >= 2 && APKeys[i][1] == 'P'
  {
  }

  lemma ARKeysDistinct(md: string)
    ensures Distinct(ARKeys(md))
  {
    var ks := ARKeys(md);
    assert ks[0][2] == '@' && ks[1][2] == 's' && ks[2][2] == 'm' && ks[3][2] == 'l';
  }

  /** The LVIS parameters `summarize` relies on: distinct area labels that
      include the four it asks for, and three frequency groups. */
  ghost predicate ParamsValid(p: Params, freqGroups: seq<seq<nat>>) {
    && LabelsDistinct(p)
    && "all" in p.areaRngLbl && "small" in p.areaRngLbl
    && "medium" in p.areaRngLbl && "large" in p.areaRngLbl
    && |freqGroups| == 3
    && FreqGroupsInRange(p, freqGroups)
  }

  lemma AreaIndicesSingle(p: Params, areaRng: string)
    requires LabelsDistinct(p) && areaRng in p.areaRngLbl
    ensures |AreaIndices(p, areaRng)| == 1
  {
    var a :| 0 <= a < |p.areaRngLbl| && p.areaRngLbl[a] == areaRng;
    WhereSingleton(seq(|p.areaRngLbl|, i requires 0 <= i < |p.areaRngLbl| => p.areaRngLbl[i] == areaRng), a);
  }

  lemma SpecsSelectable(p: Params, freqGroups: seq<seq<nat>>, subset: Option<seq<nat>>)
    requires ParamsValid(p, freqGroups) && SubsetInRange(p, subset)
    ensures forall i :: 0 <= i < 13 ==>
      var s := MetricSpecs(p.maxDets)[i];
      SelectionOk(p, freqGroups, s.kind, s.areaRng, s.freqGroup, subset)
  {
    forall i | 0 <= i < 13
      ensures var s := MetricSpecs(p.maxDets)[i];
        SelectionOk(p, freqGroups, s.kind, s.areaRng, s.freqGroup, subset)
    {
      var s := MetricSpecs(p.maxDets)[i];
      assert s.areaRng in p.areaRngLbl;
      AreaIndicesSingle(p, s.areaRng);
      var ks := CategoryIndices(p, freqGroups, s.kind, s.freqGroup, subset);
      BroadcastSingleArea(ks, AreaIndices(p, s.areaRng), 0, 0);
    }
  }

  /** The entries one container receives: each metric key with its summary
      over the given subset. */
  function GroupMetrics(p: Params, freqGroups: seq<seq<nat>>, t: Tables, subset: Option<seq<nat>>): (r: OrderedDict)
    requires ParamsValid(p, freqGroups) && SubsetInRange(p, subset) && Shaped(p, t)
    ensures Keys(r) == MetricKeys(p.maxDets)
  {
    SpecsSelectable(p, freqGroups, subset);
    var specs := MetricSpecs(p.maxDets);
    seq(13, i requires 0 <= i < 13 =>
      (specs[i].key, Summarize(p, freqGroups, t, specs[i].kind, specs[i].iouThr, specs[i].areaRng, specs[i].freqGroup, subset)))
  }

  /** Filling a container, fresh or already filled, leaves each metric's key
      holding the summary that metric asks for. */
  lemma ContainerHoldsSummaries(p: Params, freqGroups: seq<seq<nat>>, t: Tables, subset: Option<seq<nat>>,
                                d: OrderedDict, i: nat)
    requires ParamsValid(p, freqGroups) && SubsetInRange(p, subset) && Shaped(p, t)
    requires i < 13
    ensures var s := MetricSpecs(p.maxDets)[i];
      SelectionOk(p, freqGroups, s.kind, s.areaRng, s.freqGroup, subset) &&
      Lookup(PutAll(d, GroupMetrics(p, freqGroups, t, subset)), s.key) ==
        Some(Summarize(p, freqGroups, t, s.kind, s.iouThr, s.areaRng, s.freqGroup, subset))
  {
    var g := GroupMetrics(p, freqGroups, t, subset);
    SpecsSelectable(p, freqGroups, subset);
    MetricKeysDistinct(p.maxDets);
    assert Keys(g) == MetricKeys(p.maxDets);
    PutAllLookup(d, g, g[i].0);
  }

  /** `d[k] = v` for each entry keeps the key order of `d` when every key
      is already present. */
  lemma {:induction false} PutAllKeepsKeys(d: OrderedDict, entries: seq<(string, real)>)
    requires forall i :: 0 <= i < |entries| ==> entries[i].0 in Keys(d)
    ensures Keys(PutAll(d, entries)) == Keys(d)
    decreases |entries|
  {
    if entries != [] {
      var d' := Put(d, entries[0].0, entries[0].1);
      assert Keys(d') == Keys(d);
      PutAllKeepsKeys(d', entries[1..]);
    }
  }

  /** Writing entries with distinct keys into a container that holds
      exactly those keys, in the same order, leaves just the new entries. */
  lemma PutAllOverwrites(d: OrderedDict, entries: seq<(string, real)>)
    requires Distinct(Keys(entries)) && Keys(d) == Keys(entries)
    ensures PutAll(d, entries) == entries
  {
    var r := PutAll(d, entries);
    forall i | 0 <= i < |entries| ensures entries[i].0 in Keys(d) {
      assert Keys(d)[i] == entries[i].0;
    }
    PutAllKeepsKeys(d, entries);
    forall i | 0 <= i < |entries| ensures r[i] == entries[i] {
      PutAllLookup(d, entries, entries[i].0);
      assert Keys(r)[i] == entries[i].0;
      FindKeyAt(r, entries[i].0, i);
    }
  }

  /** A container that `summarize` writes is empty or already holds exactly
      the thirteen metric keys. */
  ghost predicate ContainerKeysOk(d: OrderedDict, maxDets: nat) {
    d == [] || Keys(d) == MetricKeys(maxDets)
  }

  /** Writing the thirteen metrics into such a container leaves exactly the
      new entries, each metric's key holding its summary: `summarize`'s
      dictionary writes amount to replacing the container. */
  lemma FillContainer(p: Params, freqGroups: seq<seq<nat>>, t: Tables, subset: Option<seq<nat>>, d: OrderedDict)
    requires ParamsValid(p, freqGroups) && SubsetInRange(p, subset) && Shaped(p, t)
    requires ContainerKeysOk(d, p.maxDets)
    ensures PutAll(d, GroupMetrics(p, freqGroups, t, subset)) == GroupMetrics(p, freqGroups, t, subset)
    ensures ContainerKeysOk(GroupMetrics(p, freqGroups, t, subset), p.maxDets)
  {
    var g := GroupMetrics(p, freqGroups, t, subset);
    MetricKeysDistinct(p.maxDets);
    assert Keys(g) == MetricKeys(p.maxDets);
    if d == [] {
      PutAllNewKeys([], g);
      assert [] + g == g;
    } else {
      PutAllOverwrites(d, g);
    }
  }

  /** `LVISEvalCustom`. The base `LVISEval` fields it reads are the
      parameters, the frequency groups and the accumulated tables. */
  class LvisEvalCustom {
    const params: Params
    const freqGroups: seq<seq<nat>>
    /** Contiguous indices of the known classes, when a known list was given. */
    const knownClassIds: Option<seq<nat>>
    /** `self.eval`: empty until `accumulate()` has run. */
    var eval: Option<Tables>
    var results: OrderedDict
    /** `results_known` / `results_novel`: attributes that exist only once
        `summarize` has run with known classes. */
    var resultsKnown: Option<OrderedDict>
    var resultsNovel: Option<OrderedDict>

    ghost predicate Valid()
      reads this`eval
    {
      && ParamsValid(params, freqGroups)
      && (knownClassIds.Some? ==> AllBelow(knownClassIds.value, |params.catIds|))
      && (eval.Some? ==> Shaped(params, eval.value))
    }

    constructor (params: Params, freqGroups: seq<seq<nat>>, knownClassIds: Option<seq<nat>>)
      requires ParamsValid(params, freqGroups)
      requires knownClassIds.Some? ==> AllBelow(knownClassIds.value, |params.catIds|)
      ensures Valid()
      ensures this.params == params && this.freqGroups == freqGroups && this.knownClassIds == knownClassIds
      ensures eval.None? && results == [] && resultsKnown.None? && resultsNovel.None?
    {
      this.params := params;
      this.freqGroups := freqGroups;
      this.knownClassIds := knownClassIds;
      eval := None;
      results := [];
      resultsKnown := None;
      resultsNovel := None;
    }

    /** `LVISEvalCustom.__init__`: known dataset ids are mapped to their
        positions in `cat_ids`; an id not in `cat_ids` raises. */
    static method Create(params: Params, freqGroups: seq<seq<nat>>, knownDatasetIds: Option<seq<int>>)
      returns (r: Result<LvisEvalCustom, EvalError>)
      requires ParamsValid(params, freqGroups)
      ensures knownDatasetIds.None? ==> r.Success? && r.value.knownClassIds.None?
      ensures knownDatasetIds.Some? ==>
        (r.Success? <==> MapKnownIds(params.catIds, knownDatasetIds.value).Success?)
      ensures knownDatasetIds.Some? && r.Failure? ==>
        r.error == MapKnownIds(params.catIds, knownDatasetIds.value).error
      ensures knownDatasetIds.Some? && r.Success? ==>
        r.value.knownClassIds == Some(MapKnownIds(params.catIds, knownDatasetIds.value).value)
      ensures r.Success? ==>
        && fresh(r.value) && r.value.Valid()
        && r.value.params == params && r.value.freqGroups == freqGroups
        && r.value.eval.None? && r.value.results == [] && r.value.resultsKnown.None? && r.value.resultsNovel.None?
    {
      if knownDatasetIds.None? {
        var e := new LvisEvalCustom(params, freqGroups, None);
        return Success(e);
      }
      var m := MapKnownIds(params.catIds, knownDatasetIds.value);
      if m.Failure? {
        return Failure(m.error);
      }
      var e := new LvisEvalCustom(params, freqGroups, Some(m.value));
      return Success(e);
    }

    /** Stands for the base class's `accumulate()`: the tables it produces
        are an input of this model. */
    method Accumulate(tables: Tables)
      requires Valid() && Shaped(params, tables)
      modifies this
      ensures Valid() && eval == Some(tables)
      ensures results == old(results) && resultsKnown == old(resultsKnown) && resultsNovel == old(resultsNovel)
    {
      eval := Some(tables);
    }

    /** `LVISEvalCustom.summarize`. Without accumulated tables it raises and
        changes nothing. Otherwise `results` is filled with the all-category
        metrics and, when known classes were given, fresh `resultsKnown` and
        `resultsNovel` containers with the known- and novel-subset metrics.
        (`FillContainer` shows that filling a container amounts to replacing
        it with the new entries.) */
    method Summarize() returns (err: Option<EvalError>)
      requires Valid() && ContainerKeysOk(results, params.maxDets)
      modifies this`results, this`resultsKnown, this`resultsNovel
      ensures ContainerKeysOk(results, params.maxDets)
      ensures eval.None? ==>
        err == Some(NotAccumulated) && results == old(results) &&
        resultsKnown == old(resultsKnown) && resultsNovel == old(resultsNovel)
      ensures eval.Some? ==> err.None? && results == GroupMetrics(params, freqGroups, eval.value, None)
      ensures eval.Some? && knownClassIds.None? ==>
        resultsKnown == old(resultsKnown) && resultsNovel == old(resultsNovel)
      ensures eval.Some? && knownClassIds.Some? ==>
        resultsKnown == Some(GroupMetrics(params, freqGroups, eval.value, knownClassIds))
      ensures eval.Some? && knownClassIds.Some? ==>
        resultsNovel == Some(GroupMetrics(params, freqGroups, eval.value,
                                          Some(NovelIds(|params.catIds|, knownClassIds.value))))
    {
      if eval.None? {
        return Some(NotAccumulated);
      }
      var t := eval.value;
      results := GroupMetrics(params, freqGroups, t, None);
      if knownClassIds.Some? {
        SummarizeSubsets(t);
      }
      return None;
    }

    /** The known- and novel-subset containers `summarize` fills when known
        classes were given. */
    method SummarizeSubsets(t: Tables)
      requires Valid() && knownClassIds.Some? && Shaped(params, t)
      modifies this`resultsKnown, this`resultsNovel
      ensures resultsKnown == Some(GroupMetrics(params, freqGroups, t, knownClassIds))
      ensures resultsNovel == Some(GroupMetrics(params, freqGroups, t, Some(NovelIds(|params.catIds|, knownClassIds.value))))
    {
      var novel := NovelIds(|params.catIds|, knownClassIds.value);
      resultsKnown := Some(GroupMetrics(params, freqGroups, t, knownClassIds));
      resultsNovel := Some(GroupMetrics(params, freqGroups, t, Some(novel)));
    }
  }
}
