/** Score handling of `NOD.infer`: `MinMaxScaler` normalisation, the
    element-wise fusion with the SAM scores, `torch.topk`, and the
    confidence-threshold mask used for visualisation. */
module Scores {
  import opened SeqUtil

  function Min(xs: seq<real>): (m: real)
    requires |xs| > 0
    ensures m in xs && forall i :: 0 <= i < |xs| ==> m <= xs[i]
  {
    if |xs| == 1 then xs[0]
    else
      var m' := Min(xs[..|xs| - 1]);
      assert forall i :: 0 <= i < |xs| - 1 ==> xs[..|xs| - 1][i] == xs[i];
      if xs[|xs| - 1] < m' then xs[|xs| - 1] else m'
  }

  function Max(xs: seq<real>): (m: real)
    requires |xs| > 0
    ensures m in xs && forall i :: 0 <= i < |xs| ==> xs[i] <= m
  {
    if |xs| == 1 then xs[0]
    else
      var m' := Max(xs[..|xs| - 1]);
      assert forall i :: 0 <= i < |xs| - 1 ==> xs[..|xs| - 1][i] == xs[i];
      if xs[|xs| - 1] > m' then xs[|xs| - 1] else m'
  }

  /** `MinMaxScaler().fit_transform` on one column, with the default range
      (0, 1). A constant column maps to all zeros. */
  function MinMaxNormalize(xs: seq<real>): (r: seq<real>)
    requires |xs| > 0
    ensures |r| == |xs|
    ensures forall i :: 0 <= i < |xs| ==> 0.0 <= r[i] <= 1.0
  {
    var lo := Min(xs);
    var hi := Max(xs);
    seq(|xs|, i requires 0 <= i < |xs| => Rescale(xs[i], lo, hi))
  }

  function Rescale(x: real, lo: real, hi: real): (r: real)
    requires lo <= x <= hi
    ensures 0.0 <= r <= 1.0
  {
    if hi > lo then UnitFraction(x - lo, hi - lo); (x - lo) / (hi - lo) else 0.0
  }

  lemma UnitFraction(a: real, b: real)
    requires 0.0 <= a <= b && b > 0.0
    ensures 0.0 <= a / b <= 1.0
  {
  }

  /** The minimum maps to 0 and, on a non-constant column, the maximum to 1;
      every output is its input rescaled between the column's extremes. */
  lemma MinMaxEndpoints(xs: seq<real>, i: nat)
    requires |xs| > 0 && i < |xs|
    ensures xs[i] == Min(xs) ==> MinMaxNormalize(xs)[i] == 0.0
    ensures xs[i] == Max(xs) && Max(xs) > Min(xs) ==> MinMaxNormalize(xs)[i] == 1.0
    ensures MinMaxNormalize(xs)[i] == Rescale(xs[i], Min(xs), Max(xs))
  {
    var lo, hi, x := Min(xs), Max(xs), xs[i];
    RescaleFacts(x, lo, hi);
    assert MinMaxNormalize(xs)[i] == Rescale(x, lo, hi);
  }

  /** Rescaling is affine: it maps `lo` to 0, `hi` to 1, and `x` to the
      fraction of the way from `lo` to `hi`. */
  lemma RescaleFacts(x: real, lo: real, hi: real)
    requires lo <= x <= hi
    ensures x == lo ==> Rescale(x, lo, hi) == 0.0
    ensures x == hi && hi > lo ==> Rescale(x, lo, hi) == 1.0
    ensures hi > lo ==> Rescale(x, lo, hi) * (hi - lo) == x - lo
  {
    if hi > lo {
      DivMul(x - lo, hi - lo);
    }
  }

  lemma DivMul(a: real, b: real)
    requires b != 0.0
    ensures (a / b) * b == a
  {
  }

  /** A constant column maps to all zeros. */
  lemma MinMaxConstant(xs: seq<real>)
    requires |xs| > 0 && forall i, j :: 0 <= i < |xs| && 0 <= j < |xs| ==> xs[i] == xs[j]
    ensures forall i :: 0 <= i < |xs| ==> MinMaxNormalize(xs)[i] == 0.0
  {
    var m := Min(xs);
    var k :| 0 <= k < |xs| && xs[k] == Max(xs);
    assert Max(xs) == m by { var j :| 0 <= j < |xs| && xs[j] == m; }
  }

  /** Normalisation preserves the order of scores. */
  lemma MinMaxMonotone(xs: seq<real>, i: nat, j: nat)
    requires |xs| > 0 && i < |xs| && j < |xs| && xs[i] <= xs[j]
    ensures MinMaxNormalize(xs)[i] <= MinMaxNormalize(xs)[j]
  {
    var lo, hi := Min(xs), Max(xs);
    if hi > lo {
      DivMonotone(xs[i] - lo, xs[j] - lo, hi - lo);
    }
  }

  lemma DivMonotone(a: real, b: real, c: real)
    requires a <= b && c > 0.0
    ensures a / c <= b / c
  {
  }

  predicate InUnit(xs: seq<real>) {
    forall i :: 0 <= i < |xs| ==> 0.0 <= xs[i] <= 1.0
  }

  /** `scores * sam_scores`: the element-wise product. */
  function Fuse(a: seq<real>, b: seq<real>): (r: seq<real>)
    requires |a| == |b|
    ensures |r| == |a|
  {
    seq(|a|, i requires 0 <= i < |a| => a[i] * b[i])
  }

  /** The product of two normalised score lists stays in [0, 1], and no
      fused score exceeds either factor. */
  lemma FuseInUnit(a: seq<real>, b: seq<real>)
    requires |a| == |b| && InUnit(a) && InUnit(b)
    ensures InUnit(Fuse(a, b))
    ensures forall i :: 0 <= i < |a| ==> Fuse(a, b)[i] <= a[i] && Fuse(a, b)[i] <= b[i]
  {
    forall i | 0 <= i < |a|
      ensures 0.0 <= Fuse(a, b)[i] <= 1.0 && Fuse(a, b)[i] <= a[i] && Fuse(a, b)[i] <= b[i]
    {
      var x, y := a[i], b[i];
      UnitProduct(x, y);
      assert Fuse(a, b)[i] == x * y;
    }
  }

  lemma UnitProduct(x: real, y: real)
    requires 0.0 <= x <= 1.0 && 0.0 <= y <= 1.0
    ensures 0.0 <= x * y && x * y <= x && x * y <= y
  {
    MulLeq(x, 1.0, y);
    MulLeq(y, 1.0, x);
  }

  lemma MulLeq(a: real, b: real, c: real)
    requires a <= b && c >= 0.0
    ensures a * c <= b * c && c * a <= c * b
  {
  }

  // ---------------------------------------------------------------------
  // torch.topk

  /** Position of a largest score among the candidate positions. */
  function ArgMaxIn(xs: seq<real>, cand: seq<nat>): (m: nat)
    requires |cand| > 0 && AllBelow(cand, |xs|)
    ensures m in cand && forall c :: c in cand ==> xs[c] <= xs[m]
  {
    if |cand| == 1 then cand[0]
    else
      var m' := ArgMaxIn(xs, cand[1..]);
      if xs[cand[0]] >= xs[m'] then cand[0] else m'
  }

  /** The candidates other than `x`, in order. */
  function Remove(s: seq<nat>, x: nat): (r: seq<nat>)
    ensures forall y :: y in r <==> y in s && y != x
    ensures x !in s ==> r == s
    ensures Distinct(s) ==> Distinct(r) && (x in s ==> |r| == |s| - 1)
  {
    if s == [] then []
    else
      var rest := Remove(s[1..], x);
      assert Distinct(s) ==> Distinct(s[1..]) && s[0] !in s[1..] by {
        if Distinct(s) {
          forall i, j | 0 <= i < j < |s| - 1 ensures s[1..][i] != s[1..][j] { assert s[i + 1] != s[j + 1]; }
          forall k | 0 <= k < |s| - 1 ensures s[1..][k] != s[0] { assert s[0] != s[k + 1]; }
        }
      }
      if s[0] == x then rest else [s[0]] + rest
  }

  /** `k` candidate positions in selection order: each is a largest score
      among the candidates not selected before it. */
  function TopKFrom(xs: seq<real>, cand: seq<nat>, k: nat): (r: seq<nat>)
    requires k <= |cand| && Distinct(cand) && AllBelow(cand, |xs|)
    ensures |r| == k && Distinct(r)
    ensures forall i :: 0 <= i < k ==> r[i] in cand
    ensures forall i, c :: 0 <= i < k && c in cand && c !in r[..i] ==> xs[c] <= xs[r[i]]
    decreases k
  {
    if k == 0 then []
    else
      var m := ArgMaxIn(xs, cand);
      var cand' := Remove(cand, m);
      assert AllBelow(cand', |xs|) by {
        forall i | 0 <= i < |cand'| ensures cand'[i] < |xs| { assert cand'[i] in cand; }
      }
      var rest := TopKFrom(xs, cand', k - 1);
      TopKCons(xs, cand, cand', m, rest);
      [m] + rest
  }

  /** Putting a largest candidate in front of a selection from the others
      keeps the three properties `TopKFrom` promises. */
  lemma TopKCons(xs: seq<real>, cand: seq<nat>, cand': seq<nat>, m: nat, rest: seq<nat>)
    requires AllBelow(cand, |xs|) && m in cand && forall c :: c in cand ==> xs[c] <= xs[m]
    requires forall y :: y in cand' <==> y in cand && y != m
    requires Distinct(rest) && forall i :: 0 <= i < |rest| ==> rest[i] in cand'
    requires forall i, c :: 0 <= i < |rest| && c in cand' && c !in rest[..i] ==> xs[c] <= xs[rest[i]]
    ensures Distinct([m] + rest)
    ensures forall i :: 0 <= i < |rest| + 1 ==> ([m] + rest)[i] in cand
    ensures forall i, c :: 0 <= i < |rest| + 1 && c in cand && c !in ([m] + rest)[..i] ==> xs[c] <= xs[([m] + rest)[i]]
  {
    var r := [m] + rest;
    assert forall i :: 1 <= i <= |rest| + 1 ==> r[..i] == [m] + rest[..i - 1];
    forall i, j | 0 <= i < j < |r| ensures r[i] != r[j] {
      if i == 0 { assert rest[j - 1] in cand'; } else { assert rest[i - 1] != rest[j - 1]; }
    }
  }

  /** `torch.topk(xs, k)`: the positions of the k largest scores, largest first. */
  function TopK(xs: seq<real>, k: nat): (r: seq<nat>)
    requires k <= |xs|
    ensures |r| == k && Distinct(r) && AllBelow(r, |xs|)
  {
    StrictlyIncreasingIsDistinct(Range(|xs|));
    TopKFrom(xs, Range(|xs|), k)
  }

  /** The selected scores are in non-increasing order, and no unselected
      score is larger than any selected one. Order among equal scores is
      left open. */
  lemma TopKSpec(xs: seq<real>, k: nat)
    requires k <= |xs|
    ensures forall i, j :: 0 <= i < j < k ==> xs[TopK(xs, k)[i]] >= xs[TopK(xs, k)[j]]
    ensures forall c, i :: 0 <= c < |xs| && c !in TopK(xs, k) && 0 <= i < k ==> xs[c] <= xs[TopK(xs, k)[i]]
  {
    var r := TopK(xs, k);
    var cand := Range(|xs|);
    StrictlyIncreasingIsDistinct(cand);
    assert r == TopKFrom(xs, cand, k);
    forall i, j | 0 <= i < j < k ensures xs[r[i]] >= xs[r[j]] {
      assert r[j] in cand;
      assert r[j] !in r[..i] by {
        forall l | 0 <= l < i ensures r[..i][l] != r[j] { assert r[l] != r[j]; }
      }
    }
    forall c, i | 0 <= c < |xs| && c !in r && 0 <= i < k ensures xs[c] <= xs[r[i]] {
      assert cand[c] == c;
      assert c !in r[..i];
    }
  }

  /** `topk_values`: the selected scores themselves, largest first, none
      smaller than a score left out. */
  lemma TopKValues(xs: seq<real>, k: nat)
    requires k <= |xs|
    ensures var v := Gather(xs, TopK(xs, k));
      && (forall i, j :: 0 <= i < j < k ==> v[i] >= v[j])
      && (forall c, i :: 0 <= c < |xs| && c !in TopK(xs, k) && 0 <= i < k ==> xs[c] <= v[i])
  {
    TopKSpec(xs, k);
  }

  // ---------------------------------------------------------------------
  // Visualisation threshold

  /** Positions whose score clears `scores >= confidence_threshold`. */
  function ThresholdMask(scores: seq<real>, threshold: real): (m: seq<bool>)
    ensures |m| == |scores|
  {
    seq(|scores|, i requires 0 <= i < |scores| => scores[i] >= threshold)
  }

  /** `scores[score_mask]`: the kept positions are exactly those whose score
      is at least the threshold, in their original order. */
  lemma ThresholdKeeps(scores: seq<real>, threshold: real, i: nat)
    ensures i in Where(ThresholdMask(scores, threshold)) <==> i < |scores| && scores[i] >= threshold
    ensures StrictlyIncreasing(Where(ThresholdMask(scores, threshold)))
  {
    WhereMember(ThresholdMask(scores, threshold), i);
  }
}
