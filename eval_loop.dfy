/** `inference` and `_run_generic_evaluation_loop` of `evaluation.py`: the
    per-batch driver around the evaluator, reduced to its counters. The
    clock is represented by the batch index at which it was last started,
    and the model's outputs for each batch are given. */
module EvalLoop {
  import opened SeqUtil
  import opened LvisEvaluator

  /** `min(5, total - 1)`: `-1` for an empty loader. */
  function NumWarmup(total: nat): (r: int)
    ensures r <= 5 && r <= total - 1
    ensures r == 5 || r == total - 1
  {
    if total - 1 < 5 then total - 1 else 5
  }

  /** `int(b)`. */
  function BoolToInt(b: bool): (r: int)
    ensures b <==> r == 1
    ensures !b <==> r == 0
  {
    if b then 1 else 0
  }

  /** `idx + 1 - num_warmup * int(idx >= num_warmup)`. */
  function ItersAfterStart(idx: nat, warm: int): int {
    idx + 1 - warm * BoolToInt(idx >= warm)
  }

  /** The batch index at which the clock was last started, seen from batch
      `idx`: it starts before the loop and restarts at batch `warm`. */
  function ClockStart(idx: nat, warm: int): (r: nat)
    ensures r <= idx
  {
    if 0 <= warm <= idx then warm else 0
  }

  /** The divisor of the per-iteration time is the number of batches run
      since the clock was last started, so it is at least one. */
  lemma ItersAfterStartCounts(total: nat, idx: nat)
    requires idx < total
    ensures ItersAfterStart(idx, NumWarmup(total)) == idx + 1 - ClockStart(idx, NumWarmup(total))
    ensures ItersAfterStart(idx, NumWarmup(total)) >= 1
  {
  }

  /** `total - num_warmup`, the divisor of the final report. */
  function FinalDivisor(total: nat): int {
    total - NumWarmup(total)
  }

  /** The batches `idx` with `idx >= w`. */
  function AtLeastMask(n: nat, w: int): (r: seq<bool>)
    ensures |r| == n && forall idx :: 0 <= idx < n ==> r[idx] == (idx >= w)
  {
    seq(n, idx requires 0 <= idx < n => idx >= w)
  }

  /** Of the first `n` batches, `n - w` have index at least `w`
      (all of them when `w <= 0`, none when `w >= n`). */
  lemma {:induction false} AtLeastCount(n: nat, w: int)
    ensures |Where(AtLeastMask(n, w))| == if w <= 0 then n else if w <= n then n - w else 0
  {
    if n > 0 {
      assert AtLeastMask(n, w)[..n - 1] == AtLeastMask(n - 1, w);
      AtLeastCount(n - 1, w);
    }
  }

  /** The final divisor is never zero: it is one for an empty loader and
      otherwise the number of batches timed after the warmup. */
  lemma FinalDivisorCounts(total: nat)
    ensures FinalDivisor(total) >= 1
    ensures total > 0 ==> FinalDivisor(total) == |Where(AtLeastMask(total, NumWarmup(total)))|
    ensures total > 0 ==> FinalDivisor(total) == total - ClockStart(total - 1, NumWarmup(total))
  {
    AtLeastCount(total, NumWarmup(total));
  }

  /** The batches at which the progress line may be logged:
      `idx >= num_warmup * 2`. */
  function LogMask(total: nat): (r: seq<bool>)
    ensures r == AtLeastMask(total, 2 * NumWarmup(total))
  {
    AtLeastMask(total, 2 * NumWarmup(total))
  }

  /** Which batches may log: none of two to five batches, all of one, and
      from batch 10 on with six or more. */
  lemma LoggedBatches(total: nat, idx: nat)
    ensures idx in Where(LogMask(total)) <==> idx < total && idx >= 2 * NumWarmup(total)
    ensures 2 <= total <= 5 ==> Where(LogMask(total)) == []
    ensures total == 1 ==> Where(LogMask(total)) == [0]
    ensures total >= 6 ==> |Where(LogMask(total))| == if total >= 10 then total - 10 else 0
  {
    WhereMember(LogMask(total), idx);
    AtLeastCount(total, 2 * NumWarmup(total));
    if total == 1 {
      WhereSingleton(LogMask(total), 0);
    }
  }

  /** `idx != 0 and idx % 2500 == 0`. */
  predicate CheckpointAt(idx: nat) {
    idx != 0 && idx % 2500 == 0
  }

  function CheckpointMask(total: nat): (r: seq<bool>)
    ensures |r| == total && forall idx :: 0 <= idx < total ==> r[idx] == CheckpointAt(idx)
  {
    seq(total, idx requires 0 <= idx < total => CheckpointAt(idx))
  }

  /** A loader of `total` batches writes `(total - 1) // 2500` checkpoints,
      and batch `idx` writes one exactly when it is a non-zero multiple of
      2500. */
  lemma {:induction false} CheckpointCount(total: nat, idx: nat)
    ensures idx in Where(CheckpointMask(total)) <==> idx < total && idx != 0 && idx % 2500 == 0
    ensures |Where(CheckpointMask(total))| == if total == 0 then 0 else (total - 1) / 2500
  {
    WhereMember(CheckpointMask(total), idx);
    if total > 0 {
      assert CheckpointMask(total)[..total - 1] == CheckpointMask(total - 1);
      CheckpointCount(total - 1, idx);
    }
  }

  /** The predictions the first `n` batches contribute, batch after batch. */
  function Processed<I>(batches: seq<seq<int>>, outputs: seq<seq<I>>, toJson: (I, int) -> seq<LvisResult>, n: nat)
    : seq<Prediction>
    requires n <= |batches| && n <= |outputs|
  {
    Concat(seq(n, k requires 0 <= k < n => ZipPredictions(batches[k], outputs[k], toJson)))
  }

  lemma ProcessedStep<I>(before: seq<Prediction>, batches: seq<seq<int>>, outputs: seq<seq<I>>,
                         toJson: (I, int) -> seq<LvisResult>, n: nat)
    requires n < |batches| && n < |outputs|
    ensures before + Processed(batches, outputs, toJson, n + 1)
         == before + Processed(batches, outputs, toJson, n) + ZipPredictions(batches[n], outputs[n], toJson)
  {
    var f := seq(n + 1, k requires 0 <= k < n + 1 => ZipPredictions(batches[k], outputs[k], toJson));
    assert f[..n] == seq(n, k requires 0 <= k < n => ZipPredictions(batches[k], outputs[k], toJson));
  }

  /** `iters_after_start` for every batch of a loader of `total` batches. */
  function IterCounts(total: nat): (r: seq<int>)
    ensures |r| == total
    ensures forall idx :: 0 <= idx < total ==> r[idx] >= 1 && r[idx] == idx + 1 - ClockStart(idx, NumWarmup(total))
  {
    var r := seq(total, idx requires 0 <= idx < total => ItersAfterStart(idx, NumWarmup(total)));
    assert forall idx :: 0 <= idx < total ==> r[idx] >= 1 && r[idx] == idx + 1 - ClockStart(idx, NumWarmup(total)) by {
      forall idx | 0 <= idx < total ensures r[idx] >= 1 && r[idx] == idx + 1 - ClockStart(idx, NumWarmup(total)) {
        ItersAfterStartCounts(total, idx);
      }
    }
    r
  }

  // The loop's bookkeeping after its first `n` batches, one batch at a time.

  function LoggedUpTo(total: nat, n: nat): seq<nat> {
    if n == 0 then [] else LoggedUpTo(total, n - 1) + if n - 1 >= NumWarmup(total) * 2 then [n - 1] else []
  }

  function CheckpointsUpTo(n: nat): seq<nat> {
    if n == 0 then [] else CheckpointsUpTo(n - 1) + if CheckpointAt(n - 1) then [n - 1] else []
  }

  function ItersUpTo(total: nat, n: nat): seq<int> {
    if n == 0 then [] else ItersUpTo(total, n - 1) + [ItersAfterStart(n - 1, NumWarmup(total))]
  }

  function SnapshotsUpTo<I>(before: seq<Prediction>, batches: seq<seq<int>>, outputs: seq<seq<I>>,
                            toJson: (I, int) -> seq<LvisResult>, n: nat): seq<seq<Prediction>>
    requires n <= |batches| && n <= |outputs|
  {
    if n == 0 then []
    else SnapshotsUpTo(before, batches, outputs, toJson, n - 1)
         + if CheckpointAt(n - 1) then [before + Processed(batches, outputs, toJson, n)] else []
  }

  lemma {:induction false} LoggedUpToWhere(total: nat, n: nat)
    requires n <= total
    ensures LoggedUpTo(total, n) == Where(LogMask(total)[..n])
  {
    if n > 0 {
      LoggedUpToWhere(total, n - 1);
      assert LogMask(total)[..n][..n - 1] == LogMask(total)[..n - 1];
    }
  }

  lemma {:induction false} CheckpointsUpToWhere(total: nat, n: nat)
    requires n <= total
    ensures CheckpointsUpTo(n) == Where(CheckpointMask(total)[..n])
  {
    if n > 0 {
      CheckpointsUpToWhere(total, n - 1);
      assert CheckpointMask(total)[..n][..n - 1] == CheckpointMask(total)[..n - 1];
    }
  }

  lemma {:induction false} ItersUpToCounts(total: nat, n: nat)
    requires n <= total
    ensures ItersUpTo(total, n) == IterCounts(total)[..n]
  {
    if n > 0 {
      ItersUpToCounts(total, n - 1);
    }
  }

  /** Each checkpoint saves the predictions of every batch up to and
      including its own. */
  lemma {:induction false} SnapshotsUpToAt<I>(before: seq<Prediction>, batches: seq<seq<int>>, outputs: seq<seq<I>>,
                                              toJson: (I, int) -> seq<LvisResult>, n: nat)
    requires n <= |batches| && n <= |outputs|
    ensures |SnapshotsUpTo(before, batches, outputs, toJson, n)| == |CheckpointsUpTo(n)|
    ensures AllBelow(CheckpointsUpTo(n), n)
    ensures forall k :: 0 <= k < |CheckpointsUpTo(n)| ==>
              SnapshotsUpTo(before, batches, outputs, toJson, n)[k]
              == before + Processed(batches, outputs, toJson, CheckpointsUpTo(n)[k] + 1)
  {
    if n > 0 {
      SnapshotsUpToAt(before, batches, outputs, toJson, n - 1);
    }
  }

  /** What one run of the loop leaves behind besides the predictions. */
  datatype LoopTrace = LoopTrace(
    logged: seq<nat>,                  // batches that pass the logging gate
    checkpoints: seq<nat>,             // batches that save the predictions
    snapshots: seq<seq<Prediction>>,   // the predictions saved at each checkpoint
    iters: seq<int>,                   // `iters_after_start` per batch
    clockStart: nat,                   // batch at which `start_time` was last taken
    finalDivisor: int)                 // `total - num_warmup`

  /** `_run_generic_evaluation_loop`: each batch's outputs go through
      `process`; the counters decide restarting the clock, logging and
      checkpointing. */
  method RunEvaluationLoop<I>(ev: CustomEvaluator, batches: seq<seq<int>>, outputs: seq<seq<I>>,
                              toJson: (I, int) -> seq<LvisResult>)
    returns (t: LoopTrace)
    requires |outputs| == |batches|
    modifies ev
    ensures ev.predictions == old(ev.predictions) + Processed(batches, outputs, toJson, |batches|)
    ensures t.logged == Where(LogMask(|batches|))
    ensures t.checkpoints == Where(CheckpointMask(|batches|))
    ensures |t.snapshots| == |t.checkpoints|
    ensures forall k :: 0 <= k < |t.checkpoints| ==>
              t.snapshots[k] == old(ev.predictions) + Processed(batches, outputs, toJson, t.checkpoints[k] + 1)
    ensures |t.iters| == |batches|
    ensures forall idx :: 0 <= idx < |batches| ==>
              t.iters[idx] >= 1 && t.iters[idx] == idx + 1 - ClockStart(idx, NumWarmup(|batches|))
    ensures t.finalDivisor >= 1
    ensures |batches| > 0 ==> t.clockStart == ClockStart(|batches| - 1, NumWarmup(|batches|))
    ensures |batches| == 0 ==> t.clockStart == 0
    ensures |batches| > 0 ==> t.finalDivisor == |batches| - t.clockStart
  {
    var total := |batches|;
    var warm := NumWarmup(total);
    ghost var start := ev.predictions;
    var logged, checkpoints, snapshots, iters, clock := RunBatches(ev, batches, outputs, toJson);
    LoggedUpToWhere(total, total);
    CheckpointsUpToWhere(total, total);
    ItersUpToCounts(total, total);
    SnapshotsUpToAt(start, batches, outputs, toJson, total);
    assert LogMask(total)[..total] == LogMask(total);
    assert CheckpointMask(total)[..total] == CheckpointMask(total);
    assert IterCounts(total)[..total] == IterCounts(total);
    FinalDivisorCounts(total);
    t := LoopTrace(logged, checkpoints, snapshots, iters, clock, total - warm);
  }

  /** The `for` loop itself: per batch, restart the clock after the warmup,
      process the batch, and record its divisor, its log line and its
      checkpoint. */
  method RunBatches<I>(ev: CustomEvaluator, batches: seq<seq<int>>, outputs: seq<seq<I>>,
                       toJson: (I, int) -> seq<LvisResult>)
    returns (logged: seq<nat>, checkpoints: seq<nat>, snapshots: seq<seq<Prediction>>, iters: seq<int>,
             clock: nat)
    requires |outputs| == |batches|
    modifies ev
    ensures ev.predictions == old(ev.predictions) + Processed(batches, outputs, toJson, |batches|)
    ensures logged == LoggedUpTo(|batches|, |batches|)
    ensures checkpoints == CheckpointsUpTo(|batches|)
    ensures snapshots == SnapshotsUpTo(old(ev.predictions), batches, outputs, toJson, |batches|)
    ensures iters == ItersUpTo(|batches|, |batches|)
    ensures |batches| > 0 ==> clock == ClockStart(|batches| - 1, NumWarmup(|batches|))
    ensures |batches| == 0 ==> clock == 0
  {
    var total := |batches|;
    var warm := NumWarmup(total);
    ghost var start := ev.predictions;
    clock := 0;
    logged, checkpoints, snapshots, iters := [], [], [], [];
    var idx: nat := 0;
    while idx < total
      invariant idx <= total
      invariant ev.predictions == start + Processed(batches, outputs, toJson, idx)
      invariant idx > 0 ==> clock == ClockStart(idx - 1, warm)
      invariant idx == 0 ==> clock == 0
      invariant logged == LoggedUpTo(total, idx)
      invariant checkpoints == CheckpointsUpTo(idx)
      invariant snapshots == SnapshotsUpTo(start, batches, outputs, toJson, idx)
      invariant iters == ItersUpTo(total, idx)
    {
      if idx == warm {
        clock := idx;
      }
      ProcessedStep(start, batches, outputs, toJson, idx);
      ev.Process(batches[idx], outputs[idx], toJson);
      iters := iters + [ItersAfterStart(idx, warm)];
      if idx >= warm * 2 {
        logged := logged + [idx];
      }
      if idx != 0 && idx % 2500 == 0 {
        checkpoints := checkpoints + [idx];
        snapshots := snapshots + [ev.predictions];
      }
      idx := idx + 1;
    }
  }

  /** `inference`: the evaluator is reset first, so afterwards it holds this
      run's predictions alone. */
  method Inference<I>(ev: CustomEvaluator, batches: seq<seq<int>>, outputs: seq<seq<I>>,
                      toJson: (I, int) -> seq<LvisResult>)
    returns (t: LoopTrace)
    requires |outputs| == |batches|
    modifies ev
    ensures ev.predictions == Processed(batches, outputs, toJson, |batches|)
    ensures t.logged == Where(LogMask(|batches|)) && t.checkpoints == Where(CheckpointMask(|batches|))
  {
    ev.Reset();
    t := RunEvaluationLoop(ev, batches, outputs, toJson);
  }
}
