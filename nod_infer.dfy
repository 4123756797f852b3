/** `NOD.infer`: one image through the novel-object-detection pipeline.
    The detector, CLIP, Grounding DINO and SAM are inputs here (their
    outputs, or functions standing for them); what is modelled is the
    bookkeeping between them: splitting the detector's boxes into known and
    background ones, the COCO-to-LVIS class remapping, the background-crop
    selection, the decoding of Grounding DINO's top scores, pooling,
    normalisation, score fusion and the final top-300 reranking. */
module NodInfer {
  import opened Wrappers
  import opened SeqUtil
  import opened Geometry
  import opened Scores
  import opened Grounding

  /** The detector's class id for "background / not a COCO object". */
  const BackgroundClass: int := 80

  /** Both `torch.topk` calls keep this many candidates. */
  const TopKCount: nat := 300

  /** The detector's instances: boxes, scores and COCO class ids, aligned. */
  datatype RcnnOutput = RcnnOutput(boxes: seq<Box>, scores: seq<real>, classes: seq<int>)

  predicate RcnnAligned(o: RcnnOutput) {
    |o.boxes| == |o.scores| == |o.classes|
  }

  /** The original image size (`inputs[0]['height']`, `['width']`) and the
      size of the resized image tensor the crops are cut from. */
  datatype ImageInfo = ImageInfo(height: real, width: real, newHeight: nat, newWidth: nat)

  predicate ImageOk(img: ImageInfo) {
    img.height > 0.0 && img.width > 0.0
  }

  /** Grounding DINO's outputs for one image and the prompt list: per prompt,
      the query × token probabilities and the query boxes (normalised
      centre format). */
  datatype GroundingOutput = GroundingOutput(probToToken: seq<Matrix>, boxes: seq<seq<CenterBox>>, nq: nat, tokens: nat)

  /** The constructor parameters the pipeline uses. */
  datatype NodConfig = NodConfig(positiveMaps: seq<Matrix>, length: nat, cocoToLvis: map<int, int>)

  predicate GroundingOk(g: GroundingOutput, cfg: NodConfig) {
    && GroundingShaped(g.probToToken, cfg.positiveMaps, g.nq, g.tokens)
    && |g.boxes| == |g.probToToken|
    && forall b :: 0 <= b < |g.boxes| ==> |g.boxes[b]| == g.nq
  }

  /** CLIP's best class for one crop and its score. */
  datatype ClipPrediction = ClipPrediction(score: real, cls: int)

  /** SAM's answer to one box prompt: the box around its mask and its
      predicted IoU. */
  datatype SamPrediction = SamPrediction(refined: Box, iou: real)

  /** Parallel box, score and label tensors. */
  datatype Detections = Detections(boxes: seq<Box>, scores: seq<real>, labels: seq<int>)

  predicate Aligned(d: Detections) {
    |d.boxes| == |d.scores| == |d.labels|
  }

  /** The exceptions `infer` can raise on well-shaped model outputs. */
  datatype InferError =
    | UnknownCocoClass(cls: int)  // `self.coco_to_lvis[...]` raises KeyError
    | NoBackgroundCrop            // `torch.cat([])` of the crop list
    | TooFewGroundingScores       // `torch.topk(..., 300)` on fewer than 300 scores
    | ZeroChunkLength             // `labels // self.length` with length 0
    | PromptChunkOutOfRange       // `out_bbox[...]` with a chunk index past the prompts

  // ---------------------------------------------------------------------
  // Known and background detector boxes

  /** `rcnn_classes == 80`. */
  function BackgroundMask(classes: seq<int>): (m: seq<bool>)
    ensures |m| == |classes|
    ensures forall i :: 0 <= i < |classes| ==> (m[i] <==> classes[i] == BackgroundClass)
  {
    seq(|classes|, i requires 0 <= i < |classes| => classes[i] == BackgroundClass)
  }

  function BackgroundIdx(classes: seq<int>): seq<nat> {
    Where(BackgroundMask(classes))
  }

  function KnownIdx(classes: seq<int>): seq<nat> {
    Where(Not(BackgroundMask(classes)))
  }

  /** Every detector box is either a background box or a known one, never
      both, and each side keeps the detector's order. */
  lemma SplitPartition(classes: seq<int>, i: nat)
    ensures i in BackgroundIdx(classes) <==> i < |classes| && classes[i] == BackgroundClass
    ensures i in KnownIdx(classes) <==> i < |classes| && classes[i] != BackgroundClass
    ensures |BackgroundIdx(classes)| + |KnownIdx(classes)| == |classes|
    ensures StrictlyIncreasing(BackgroundIdx(classes)) && StrictlyIncreasing(KnownIdx(classes))
  {
    WhereMember(BackgroundMask(classes), i);
    WhereMember(Not(BackgroundMask(classes)), i);
    WhereSplitCount(BackgroundMask(classes));
  }

  /** `[self.coco_to_lvis[c] for c in known_classes]`, failing at the first
      class the map does not have. */
  function RemapClasses(m: map<int, int>, cs: seq<int>): (r: Result<seq<int>, InferError>)
    ensures r.Success? <==> forall i :: 0 <= i < |cs| ==> cs[i] in m
    ensures r.Success? ==> |r.value| == |cs| && forall i :: 0 <= i < |cs| ==> r.value[i] == m[cs[i]]
    ensures r.Failure? ==>
              exists i :: && 0 <= i < |cs| && r.error == UnknownCocoClass(cs[i])
                          && cs[i] !in m && forall j :: 0 <= j < i ==> cs[j] in m
  {
    if cs == [] then Success([])
    else if cs[0] !in m then Failure(UnknownCocoClass(cs[0]))
    else
      match RemapClasses(m, cs[1..])
      case Failure(e) =>
        ghost var w :| 0 <= w < |cs[1..]| && e == UnknownCocoClass(cs[1..][w]) &&
          cs[1..][w] !in m && forall j :: 0 <= j < w ==> cs[1..][j] in m;
        assert cs[w + 1] == cs[1..][w];
        assert forall j :: 1 <= j < w + 1 ==> cs[j] == cs[1..][j - 1];
        Failure(e)
      case Success(rest) =>
        assert forall j :: 1 <= j < |cs| ==> cs[j] == cs[1..][j - 1];
        Success([m[cs[0]]] + rest)
  }

  /** The known boxes with their scores and LVIS classes. */
  function KnownDetections(rc: RcnnOutput, m: map<int, int>): (r: Result<Detections, InferError>)
    requires RcnnAligned(rc)
    ensures r.Success? ==> Aligned(r.value) && |r.value.scores| == |KnownIdx(rc.classes)|
  {
    var ki := KnownIdx(rc.classes);
    match RemapClasses(m, Gather(rc.classes, ki))
    case Failure(e) => Failure(e)
    case Success(lvis) => Success(Detections(Gather(rc.boxes, ki), Gather(rc.scores, ki), lvis))
  }

  /** The known side of the pool succeeds exactly when every
      non-background class has an LVIS id; otherwise it reports one that
      has none. */
  lemma KnownDetectionsOutcome(rc: RcnnOutput, m: map<int, int>)
    requires RcnnAligned(rc)
    ensures KnownDetections(rc, m).Success? <==>
              forall i :: 0 <= i < |rc.classes| && rc.classes[i] != BackgroundClass ==> rc.classes[i] in m
    ensures KnownDetections(rc, m).Failure? ==>
              exists i :: && 0 <= i < |rc.classes| && rc.classes[i] != BackgroundClass && rc.classes[i] !in m
                          && KnownDetections(rc, m).error == UnknownCocoClass(rc.classes[i])
  {
    var ki := KnownIdx(rc.classes);
    var cs := Gather(rc.classes, ki);
    var r := RemapClasses(m, cs);
    if r.Success? {
      forall i | 0 <= i < |rc.classes| && rc.classes[i] != BackgroundClass ensures rc.classes[i] in m {
        SplitPartition(rc.classes, i);
        var j :| 0 <= j < |ki| && ki[j] == i;
        assert cs[j] == rc.classes[i];
      }
    } else {
      var j :| 0 <= j < |cs| && r.error == UnknownCocoClass(cs[j]) && cs[j] !in m;
      SplitPartition(rc.classes, ki[j]);
      assert ki[j] in ki;
    }
  }

  /** Entry `k` of the known side is the detector's `k`-th non-background
      instance: its box, its score, and its class mapped to LVIS. */
  lemma KnownDetectionsAt(rc: RcnnOutput, m: map<int, int>, k: nat)
    requires RcnnAligned(rc) && KnownDetections(rc, m).Success? && k < |KnownIdx(rc.classes)|
    ensures var d := KnownDetections(rc, m).value;
            var i := KnownIdx(rc.classes)[k];
            && i < |rc.classes| && rc.classes[i] != BackgroundClass
            && d.boxes[k] == rc.boxes[i] && d.scores[k] == rc.scores[i]
            && d.labels[k] == m[rc.classes[i]]
  {
    var i := KnownIdx(rc.classes)[k];
    assert Not(BackgroundMask(rc.classes))[i];
  }

  // ---------------------------------------------------------------------
  // Background crops

  /** A background box's crop of the resized image is non-empty. */
  function CropMask(bg: seq<Box>, img: ImageInfo): (m: seq<bool>)
    requires ImageOk(img)
    ensures |m| == |bg|
    ensures forall i :: 0 <= i < |bg| ==>
              (m[i] <==> CropNonEmpty(CropOf(bg[i], img.width, img.height, img.newWidth, img.newHeight), img.newWidth, img.newHeight))
  {
    seq(|bg|, i requires 0 <= i < |bg| =>
      CropNonEmpty(CropOf(bg[i], img.width, img.height, img.newWidth, img.newHeight), img.newWidth, img.newHeight))
  }

  /** The crops of the selected background boxes, in selection order. */
  function CropsOf(bg: seq<Box>, selected: seq<nat>, img: ImageInfo): (r: seq<Crop>)
    requires ImageOk(img) && AllBelow(selected, |bg|)
    ensures |r| == |selected|
  {
    seq(|selected|, j requires 0 <= j < |selected| => CropOf(bg[selected[j]], img.width, img.height, img.newWidth, img.newHeight))
  }

  lemma CropsOfAppend(bg: seq<Box>, selected: seq<nat>, i: nat, img: ImageInfo)
    requires ImageOk(img) && AllBelow(selected, |bg|) && i < |bg|
    ensures AllBelow(selected + [i], |bg|)
    ensures CropsOf(bg, selected + [i], img)
         == CropsOf(bg, selected, img) + [CropOf(bg[i], img.width, img.height, img.newWidth, img.newHeight)]
  {
  }

  /** The loop over `bg_boxes` that keeps the boxes whose crop is non-empty:
      it returns `selected_idx` and the crops handed to CLIP. */
  method SelectBackgroundCrops(bg: seq<Box>, img: ImageInfo) returns (selected: seq<nat>, crops: seq<Crop>)
    requires ImageOk(img)
    ensures selected == Where(CropMask(bg, img))
    ensures crops == CropsOf(bg, selected, img)
  {
    selected, crops := [], [];
    var mask := CropMask(bg, img);
    var i: nat := 0;
    while i < |bg|
      invariant 0 <= i <= |bg|
      invariant selected == Where(mask[..i])
      invariant AllBelow(selected, |bg|)
      invariant crops == CropsOf(bg, selected, img)
    {
      var c := CropOf(bg[i], img.width, img.height, img.newWidth, img.newHeight);
      WhereStep(mask, i);
      if CropNonEmpty(c, img.newWidth, img.newHeight) {
        CropsOfAppend(bg, selected, i, img);
        crops := crops + [c];
        selected := selected + [i];
      }
      i := i + 1;
    }
    assert mask[..|bg|] == mask;
  }

  /** A background box is kept exactly when its crop is non-empty. */
  lemma SelectedCropsSpec(bg: seq<Box>, img: ImageInfo, i: nat)
    requires ImageOk(img)
    ensures i in Where(CropMask(bg, img)) <==>
              && i < |bg|
              && CropNonEmpty(CropOf(bg[i], img.width, img.height, img.newWidth, img.newHeight), img.newWidth, img.newHeight)
  {
    WhereMember(CropMask(bg, img), i);
  }

  /** The background side of the pool: the kept boxes with CLIP's score and
      class for their crops. */
  function BackgroundDetections(bg: seq<Box>, selected: seq<nat>, crops: seq<Crop>, clip: Crop -> ClipPrediction): (r: Detections)
    requires AllBelow(selected, |bg|) && |crops| == |selected|
    ensures Aligned(r) && |r.scores| == |selected|
    ensures forall j :: 0 <= j < |selected| ==>
              r.boxes[j] == bg[selected[j]] && r.scores[j] == clip(crops[j]).score && r.labels[j] == clip(crops[j]).cls
  {
    Detections(Gather(bg, selected),
               seq(|crops|, j requires 0 <= j < |crops| => clip(crops[j]).score),
               seq(|crops|, j requires 0 <= j < |crops| => clip(crops[j]).cls))
  }

  // ---------------------------------------------------------------------
  // Grounding DINO candidates

  /** `prob_to_label.view(-1)`. */
  function FlatScores(chunks: seq<Matrix>, nq: nat, widths: seq<nat>): (r: seq<real>)
    requires ChunksShaped(chunks, nq, widths) && SumNat(widths) > 0
    ensures |r| == nq * SumNat(widths)
  {
    ConcatColumnsShape(chunks, nq, widths);
    Flatten(ConcatColumns(chunks, nq), nq, SumNat(widths))
  }

  /** The flat positions `torch.topk(prob_to_label.view(-1), 300)` picks. */
  function GroundingOrder(chunks: seq<Matrix>, nq: nat, widths: seq<nat>): (r: seq<nat>)
    requires ChunksShaped(chunks, nq, widths) && nq * SumNat(widths) >= TopKCount
    ensures |r| == TopKCount && Distinct(r) && AllBelow(r, nq * SumNat(widths))
  {
    TopK(FlatScores(chunks, nq, widths), TopKCount)
  }

  /** The 300 Grounding DINO candidates: the flat top scores, their category
      columns as labels, and for each the box of its query in the prompt
      chunk `column // length`, scaled to the image and converted to corners. */
  function GroundingDetections(chunks: seq<Matrix>, g: GroundingOutput, widths: seq<nat>, length: nat, img: ImageInfo)
    : (r: Result<Detections, InferError>)
    requires ChunksShaped(chunks, g.nq, widths)
    requires forall b :: 0 <= b < |g.boxes| ==> |g.boxes[b]| == g.nq
    ensures r.Success? ==> Aligned(r.value) && |r.value.scores| == TopKCount
    ensures r == Failure(TooFewGroundingScores) <==> g.nq * SumNat(widths) < TopKCount
  {
    var cols := SumNat(widths);
    if cols == 0 || g.nq * cols < TopKCount then Failure(TooFewGroundingScores)
    else if length == 0 then Failure(ZeroChunkLength)
    else DecodeTop(GroundingOrder(chunks, g.nq, widths), FlatScores(chunks, g.nq, widths), g, cols, length, img)
  }

  /** Decoding of the top flat positions: scores, category columns and the
      boxes `out_bbox[chunk, query]`, failing when a chunk index runs past
      the prompts. */
  function DecodeTop(top: seq<nat>, flat: seq<real>, g: GroundingOutput, cols: nat, length: nat, img: ImageInfo)
    : (r: Result<Detections, InferError>)
    requires cols > 0 && length > 0 && |flat| == g.nq * cols && AllBelow(top, |flat|)
    requires forall b :: 0 <= b < |g.boxes| ==> |g.boxes[b]| == g.nq
    ensures r.Success? ==> Aligned(r.value) && |r.value.scores| == |top|
    ensures r.Failure? ==> r.error == PromptChunkOutOfRange
  {
    if exists j :: 0 <= j < |top| && ChunkOf(top[j], cols, length) >= |g.boxes| then Failure(PromptChunkOutOfRange)
    else
      Success(Detections(
        seq(|top|, j requires 0 <= j < |top| =>
          CenterToCorner(ScaleToImage(g.boxes[ChunkOf(top[j], cols, length)][QueryOf(top[j], g.nq, cols)], img.width, img.height))),
        Gather(flat, top),
        seq(|top|, j requires 0 <= j < |top| => top[j] % cols)))
  }

  /** `topk_idxs // prob_to_label.shape[1]`: the query of flat index `f`. */
  function QueryOf(f: nat, rows: nat, cols: nat): (r: nat)
    requires cols > 0 && f < rows * cols
    ensures r < rows
  {
    DecodeBounds(f, rows, cols);
    f / cols
  }

  /** `labels // self.length` for the category column of flat index `f`. */
  function ChunkOf(f: nat, cols: nat, length: nat): nat
    requires cols > 0 && length > 0
  {
    (f % cols) / length
  }

  /** With one prompt chunk per `length` categories (the last possibly
      shorter) and a positive length, the chunk index never runs past the
      prompts, so only too few scores can make the stage fail. */
  lemma GroundingSucceeds(chunks: seq<Matrix>, g: GroundingOutput, widths: seq<nat>, length: nat, img: ImageInfo)
    requires ChunksShaped(chunks, g.nq, widths)
    requires forall b :: 0 <= b < |g.boxes| ==> |g.boxes[b]| == g.nq
    requires length > 0 && UniformChunks(widths, length) && |g.boxes| == |widths|
    requires g.nq * SumNat(widths) >= TopKCount
    ensures GroundingDetections(chunks, g, widths, length, img).Success?
  {
    var cols := SumNat(widths);
    PositiveFactor(g.nq, cols);
    var top := GroundingOrder(chunks, g.nq, widths);
    var flat := FlatScores(chunks, g.nq, widths);
    ChunksInRange(top, g.nq, widths, length);
    DecodeTopSucceeds(top, flat, g, cols, length, img);
    assert GroundingDetections(chunks, g, widths, length, img) == DecodeTop(top, flat, g, cols, length, img);
  }

  lemma DecodeTopSucceeds(top: seq<nat>, flat: seq<real>, g: GroundingOutput, cols: nat, length: nat, img: ImageInfo)
    requires cols > 0 && length > 0 && |flat| == g.nq * cols && AllBelow(top, |flat|)
    requires forall b :: 0 <= b < |g.boxes| ==> |g.boxes[b]| == g.nq
    requires forall j :: 0 <= j < |top| ==> ChunkOf(top[j], cols, length) < |g.boxes|
    ensures DecodeTop(top, flat, g, cols, length, img).Success?
  {
  }

  lemma ChunksInRange(top: seq<nat>, nq: nat, widths: seq<nat>, length: nat)
    requires length > 0 && UniformChunks(widths, length) && SumNat(widths) > 0 && AllBelow(top, nq * SumNat(widths))
    ensures forall j :: 0 <= j < |top| ==> ChunkOf(top[j], SumNat(widths), length) < |widths|
  {
    forall j | 0 <= j < |top| ensures ChunkOf(top[j], SumNat(widths), length) < |widths| {
      DecodeBounds(top[j], nq, SumNat(widths));
      ChunkOfLabel(widths, length, top[j] % SumNat(widths));
    }
  }

  lemma PositiveFactor(a: nat, b: nat)
    requires a * b > 0
    ensures b > 0
  {
    if b == 0 {
      assert false;
    }
  }

  /** Each Grounding DINO candidate is consistent: its flat index `f`
      decodes to a query `q` and a category column (its label), the column
      lies in prompt chunk `b = label // length` (`ChunkOf`) at position `c`
      of that chunk, the score is query `q`'s token probabilities dotted with
      category `c`'s positive map in chunk `b`, and the box is query `q`'s
      box from the same chunk `b`. */
  lemma GroundingDecode(g: GroundingOutput, cfg: NodConfig, img: ImageInfo, j: nat) returns (f: nat, q: nat, b: nat, c: nat)
    requires GroundingOk(g, cfg) && cfg.length > 0 && UniformChunks(Widths(cfg.positiveMaps), cfg.length)
    requires GroundingStage(g, cfg, img).Success? && j < TopKCount
    ensures SumNat(Widths(cfg.positiveMaps)) > 0
    ensures f == GroundingOrder(ChunkScores(g.probToToken, cfg.positiveMaps, g.nq, g.tokens), g.nq, Widths(cfg.positiveMaps))[j]
    ensures GroundingStage(g, cfg, img).value.labels[j] == f % SumNat(Widths(cfg.positiveMaps))
    ensures q == f / SumNat(Widths(cfg.positiveMaps)) && q < g.nq
    ensures q * SumNat(Widths(cfg.positiveMaps)) + GroundingStage(g, cfg, img).value.labels[j] == f
    ensures b == GroundingStage(g, cfg, img).value.labels[j] / cfg.length && b < |cfg.positiveMaps|
    ensures c == GroundingStage(g, cfg, img).value.labels[j] - b * cfg.length && c < |cfg.positiveMaps[b]|
    ensures GroundingStage(g, cfg, img).value.scores[j] == Dot(g.probToToken[b][q], cfg.positiveMaps[b][c])
    ensures GroundingStage(g, cfg, img).value.boxes[j] == CenterToCorner(ScaleToImage(g.boxes[b][q], img.width, img.height))
  {
    var widths := Widths(cfg.positiveMaps);
    var chunks := ChunkScores(g.probToToken, cfg.positiveMaps, g.nq, g.tokens);
    var cols := SumNat(widths);
    PositiveFactor(g.nq, cols);
    var top := GroundingOrder(chunks, g.nq, widths);
    var flat := FlatScores(chunks, g.nq, widths);
    assert GroundingStage(g, cfg, img) == DecodeTop(top, flat, g, cols, cfg.length, img);
    var d := GroundingStage(g, cfg, img).value;
    DecodeTopAt(top, flat, g, cols, cfg.length, img, j);
    f := top[j];
    q, b, c := DecodeFlat(f, g.nq, widths, cfg.length);
    assert d.labels[j] == f % cols;
    FlatScoreOf(chunks, g.nq, widths, q, b, c);
    assert chunks[b] == MatMulT(g.probToToken[b], cfg.positiveMaps[b], g.tokens);
    assert chunks[b][q][c] == Dot(g.probToToken[b][q], cfg.positiveMaps[b][c]);
    assert d.scores[j] == flat[f] == chunks[b][q][c];
    assert d.boxes[j] == CenterToCorner(ScaleToImage(g.boxes[b][q], img.width, img.height));
  }

  /** Entry `j` of the decoded candidates, spelled out. */
  lemma DecodeTopAt(top: seq<nat>, flat: seq<real>, g: GroundingOutput, cols: nat, length: nat, img: ImageInfo, j: nat)
    requires cols > 0 && length > 0 && |flat| == g.nq * cols && AllBelow(top, |flat|)
    requires forall b :: 0 <= b < |g.boxes| ==> |g.boxes[b]| == g.nq
    requires DecodeTop(top, flat, g, cols, length, img).Success? && j < |top|
    ensures var d := DecodeTop(top, flat, g, cols, length, img).value;
            && ChunkOf(top[j], cols, length) < |g.boxes|
            && d.labels[j] == top[j] % cols && d.scores[j] == flat[top[j]]
            && d.boxes[j] == CenterToCorner(ScaleToImage(g.boxes[ChunkOf(top[j], cols, length)][QueryOf(top[j], g.nq, cols)], img.width, img.height))
  {
  }

  /** The flat score at `f` is entry `c` of query `q`'s row in chunk `b`,
      where `q`, the column and `b` are decoded as the source does. */
  lemma FlatScoreAt(chunks: seq<Matrix>, nq: nat, widths: seq<nat>, length: nat, f: nat)
    requires ChunksShaped(chunks, nq, widths) && length > 0 && UniformChunks(widths, length)
    requires SumNat(widths) > 0 && f < nq * SumNat(widths)
    ensures var cols := SumNat(widths);
            var b := ChunkOf(f, cols, length);
            var c := f % cols - b * length;
            && QueryOf(f, nq, cols) * cols + f % cols == f
            && b < |chunks| && 0 <= c < widths[b]
            && FlatScores(chunks, nq, widths)[f] == chunks[b][QueryOf(f, nq, cols)][c]
  {
    var cols := SumNat(widths);
    var q, b, c := DecodeFlat(f, nq, widths, length);
    FlatScoreOf(chunks, nq, widths, q, b, c);
  }

  /** The source's decoding of a flat index: query `f // cols`, column
      `f % cols`, chunk `column // length`, and the position in that chunk. */
  lemma DecodeFlat(f: nat, nq: nat, widths: seq<nat>, length: nat) returns (q: nat, b: nat, c: nat)
    requires length > 0 && UniformChunks(widths, length)
    requires SumNat(widths) > 0 && f < nq * SumNat(widths)
    ensures q == QueryOf(f, nq, SumNat(widths)) && b == ChunkOf(f, SumNat(widths), length)
    ensures c == f % SumNat(widths) - b * length
    ensures q < nq && b < |widths| && c < widths[b]
    ensures q * SumNat(widths) + f % SumNat(widths) == f
    ensures f == q * SumNat(widths) + (Offset(widths, b) + c)
  {
    var cols := SumNat(widths);
    DecodeBounds(f, nq, cols);
    q := f / cols;
    var col := f % cols;
    ChunkOfLabel(widths, length, col);
    b := col / length;
    c := col - b * length;
  }

  /** Entry `c` of query `q`'s row in chunk `b` sits at flat position
      `q * cols + Offset(b) + c`. */
  lemma FlatScoreOf(chunks: seq<Matrix>, nq: nat, widths: seq<nat>, q: nat, b: nat, c: nat)
    requires ChunksShaped(chunks, nq, widths) && SumNat(widths) > 0
    requires q < nq && b < |chunks| && c < widths[b]
    ensures Offset(widths, b) + c < SumNat(widths)
    ensures q * SumNat(widths) + (Offset(widths, b) + c) < nq * SumNat(widths)
    ensures FlatScores(chunks, nq, widths)[q * SumNat(widths) + (Offset(widths, b) + c)] == chunks[b][q][c]
  {
    var cols := SumNat(widths);
    ConcatColumnsAt(chunks, nq, widths, q, b, c);
    ConcatColumnsShape(chunks, nq, widths);
    FlattenAt(ConcatColumns(chunks, nq), nq, cols, q, Offset(widths, b) + c);
  }

  // ---------------------------------------------------------------------
  // Pool, fusion and reranking

  function Append(a: Detections, b: Detections): (r: Detections)
    ensures |r.scores| == |a.scores| + |b.scores|
    ensures Aligned(a) && Aligned(b) ==> Aligned(r)
  {
    Detections(a.boxes + b.boxes, a.scores + b.scores, a.labels + b.labels)
  }

  /** The pool `torch.cat([known, background, grounding])`: entry `i` is the
      known entry `i`, then the background entries, then the Grounding DINO
      entries, each as a whole (box, score and label together). */
  lemma PoolLayout(known: Detections, background: Detections, grounding: Detections, i: nat)
    requires Aligned(known) && Aligned(background) && Aligned(grounding)
    requires i < |known.scores| + |background.scores| + |grounding.scores|
    ensures var p := Append(Append(known, background), grounding);
            var k, b := |known.scores|, |background.scores|;
            && Aligned(p) && |p.scores| == k + b + |grounding.scores|
            && (i < k ==> p.boxes[i] == known.boxes[i] && p.scores[i] == known.scores[i] && p.labels[i] == known.labels[i])
            && (k <= i < k + b ==>
                  p.boxes[i] == background.boxes[i - k] && p.scores[i] == background.scores[i - k]
                  && p.labels[i] == background.labels[i - k])
            && (k + b <= i ==>
                  p.boxes[i] == grounding.boxes[i - k - b] && p.scores[i] == grounding.scores[i - k - b]
                  && p.labels[i] == grounding.labels[i - k - b])
  {
  }

  /** On success the pool has one entry per known instance, one per kept
      background box and 300 from Grounding DINO, so the rerank's `topk`
      always has its 300 candidates. */
  lemma PoolSize(rc: RcnnOutput, img: ImageInfo, g: GroundingOutput, cfg: NodConfig, clip: Crop -> ClipPrediction)
    requires RcnnAligned(rc) && ImageOk(img) && GroundingOk(g, cfg)
    requires KnownDetections(rc, cfg.cocoToLvis).Success? && GroundingStage(g, cfg, img).Success?
    ensures var bg := BackgroundBoxes(rc);
            var selected := Where(CropMask(bg, img));
            var background := BackgroundDetections(bg, selected, CropsOf(bg, selected, img), clip);
            var pool := Append(Append(KnownDetections(rc, cfg.cocoToLvis).value, background), GroundingStage(g, cfg, img).value);
            |pool.scores| == |KnownIdx(rc.classes)| + |selected| + TopKCount >= TopKCount
  {
  }

  /** The min-max normalised pool scores times the min-max normalised SAM
      IoU predictions. */
  function FusedScores(pool: Detections, sam: Box -> SamPrediction): (r: seq<real>)
    requires Aligned(pool) && |pool.scores| > 0
    ensures |r| == |pool.scores| && InUnit(r)
  {
    var norm := MinMaxNormalize(pool.scores);
    var samNorm := MinMaxNormalize(seq(|pool.boxes|, i requires 0 <= i < |pool.boxes| => sam(pool.boxes[i]).iou));
    FuseInUnit(norm, samNorm);
    Fuse(norm, samNorm)
  }

  /** `torch.topk(scores * sam_scores, 300)`. */
  function RerankOrder(pool: Detections, sam: Box -> SamPrediction): (r: seq<nat>)
    requires Aligned(pool) && |pool.scores| >= TopKCount
    ensures |r| == TopKCount && Distinct(r) && AllBelow(r, |pool.scores|)
  {
    TopK(FusedScores(pool, sam), TopKCount)
  }

  /** SAM's refined boxes, the fused scores and the pooled labels at the
      reranked positions. */
  function Rerank(pool: Detections, sam: Box -> SamPrediction): (r: Detections)
    requires Aligned(pool) && |pool.scores| >= TopKCount
    ensures Aligned(r) && |r.scores| == TopKCount
  {
    var top := RerankOrder(pool, sam);
    var fused := FusedScores(pool, sam);
    var refined := RefinedBoxes(pool.boxes, sam);
    Detections(Gather(refined, top), Gather(fused, top), Gather(pool.labels, top))
  }

  /** SAM's refined box for every pooled box. */
  function RefinedBoxes(boxes: seq<Box>, sam: Box -> SamPrediction): (r: seq<Box>)
    ensures |r| == |boxes| && forall i :: 0 <= i < |boxes| ==> r[i] == sam(boxes[i]).refined
  {
    seq(|boxes|, i requires 0 <= i < |boxes| => sam(boxes[i]).refined)
  }

  /** Entry `j` of the reranked output is SAM's box for pool entry
      `top[j]`, that entry's fused score (in [0, 1]) and its pooled label. */
  lemma RerankAt(pool: Detections, sam: Box -> SamPrediction, j: nat)
    requires Aligned(pool) && |pool.scores| >= TopKCount && j < TopKCount
    ensures var r := Rerank(pool, sam);
            var top := RerankOrder(pool, sam);
            && r.boxes[j] == sam(pool.boxes[top[j]]).refined
            && r.labels[j] == pool.labels[top[j]]
            && r.scores[j] == FusedScores(pool, sam)[top[j]]
            && 0.0 <= r.scores[j] <= 1.0
  {
  }

  /** The reranked scores come out largest first. */
  lemma RerankOrdered(pool: Detections, sam: Box -> SamPrediction, i: nat, j: nat)
    requires Aligned(pool) && |pool.scores| >= TopKCount && i < j < TopKCount
    ensures Rerank(pool, sam).scores[i] >= Rerank(pool, sam).scores[j]
  {
    var fused := FusedScores(pool, sam);
    assert RerankOrder(pool, sam) == TopK(fused, TopKCount);
    TopKValues(fused, TopKCount);
  }

  /** No pool entry left out of the rerank has a higher fused score than
      an entry kept. */
  lemma RerankBest(pool: Detections, sam: Box -> SamPrediction, c: nat, j: nat)
    requires Aligned(pool) && |pool.scores| >= TopKCount && j < TopKCount
    requires c < |pool.scores| && c !in RerankOrder(pool, sam)
    ensures FusedScores(pool, sam)[c] <= Rerank(pool, sam).scores[j]
  {
    var fused := FusedScores(pool, sam);
    assert RerankOrder(pool, sam) == TopK(fused, TopKCount);
    TopKValues(fused, TopKCount);
  }

  // ---------------------------------------------------------------------
  // The whole of `infer`

  /** `rcnn_boxes[bg_boxes_idxs]`. */
  function BackgroundBoxes(rc: RcnnOutput): (r: seq<Box>)
    requires RcnnAligned(rc)
    ensures |r| == |BackgroundIdx(rc.classes)|
  {
    Gather(rc.boxes, BackgroundIdx(rc.classes))
  }

  /** The Grounding DINO stage on the per-prompt score matrices. */
  function GroundingStage(g: GroundingOutput, cfg: NodConfig, img: ImageInfo): (r: Result<Detections, InferError>)
    requires GroundingOk(g, cfg)
    ensures r.Success? ==> Aligned(r.value) && |r.value.scores| == TopKCount
    ensures r.Success? ==> g.nq * SumNat(Widths(cfg.positiveMaps)) >= TopKCount
  {
    GroundingDetections(ChunkScores(g.probToToken, cfg.positiveMaps, g.nq, g.tokens), g,
                        Widths(cfg.positiveMaps), cfg.length, img)
  }

  /** What `infer` returns for one image, or the exception it raises. */
  function InferSpec(rc: RcnnOutput, img: ImageInfo, g: GroundingOutput, cfg: NodConfig,
                     clip: Crop -> ClipPrediction, sam: Box -> SamPrediction): (r: Result<Detections, InferError>)
    requires RcnnAligned(rc) && ImageOk(img) && GroundingOk(g, cfg)
    ensures r.Success? ==> Aligned(r.value) && |r.value.scores| == TopKCount
  {
    var known :- KnownDetections(rc, cfg.cocoToLvis);
    var bg := BackgroundBoxes(rc);
    var selected := Where(CropMask(bg, img));
    if |selected| == 0 then Failure(NoBackgroundCrop)
    else
      var background := BackgroundDetections(bg, selected, CropsOf(bg, selected, img), clip);
      var grounding :- GroundingStage(g, cfg, img);
      Success(Rerank(Append(Append(known, background), grounding), sam))
  }

  /** The pipeline as the source runs it: the crop loop and the per-prompt
      score loop, then the tensor steps. */
  method Infer(rc: RcnnOutput, img: ImageInfo, g: GroundingOutput, cfg: NodConfig,
               clip: Crop -> ClipPrediction, sam: Box -> SamPrediction) returns (r: Result<Detections, InferError>)
    requires RcnnAligned(rc) && ImageOk(img) && GroundingOk(g, cfg)
    ensures r == InferSpec(rc, img, g, cfg, clip, sam)
  {
    var known := KnownDetections(rc, cfg.cocoToLvis);
    if known.Failure? {
      return Failure(known.error);
    }
    var bg := BackgroundBoxes(rc);
    var selected, crops := SelectBackgroundCrops(bg, img);
    if |selected| == 0 {
      return Failure(NoBackgroundCrop);
    }
    var background := BackgroundDetections(bg, selected, crops, clip);
    var chunks := BuildChunkScores(g.probToToken, cfg.positiveMaps, g.nq, g.tokens);
    var grounding := GroundingDetections(chunks, g, Widths(cfg.positiveMaps), cfg.length, img);
    if grounding.Failure? {
      return Failure(grounding.error);
    }
    r := Success(Rerank(Append(Append(known.value, background), grounding.value), sam));
  }

  /** `infer` raises at its first failing stage, in source order: the class
      remapping, then the empty crop list, then the Grounding DINO stage;
      when all three go through it returns the reranked pool of known,
      background and Grounding DINO candidates. */
  lemma InferStages(rc: RcnnOutput, img: ImageInfo, g: GroundingOutput, cfg: NodConfig,
                    clip: Crop -> ClipPrediction, sam: Box -> SamPrediction)
    requires RcnnAligned(rc) && ImageOk(img) && GroundingOk(g, cfg)
    ensures var r := InferSpec(rc, img, g, cfg, clip, sam);
            var known := KnownDetections(rc, cfg.cocoToLvis);
            var selected := Where(CropMask(BackgroundBoxes(rc), img));
            var grounding := GroundingStage(g, cfg, img);
            && (known.Failure? ==> r == Failure(known.error))
            && (known.Success? && selected == [] ==> r == Failure(NoBackgroundCrop))
            && (known.Success? && selected != [] && grounding.Failure? ==> r == Failure(grounding.error))
            && (known.Success? && selected != [] && grounding.Success? ==> r.Success?)
  {
  }

  /** On a well-laid-out prompt list, `infer` returns its 300 detections as
      soon as every known class maps to LVIS, some background box has a
      non-empty crop and Grounding DINO yields at least 300 scores. */
  lemma InferSucceeds(rc: RcnnOutput, img: ImageInfo, g: GroundingOutput, cfg: NodConfig,
                      clip: Crop -> ClipPrediction, sam: Box -> SamPrediction)
    requires RcnnAligned(rc) && ImageOk(img) && GroundingOk(g, cfg)
    requires forall i :: 0 <= i < |rc.classes| && rc.classes[i] != BackgroundClass ==> rc.classes[i] in cfg.cocoToLvis
    requires exists i :: 0 <= i < |rc.classes| && rc.classes[i] == BackgroundClass &&
               CropNonEmpty(CropOf(rc.boxes[i], img.width, img.height, img.newWidth, img.newHeight), img.newWidth, img.newHeight)
    requires cfg.length > 0 && UniformChunks(Widths(cfg.positiveMaps), cfg.length)
    requires g.nq * SumNat(Widths(cfg.positiveMaps)) >= TopKCount
    ensures InferSpec(rc, img, g, cfg, clip, sam).Success?
  {
    KnownDetectionsOutcome(rc, cfg.cocoToLvis);
    var i :| 0 <= i < |rc.classes| && rc.classes[i] == BackgroundClass &&
               CropNonEmpty(CropOf(rc.boxes[i], img.width, img.height, img.newWidth, img.newHeight), img.newWidth, img.newHeight);
    BackgroundCropKept(rc, img, i);
    GroundingStageSucceeds(g, cfg, img);
    InferStages(rc, img, g, cfg, clip, sam);
  }

  /** A background box with a non-empty crop makes the crop list non-empty. */
  lemma BackgroundCropKept(rc: RcnnOutput, img: ImageInfo, i: nat)
    requires RcnnAligned(rc) && ImageOk(img)
    requires i < |rc.classes| && rc.classes[i] == BackgroundClass
    requires CropNonEmpty(CropOf(rc.boxes[i], img.width, img.height, img.newWidth, img.newHeight), img.newWidth, img.newHeight)
    ensures Where(CropMask(BackgroundBoxes(rc), img)) != []
  {
    var bi := BackgroundIdx(rc.classes);
    SplitPartition(rc.classes, i);
    var k :| 0 <= k < |bi| && bi[k] == i;
    var bg := BackgroundBoxes(rc);
    assert bg[k] == rc.boxes[i];
    SelectedCropsSpec(bg, img, k);
  }

  lemma GroundingStageSucceeds(g: GroundingOutput, cfg: NodConfig, img: ImageInfo)
    requires GroundingOk(g, cfg)
    requires cfg.length > 0 && UniformChunks(Widths(cfg.positiveMaps), cfg.length)
    requires g.nq * SumNat(Widths(cfg.positiveMaps)) >= TopKCount
    ensures GroundingStage(g, cfg, img).Success?
  {
    GroundingSucceeds(ChunkScores(g.probToToken, cfg.positiveMaps, g.nq, g.tokens), g,
                      Widths(cfg.positiveMaps), cfg.length, img);
  }

  // ---------------------------------------------------------------------
  // Visualisation filter

  /** `boxes[score_mask]`, `scores[score_mask]`, `labels[score_mask]` with
      `score_mask = scores >= confidence_threshold`. */
  function VisibleDetections(d: Detections, threshold: real): (r: Detections)
    requires Aligned(d)
    ensures Aligned(r) && |r.scores| <= |d.scores|
    ensures forall k :: 0 <= k < |r.scores| ==> r.scores[k] >= threshold
  {
    var keep := Where(ThresholdMask(d.scores, threshold));
    Detections(Gather(d.boxes, keep), Gather(d.scores, keep), Gather(d.labels, keep))
  }

  /** The filter keeps every detection at or above the threshold, as a whole
      (box, score and label together). */
  lemma VisibleDetectionsSpec(d: Detections, threshold: real, i: nat)
    requires Aligned(d) && i < |d.scores| && d.scores[i] >= threshold
    ensures var r := VisibleDetections(d, threshold);
            exists k :: 0 <= k < |r.scores| && r.boxes[k] == d.boxes[i] && r.scores[k] == d.scores[i] && r.labels[k] == d.labels[i]
  {
    var keep := Where(ThresholdMask(d.scores, threshold));
    ThresholdKeeps(d.scores, threshold, i);
    var k :| 0 <= k < |keep| && keep[k] == i;
    var r := VisibleDetections(d, threshold);
    assert r.boxes[k] == d.boxes[i] && r.scores[k] == d.scores[i] && r.labels[k] == d.labels[i];
  }

  /** The filtered detections are exactly the input triples at or above the
      threshold, each once, in input order: `keep` lists their input
      positions, strictly increasing. */
  lemma VisibleDetectionsExact(d: Detections, threshold: real) returns (keep: seq<nat>)
    requires Aligned(d)
    ensures StrictlyIncreasing(keep) && AllBelow(keep, |d.scores|)
    ensures forall i: nat :: i in keep <==> i < |d.scores| && d.scores[i] >= threshold
    ensures var r := VisibleDetections(d, threshold);
            && |r.scores| == |keep|
            && forall k :: 0 <= k < |keep| ==>
                 r.boxes[k] == d.boxes[keep[k]] && r.scores[k] == d.scores[keep[k]] && r.labels[k] == d.labels[keep[k]]
  {
    keep := Where(ThresholdMask(d.scores, threshold));
    forall i: nat ensures i in keep <==> i < |d.scores| && d.scores[i] >= threshold {
      ThresholdKeeps(d.scores, threshold, i);
    }
  }
}
