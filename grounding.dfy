/** Grounding DINO score bookkeeping in `NOD.infer`: per-prompt-chunk
    query × category scores, their column-wise concatenation, the flattening
    `topk` works on, and the `//` / `%` decoding of a flat index back into a
    query, a category column and a prompt chunk. */
module Grounding {
  import opened SeqUtil

  type Matrix = seq<seq<real>>

  predicate IsMatrix(m: Matrix, rows: nat, cols: nat) {
    |m| == rows && forall r :: 0 <= r < rows ==> |m[r]| == cols
  }

  function Dot(u: seq<real>, v: seq<real>): real
    requires |u| == |v|
  {
    if u == [] then 0.0 else Dot(u[..|u| - 1], v[..|v| - 1]) + u[|u| - 1] * v[|v| - 1]
  }

  /** `a @ b.T` for an `n × t` matrix `a` and an `m × t` matrix `b`. */
  function MatMulT(a: Matrix, b: Matrix, t: nat): (r: Matrix)
    requires IsMatrix(a, |a|, t) && IsMatrix(b, |b|, t)
    ensures IsMatrix(r, |a|, |b|)
  {
    seq(|a|, q requires 0 <= q < |a| =>
      seq(|b|, c requires 0 <= c < |b| => Dot(a[q], b[c])))
  }

  /** Grounding DINO's per-prompt outputs: for each prompt chunk, query ×
      token probabilities and that chunk's category × token positive map. */
  predicate GroundingShaped(probToToken: seq<Matrix>, positiveMaps: seq<Matrix>, nq: nat, t: nat) {
    && |probToToken| == |positiveMaps|
    && (forall b :: 0 <= b < |probToToken| ==> IsMatrix(probToToken[b], nq, t))
    && (forall b :: 0 <= b < |positiveMaps| ==> IsMatrix(positiveMaps[b], |positiveMaps[b]|, t))
  }

  /** The per-chunk score matrices, `prob_to_token[i] @ positive_map_list[i].T`. */
  function ChunkScores(probToToken: seq<Matrix>, positiveMaps: seq<Matrix>, nq: nat, t: nat): (r: seq<Matrix>)
    requires GroundingShaped(probToToken, positiveMaps, nq, t)
    ensures |r| == |probToToken|
    ensures forall b :: 0 <= b < |r| ==> IsMatrix(r[b], nq, |positiveMaps[b]|)
    ensures ChunksShaped(r, nq, Widths(positiveMaps))
  {
    var r := seq(|probToToken|, b requires 0 <= b < |probToToken| => MatMulT(probToToken[b], positiveMaps[b], t));
    assert forall k, q :: 0 <= k < |r| && 0 <= q < nq ==> |r[k][q]| == |positiveMaps[k]| by {
      forall k, q | 0 <= k < |r| && 0 <= q < nq ensures |r[k][q]| == |positiveMaps[k]| {
        assert IsMatrix(r[k], nq, |positiveMaps[k]|);
      }
    }
    r
  }

  /** Every chunk is an `nq × widths[k]` matrix. */
  predicate ChunksShaped(chunks: seq<Matrix>, nq: nat, widths: seq<nat>) {
    && |chunks| == |widths|
    && (forall k :: 0 <= k < |chunks| ==> |chunks[k]| == nq)
    && (forall k, r :: 0 <= k < |chunks| && 0 <= r < nq ==> |chunks[k][r]| == widths[k])
  }

  /** The loop building `prob_to_label_list`, one matrix per prompt chunk. */
  method BuildChunkScores(probToToken: seq<Matrix>, positiveMaps: seq<Matrix>, nq: nat, t: nat)
    returns (chunks: seq<Matrix>)
    requires GroundingShaped(probToToken, positiveMaps, nq, t)
    ensures chunks == ChunkScores(probToToken, positiveMaps, nq, t)
  {
    chunks := [];
    var i := 0;
    while i < |probToToken|
      invariant 0 <= i <= |probToToken|
      invariant chunks == ChunkScores(probToToken, positiveMaps, nq, t)[..i]
    {
      chunks := chunks + [MatMulT(probToToken[i], positiveMaps[i], t)];
      i := i + 1;
    }
  }

  /** `torch.cat(chunks, dim=1)`: row `q` is the rows `q` of every chunk, side by side. */
  function ConcatColumns(chunks: seq<Matrix>, nq: nat): (r: Matrix)
    requires forall b :: 0 <= b < |chunks| ==> |chunks[b]| == nq
    ensures |r| == nq
  {
    seq(nq, q requires 0 <= q < nq => Concat(seq(|chunks|, b requires 0 <= b < |chunks| => chunks[b][q])))
  }

  /** Column widths of the chunks, i.e. the number of categories per prompt. */
  function Widths(positiveMaps: seq<Matrix>): seq<nat> {
    Lengths(positiveMaps)
  }

  /** Column `c` of chunk `b` lands at column `Offset(b) + c` of every row,
      and every row is as wide as all chunks together. */
  lemma ConcatColumnsAt(chunks: seq<Matrix>, nq: nat, widths: seq<nat>, q: nat, b: nat, c: nat)
    requires |widths| == |chunks|
    requires forall k :: 0 <= k < |chunks| ==> |chunks[k]| == nq
    requires forall k, r :: 0 <= k < |chunks| && 0 <= r < nq ==> |chunks[k][r]| == widths[k]
    requires q < nq && b < |chunks| && c < widths[b]
    ensures |ConcatColumns(chunks, nq)[q]| == SumNat(widths)
    ensures Offset(widths, b) + c < SumNat(widths)
    ensures ConcatColumns(chunks, nq)[q][Offset(widths, b) + c] == chunks[b][q][c]
  {
    var row := seq(|chunks|, k requires 0 <= k < |chunks| => chunks[k][q]);
    assert ConcatColumns(chunks, nq)[q] == Concat(row);
    assert Lengths(row) == widths by {
      forall k | 0 <= k < |row| ensures Lengths(row)[k] == widths[k] {
        assert row[k] == chunks[k][q];
      }
    }
    ConcatIndex(row, b, c);
  }

  /** Every row of the concatenation is as wide as all chunks together. */
  lemma ConcatColumnsShape(chunks: seq<Matrix>, nq: nat, widths: seq<nat>)
    requires |widths| == |chunks|
    requires forall k :: 0 <= k < |chunks| ==> |chunks[k]| == nq
    requires forall k, r :: 0 <= k < |chunks| && 0 <= r < nq ==> |chunks[k][r]| == widths[k]
    ensures IsMatrix(ConcatColumns(chunks, nq), nq, SumNat(widths))
  {
    forall q | 0 <= q < nq ensures |ConcatColumns(chunks, nq)[q]| == SumNat(widths) {
      var row := seq(|chunks|, k requires 0 <= k < |chunks| => chunks[k][q]);
      assert ConcatColumns(chunks, nq)[q] == Concat(row);
      assert Lengths(row) == widths by {
        forall k | 0 <= k < |row| ensures Lengths(row)[k] == widths[k] {
          assert row[k] == chunks[k][q];
        }
      }
      ConcatLength(row);
    }
  }

  /** `m.view(-1)`: the rows of an `rows × cols` matrix laid end to end. */
  function Flatten(m: Matrix, rows: nat, cols: nat): (r: seq<real>)
    requires IsMatrix(m, rows, cols)
    ensures |r| == rows * cols
  {
    ConcatLength(m);
    OffsetConstant(Lengths(m), cols, rows);
    assert Lengths(m)[..rows] == Lengths(m);
    Concat(m)
  }

  /** Blocks of one common length `w` start at multiples of `w`. */
  lemma {:induction false} OffsetConstant(lens: seq<nat>, w: nat, b: nat)
    requires b <= |lens| && forall i :: 0 <= i < |lens| ==> lens[i] == w
    ensures Offset(lens, b) == b * w
    decreases b
  {
    if b > 0 {
      OffsetConstant(lens, w, b - 1);
      assert lens[..b][..b - 1] == lens[..b - 1];
      MulSucc(b - 1, w);
    }
  }

  /** For a flat index below `rows * cols`, `f // cols` is a valid row,
      `f % cols` a valid column, and the two recompose to `f`. */
  lemma DecodeBounds(f: nat, rows: nat, cols: nat)
    requires cols > 0 && f < rows * cols
    ensures f / cols < rows && f % cols < cols
    ensures (f / cols) * cols + f % cols == f
  {
    var q := f / cols;
    if q >= rows {
      MulMono(rows, q, cols);
      assert false;
    }
  }

  lemma MulMono(a: nat, b: nat, c: nat)
    requires a <= b
    ensures a * c <= b * c
  {
  }

  /** Encoding a (row, column) pair and decoding it again gives the pair back. */
  lemma EncodeDecode(q: nat, c: nat, rows: nat, cols: nat)
    requires q < rows && c < cols
    ensures q * cols + c < rows * cols
    ensures (q * cols + c) / cols == q && (q * cols + c) % cols == c
  {
    MulMono(q + 1, rows, cols);
    DivModOf(q, c, cols);
  }

  lemma DivModOf(q: nat, c: nat, cols: nat)
    requires c < cols
    ensures (q * cols + c) / cols == q && (q * cols + c) % cols == c
  {
    var f := q * cols + c;
    var q', c' := f / cols, f % cols;
    assert f == q' * cols + c';
    if q' < q {
      MulMono(q' + 1, q, cols);
    } else if q' > q {
      MulMono(q + 1, q', cols);
    }
  }

  /** The flat score at `q * cols + c` is the matrix entry it came from. */
  lemma FlattenAt(m: Matrix, rows: nat, cols: nat, q: nat, c: nat)
    requires IsMatrix(m, rows, cols) && q < rows && c < cols
    ensures q * cols + c < rows * cols && Flatten(m, rows, cols)[q * cols + c] == m[q][c]
  {
    EncodeDecode(q, c, rows, cols);
    ConcatIndex(m, q, c);
    OffsetConstant(Lengths(m), cols, q);
  }

  /** Every chunk but the last holds exactly `length` categories, and the
      last at most `length`: the layout `class_len_per_prompt` describes. */
  predicate UniformChunks(widths: seq<nat>, length: nat) {
    && |widths| > 0
    && (forall b :: 0 <= b < |widths| - 1 ==> widths[b] == length)
    && widths[|widths| - 1] <= length
  }

  lemma {:induction false} OffsetUniform(widths: seq<nat>, length: nat, b: nat)
    requires UniformChunks(widths, length) && b < |widths|
    ensures Offset(widths, b) == b * length
    decreases b
  {
    if b > 0 {
      OffsetUniform(widths, length, b - 1);
      assert widths[..b][..b - 1] == widths[..b - 1];
      assert Offset(widths, b) == Offset(widths, b - 1) + widths[b - 1];
      MulSucc(b - 1, length);
    }
  }

  lemma TotalUniform(widths: seq<nat>, length: nat)
    requires UniformChunks(widths, length)
    ensures SumNat(widths) == Offset(widths, |widths| - 1) + widths[|widths| - 1]
  {
    assert widths[..|widths|] == widths;
    assert widths[..|widths| - 1] == widths[..|widths|][..|widths| - 1];
  }

  /** Under that layout a category column `col` belongs to prompt chunk
      `col // length`, inside that chunk's column range, at column
      `col - chunk * length` of the chunk. */
  lemma ChunkOfLabel(widths: seq<nat>, length: nat, col: nat)
    requires length > 0 && UniformChunks(widths, length) && col < SumNat(widths)
    ensures col / length < |widths|
    ensures Offset(widths, col / length) == (col / length) * length
    ensures Offset(widths, col / length) <= col < Offset(widths, col / length) + widths[col / length]
  {
    var n := |widths|;
    TotalUniform(widths, length);
    OffsetUniform(widths, length, n - 1);
    MulSucc(n - 1, length);
    DecodeBounds(col, n, length);
    var k := col / length;
    OffsetUniform(widths, length, k);
    if k < n - 1 {
      assert widths[k] == length;
    }
  }

  lemma MulSucc(a: nat, b: nat)
    ensures (a + 1) * b == a * b + b
  {
  }
}
