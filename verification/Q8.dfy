/** The Q8 matrix-vector product: both kernels and the row chunks (src/gpu.rs) and the row quantiser
    (src/backend/wgpu_q8.rs), over the reals. */
module Q8 {
  import opened Lanes
  import opened Nonlinear
  import opened Words
  import opened Wrappers

  // ---------------------------------------------------------------- what a weight byte stands for

  /** `unpack4x8snorm(…) * 127.0`: a signed byte over 127, never below -1. */
  function Snorm(v: I8): real {
    var x := v as real / 127.0;
    (if x < -1.0 then -1.0 else x) * 127.0
  }

  /** The factor that the scalar or the vec4 kernel multiplies an input by. */
  function Factor(v: I8, vec4: bool): real {
    if vec4 then Snorm(v) else v as real
  }

  /** One product. */
  function Term(x: real, v: I8, vec4: bool): real {
    x * Factor(v, vec4)
  }

  /** The kernels agree on every byte but -128. */
  lemma KernelsAgree(v: I8)
    ensures Factor(v, true) == Factor(v, false) <==> v != -128
  {
    var x := v as real / 127.0;
    assert x * 127.0 == v as real;
  }

  // ---------------------------------------------------------------- products

  /** The product of the inputs with a row of signed bytes. */
  function Product(input: seq<real>, row: seq<I8>, n: nat, vec4: bool): real
    requires n <= |input| && n <= |row|
  {
    if n == 0 then 0.0 else Product(input, row, n - 1, vec4) + Term(input[n - 1], row[n - 1], vec4)
  }

  /** One word's share, added one product at a time. */
  function WordSum(input: seq<real>, row: seq<I8>, w: nat, vec4: bool): real
    requires 4 * w + 4 <= |input| && 4 * w + 4 <= |row|
  {
    Term(input[4 * w], row[4 * w], vec4) + Term(input[4 * w + 1], row[4 * w + 1], vec4)
    + Term(input[4 * w + 2], row[4 * w + 2], vec4) + Term(input[4 * w + 3], row[4 * w + 3], vec4)
  }

  function WordSums(input: seq<real>, row: seq<I8>, words: nat, vec4: bool): (sums: seq<real>)
    requires 4 * words <= |input| && 4 * words <= |row|
    ensures |sums| == words
  {
    seq(words, w requires 0 <= w < words => WordSum(input, row, w, vec4))
  }

  lemma {:induction false} WordsAreProducts(input: seq<real>, row: seq<I8>, words: nat, vec4: bool)
    requires 4 * words <= |input| && 4 * words <= |row|
    ensures Fold(Plus, 0.0, WordSums(input, row, words, vec4)) == Product(input, row, 4 * words, vec4)
  {
    hide Factor, Term;
    if words > 0 {
      var n := words - 1;
      WordsAreProducts(input, row, n, vec4);
      assert WordSums(input, row, words, vec4)[..n] == WordSums(input, row, n, vec4);
      FourMore(input, row, 4 * n, vec4);
    }
  }

  lemma FourMore(input: seq<real>, row: seq<I8>, n: nat, vec4: bool)
    requires n + 4 <= |input| && n + 4 <= |row|
    ensures Product(input, row, n + 4, vec4)
         == Product(input, row, n, vec4)
            + Term(input[n], row[n], vec4) + Term(input[n + 1], row[n + 1], vec4)
            + Term(input[n + 2], row[n + 2], vec4) + Term(input[n + 3], row[n + 3], vec4)
  {
    hide Factor, Term;
    assert Product(input, row, n + 2, vec4) == Product(input, row, n + 1, vec4) + Term(input[n + 1], row[n + 1], vec4);
    assert Product(input, row, n + 4, vec4) == Product(input, row, n + 3, vec4) + Term(input[n + 3], row[n + 3], vec4);
  }

  // ---------------------------------------------------------------- one work group

  /** One lane's words: `lane`, `lane + 64`, … */
  method LaneWords(input: seq<real>, qweight: seq<U32>, base: nat, ghost row: seq<I8>, fullWords: nat, lane: nat,
      vec4: bool) returns (sum: real)
    requires lane < LANES && 4 * fullWords <= |input| && 4 * fullWords <= |row| && Packed(qweight, base, row)
    ensures sum == Partials(Plus, 0.0, WordSums(input, row, fullWords, vec4))[lane]
  {
    hide Partials, Factor, Term, UnpackI8, Packed, PackedUpto;
    ghost var sums := WordSums(input, row, fullWords, vec4);
    PackedFits(qweight, base, row);
    sum := 0.0;
    var w := lane;
    LaneStart(Plus, 0.0, sums, lane);
    while w < fullWords
      invariant w % LANES == lane
      invariant sum == Partials(Plus, 0.0, sums[..Upto(w, fullWords)])[lane]
    {
      var word, at := qweight[base + w], 4 * w;
      FourBytes(qweight, base, row, w);
      LaneStep(Plus, 0.0, sums, lane, w);
      sum := sum + Term(input[at], UnpackI8(word, 0), vec4);
      sum := sum + Term(input[at + 1], UnpackI8(word, 1), vec4);
      sum := sum + Term(input[at + 2], UnpackI8(word, 2), vec4);
      sum := sum + Term(input[at + 3], UnpackI8(word, 3), vec4);
      NoneBetween(w, lane);
      w := w + LANES;
    }
    assert sums[..fullWords] == sums;
  }

  lemma PackedFits(qweight: seq<U32>, base: nat, row: seq<I8>)
    requires Packed(qweight, base, row)
    ensures base + (|row| + 3) / 4 <= |qweight|
  {
  }

  lemma FourBytes(qweight: seq<U32>, base: nat, row: seq<I8>, w: nat)
    requires Packed(qweight, base, row) && 4 * w + 4 <= |row|
    ensures base + w < |qweight|
    ensures var word := qweight[base + w];
            && UnpackI8(word, 0) == row[4 * w] && UnpackI8(word, 1) == row[4 * w + 1]
            && UnpackI8(word, 2) == row[4 * w + 2] && UnpackI8(word, 3) == row[4 * w + 3]
  {
    hide UnpackI8, Packed;
    ByteAt(qweight, base, row, w, 0);
    ByteAt(qweight, base, row, w, 1);
    ByteAt(qweight, base, row, w, 2);
    ByteAt(qweight, base, row, w, 3);
  }

  lemma ByteAt(qweight: seq<U32>, base: nat, row: seq<I8>, w: nat, k: nat)
    requires Packed(qweight, base, row) && k < 4 && 4 * w + k < |row|
    ensures base + w < |qweight| && UnpackI8(qweight[base + w], k) == row[4 * w + k]
  {
    hide UnpackI8;
    UnpackPacked(qweight, base, row, 4 * w + k);
    assert (4 * w + k) / 4 == w && (4 * w + k) % 4 == k;
  }

  /** The up to three inputs after the last full word (scalar kernel, lane 0). */
  method Tail(input: seq<real>, qweight: seq<U32>, base: nat, ghost row: seq<I8>, sum: real) returns (r: real)
    requires |input| == |row| && Packed(qweight, base, row)
    ensures r == sum + (Product(input, row, |row|, false) - Product(input, row, |row| / 4 * 4, false))
  {
    hide Factor, Term, UnpackI8, Packed, PackedUpto;
    var fullWords, tail := |input| / 4, |input| % 4;
    r := sum;
    PackedFits(qweight, base, row);
    if tail != 0 {
      var word, at := qweight[base + fullWords], fullWords * 4;
      forall l | 0 <= l < tail ensures UnpackI8(word, l) == row[at + l] {
        UnpackPacked(qweight, base, row, at + l);
      }
      if tail >= 1 {
        r := r + Term(input[at], UnpackI8(word, 0), false);
      }
      if tail >= 2 {
        r := r + Term(input[at + 1], UnpackI8(word, 1), false);
        assert Product(input, row, at + 2, false) == Product(input, row, at + 1, false) +
            Term(input[at + 1], row[at + 1], false);
      }
      if tail >= 3 {
        r := r + Term(input[at + 2], UnpackI8(word, 2), false);
      }
    }
  }

  /** One work group: 64 lanes, the tail, the tree and the scale compute the scaled product of its row. */
  method RowKernel(input: seq<real>, qweight: seq<U32>, base: nat, ghost row: seq<I8>, scale: real, vec4: bool)
      returns (r: real)
    requires |input| == |row| && Packed(qweight, base, row) && (vec4 ==> |row| % 4 == 0)
    ensures r == Product(input, row, |row|, vec4) * scale
  {
    hide Partials, Fold, Product, WordSums, Packed, PackedUpto, Total, Reducible;
    var partial := new real[LANES];
    var fullWords := |input| / 4;
    ghost var sums := Partials(Plus, 0.0, WordSums(input, row, fullWords, vec4));
    ghost var rest := Product(input, row, |row|, vec4) - Product(input, row, 4 * fullWords, vec4);
    for lane := 0 to LANES
      invariant forall l | 0 <= l < lane :: partial[l] == if l == 0 then sums[0] + rest else sums[l]
    {
      var sum := LaneWords(input, qweight, base, row, fullWords, lane, vec4);
      if lane == 0 && !vec4 {
        sum := Tail(input, qweight, base, row, sum);
      }
      partial[lane] := sum;
    }
    assert partial[..] == sums[0 := Plus(sums[0], rest)];
    PlusReducible();
    TreeReduce(Plus, 0.0, partial);
    TotalUpdate(Plus, 0.0, sums, 0, rest);
    LanesThenTree(Plus, 0.0, WordSums(input, row, fullWords, vec4));
    WordsAreProducts(input, row, fullWords, vec4);
    r := partial[0] * scale;
  }

  // ---------------------------------------------------------------- chunks of rows

  /** A run of rows that one storage buffer holds. */
  datatype Chunk = Chunk(offset: nat, rows: nat)

  /** The chunks follow one another from row 0 to `end`. */
  ghost predicate Tile(chunks: seq<Chunk>, end: nat) {
    if |chunks| == 0 then end == 0
    else
      var last := chunks[|chunks| - 1];
      0 < last.rows && last.offset + last.rows == end && Tile(chunks[..|chunks| - 1], last.offset)
  }

  method RowChunks(outFeatures: nat, rowBytes: nat, maxBytes: nat) returns (chunks: seq<Chunk>)
    requires 0 < rowBytes <= maxBytes
    ensures Tile(chunks, outFeatures) && forall c | c in chunks :: c.rows * rowBytes <= maxBytes
  {
    var fit := maxBytes / rowBytes;
    assert fit * rowBytes <= maxBytes;
    MulSteps(fit, 0, rowBytes);
    var perChunk := if fit < 1 then 1 else fit;
    var offset := 0;
    chunks := [];
    while offset < outFeatures
      invariant offset <= outFeatures && Tile(chunks, offset) && forall c | c in chunks :: c.rows * rowBytes <= maxBytes
    {
      var rows := if perChunk < outFeatures - offset then perChunk else outFeatures - offset;
      MulSteps(rows, perChunk, rowBytes);
      assert (chunks + [Chunk(offset, rows)])[..|chunks|] == chunks;
      chunks := chunks + [Chunk(offset, rows)];
      offset := offset + rows;
    }
  }

  predicate Covers(c: Chunk, row: nat) {
    c.offset <= row < c.offset + c.rows
  }

  /** Every row belongs to exactly one chunk. */
  lemma {:induction false} CoveredOnce(chunks: seq<Chunk>, end: nat, row: nat)
    requires Tile(chunks, end)
    ensures row < end ==> exists i | 0 <= i < |chunks| :: Covers(chunks[i], row)
    ensures forall i, j | 0 <= i < |chunks| && 0 <= j < |chunks| && Covers(chunks[i], row) && Covers(chunks[j], row) ::
            i == j
    ensures row >= end ==> forall i | 0 <= i < |chunks| :: !Covers(chunks[i], row)
  {
    if |chunks| > 0 {
      var n := |chunks| - 1;
      CoveredOnce(chunks[..n], chunks[n].offset, row);
      if row < chunks[n].offset {
        var i :| 0 <= i < |chunks[..n]| && Covers(chunks[..n][i], row);
        assert Covers(chunks[i], row);
      } else if row < end {
        assert Covers(chunks[n], row);
      }
      forall i | 0 <= i < n ensures chunks[i] == chunks[..n][i] {}
    }
  }

  // ---------------------------------------------------------------- the whole product

  datatype Q8Weight = Q8Weight(qweight: seq<I8>, scales: seq<real>, outFeatures: nat, inFeatures: nat) {
    /** `validate_q8_weight` */
    predicate Valid() {
      |qweight| == outFeatures * inFeatures && |scales| == outFeatures && 0 < inFeatures && 0 < outFeatures
    }

    function Row(o: nat): (row: seq<I8>)
      requires Valid() && o < outFeatures
      ensures |row| == inFeatures
    {
      MulSteps(o, outFeatures, inFeatures);
      qweight[o * inFeatures..o * inFeatures + inFeatures]
    }

    /** `in_features.div_ceil(4)` */
    function WordsPerRow(): nat {
      (inFeatures + 3) / 4
    }
  }

  lemma SliceBounds(offset: nat, rows: nat, out: nat, n: nat)
    requires offset + rows <= out
    ensures offset * n + rows * n <= out * n
  {
    MulSteps(offset + rows, out, n);
    assert (offset + rows) * n == offset * n + rows * n;
  }

  lemma SubSlice(xs: seq<I8>, a: nat, len: nat, b: nat, n: nat)
    requires a + len <= |xs| && b + n <= len
    ensures xs[a..a + len][b..b + n] == xs[a + b..a + b + n]
  {
    var x, y := xs[a..a + len][b..b + n], xs[a + b..a + b + n];
    forall k | 0 <= k < n ensures x[k] == y[k] {
      assert x[k] == xs[a..a + len][b + k] == xs[a + (b + k)];
    }
  }

  /** The bytes of a chunk's rows. */
  function ChunkBytes(weight: Q8Weight, offset: nat, rows: nat): (bytes: seq<I8>)
    requires weight.Valid() && offset + rows <= weight.outFeatures
    ensures |bytes| == rows * weight.inFeatures
  {
    SliceBounds(offset, rows, weight.outFeatures, weight.inFeatures);
    weight.qweight[offset * weight.inFeatures..offset * weight.inFeatures + rows * weight.inFeatures]
  }

  lemma RowInChunk(weight: Q8Weight, offset: nat, rows: nat, r: nat)
    requires weight.Valid() && offset + rows <= weight.outFeatures && r < rows
    ensures r * weight.inFeatures + weight.inFeatures <= rows * weight.inFeatures
    ensures ChunkBytes(weight, offset, rows)[r * weight.inFeatures..r * weight.inFeatures + weight.inFeatures] ==
            weight.Row(offset + r)
  {
    var n := weight.inFeatures;
    SliceBounds(offset, rows, weight.outFeatures, n);
    MulSteps(r, rows, n);
    assert (offset + r) * n == offset * n + r * n;
    SubSlice(weight.qweight, offset * n, rows * n, r * n, n);
  }

  lemma CastRow(weight: Q8Weight, offset: nat, rows: nat, r: nat)
    requires weight.Valid() && offset + rows <= weight.outFeatures && r < rows && weight.inFeatures % 4 == 0
    ensures |ChunkBytes(weight, offset, rows)| % 4 == 0
    ensures Packed(Cast(ChunkBytes(weight, offset, rows)), r * weight.WordsPerRow(), weight.Row(offset + r))
  {
    hide Packed, Cast, ChunkBytes;
    var n, wpr := weight.inFeatures, weight.WordsPerRow();
    FourTimes(rows, wpr, n);
    FourTimes(r, wpr, n);
    RowInChunk(weight, offset, rows, r);
    CastPacks(ChunkBytes(weight, offset, rows), r * wpr, n);
  }

  lemma FourTimes(k: nat, wpr: nat, n: nat)
    requires n == 4 * wpr
    ensures k * n == 4 * (k * wpr) && (k * n) % 4 == 0
  {
    assert k * n == 4 * (k * wpr);
  }

  /** The words of a chunk: bytes read as words when rows end on words, rows packed one by one otherwise. */
  method ChunkWords(weight: Q8Weight, offset: nat, rows: nat) returns (words: seq<U32>)
    requires weight.Valid() && offset + rows <= weight.outFeatures
    ensures forall r | 0 <= r < rows :: Packed(words, r * weight.WordsPerRow(), weight.Row(offset + r))
  {
    hide Packed, Cast, ChunkBytes;
    if weight.inFeatures % 4 == 0 {
      FourTimes(rows, weight.WordsPerRow(), weight.inFeatures);
      words := Cast(ChunkBytes(weight, offset, rows));
      forall r | 0 <= r < rows ensures Packed(words, r * weight.WordsPerRow(), weight.Row(offset + r)) {
        CastRow(weight, offset, rows, r);
      }
    } else {
      words := PackRows(weight, offset, rows);
    }
  }

  /** The first `n` rows of the chunk are packed one after another. */
  ghost predicate RowsPacked(words: seq<U32>, weight: Q8Weight, offset: nat, n: nat)
    requires weight.Valid() && offset + n <= weight.outFeatures
  {
    forall k | 0 <= k < n :: Packed(words, k * weight.WordsPerRow(), weight.Row(offset + k))
  }

  method PackRows(weight: Q8Weight, offset: nat, rows: nat) returns (words: seq<U32>)
    requires weight.Valid() && offset + rows <= weight.outFeatures
    ensures RowsPacked(words, weight, offset, rows)
  {
    hide Packed, RowsPacked, Q8Weight.Row;
    var wpr := weight.WordsPerRow();
    var packed := new U32[rows * wpr](_ => U32(0));
    assert RowsPacked(packed[..], weight, offset, 0) by { NoRows(packed[..], weight, offset); }
    for r := 0 to rows
      invariant RowsPacked(packed[..], weight, offset, r)
    {
      MulSteps(r, rows, wpr);
      ghost var before := packed[..];
      PackRow(weight.Row(offset + r), packed, r * wpr);
      RowsFrame(before, packed[..], weight, offset, r);
    }
    words := packed[..];
  }

  lemma NoRows(words: seq<U32>, weight: Q8Weight, offset: nat)
    requires weight.Valid() && offset <= weight.outFeatures
    ensures RowsPacked(words, weight, offset, 0)
  {
  }

  lemma RowsFrame(before: seq<U32>, after: seq<U32>, weight: Q8Weight, offset: nat, r: nat)
    requires weight.Valid() && offset + r < weight.outFeatures && |after| == |before| &&
             RowsPacked(before, weight, offset, r)
    requires forall w | 0 <= w < |before| && w < r * weight.WordsPerRow() :: after[w] == before[w]
    requires Packed(after, r * weight.WordsPerRow(), weight.Row(offset + r))
    ensures RowsPacked(after, weight, offset, r + 1)
  {
    hide Packed, Q8Weight.Row;
    var wpr := weight.WordsPerRow();
    forall k | 0 <= k < r ensures Packed(after, k * wpr, weight.Row(offset + k)) {
      MulSteps(k, r, wpr);
      PackedFrame(before, after, k * wpr, weight.Row(offset + k));
    }
  }

  lemma PackedFrame(before: seq<U32>, after: seq<U32>, base: nat, row: seq<I8>)
    requires Packed(before, base, row) && |after| == |before|
    requires forall w | base <= w < base + (|row| + 3) / 4 && w < |before| :: after[w] == before[w]
    ensures Packed(after, base, row)
  {
    forall i | 0 <= i < |row| ensures Lane(after[base + i / 4], i % 4) == Unsigned(row[i]) {
      PackedAt(before, base, row, |row|, i);
    }
  }

  /** Every output is the scaled product of its row, whatever the width, the row count and the chunk limit. */
  method Matvec(weight: Q8Weight, input: seq<real>, maxChunkBytes: nat) returns (r: Option<seq<real>>)
    ensures r.Some? <==> weight.Valid() && |input| == weight.inFeatures && 4 * weight.WordsPerRow() <= maxChunkBytes
    ensures r.Some? ==> |r.value| == weight.outFeatures
    ensures r.Some? ==> forall o | 0 <= o < weight.outFeatures ::
              r.value[o] == Product(input, weight.Row(o), weight.inFeatures, weight.inFeatures % 4 ==
                  0) * weight.scales[o]
  {
    hide Packed, Product;
    var rowBytes := if 4 * weight.WordsPerRow() < 4 then 4 else 4 * weight.WordsPerRow();
    if !weight.Valid() || |input| != weight.inFeatures || rowBytes > maxChunkBytes {
      return None;
    }
    var chunks := RowChunks(weight.outFeatures, rowBytes, maxChunkBytes);
    var output := new real[weight.outFeatures](_ => 0.0);
    for k := 0 to |chunks|
      invariant Reached(chunks, k) <= weight.outFeatures
      invariant Done(weight, input, output[..], Reached(chunks, k))
    {
      TileStep(chunks, weight.outFeatures, k);
      RunChunk(weight, input, chunks[k], output);
    }
    TileStep(chunks, weight.outFeatures, |chunks|);
    r := Some(output[..]);
  }

  /** The first `n` outputs are the scaled products of their rows. */
  ghost predicate Done(weight: Q8Weight, input: seq<real>, output: seq<real>, n: nat)
    requires weight.Valid() && |input| == weight.inFeatures && |output| == weight.outFeatures && n <= weight.outFeatures
  {
    forall o | 0 <= o < n ::
        output[o] == Product(input, weight.Row(o), weight.inFeatures, weight.inFeatures % 4 == 0) * weight.scales[o]
  }

  /** One work group per row of the chunk. */
  method RunChunk(weight: Q8Weight, input: seq<real>, chunk: Chunk, output: array<real>)
    requires weight.Valid() && |input| == weight.inFeatures && output.Length == weight.outFeatures
    requires chunk.offset + chunk.rows <= weight.outFeatures && Done(weight, input, output[..], chunk.offset)
    modifies output
    ensures Done(weight, input, output[..], chunk.offset + chunk.rows)
  {
    hide Packed, Product, Q8Weight.Row;
    var vec4 := weight.inFeatures % 4 == 0;
    var words := ChunkWords(weight, chunk.offset, chunk.rows);
    for x := 0 to chunk.rows
      invariant Done(weight, input, output[..], chunk.offset + x)
    {
      var o := chunk.offset + x;
      var value := RowKernel(input, words, x * weight.WordsPerRow(), weight.Row(o), weight.scales[o], vec4);
      output[o] := value;
    }
  }

  // ---------------------------------------------------------------- the batched product

  /** One of several input rows that lie one after another. */
  function InputRow(input: seq<real>, rows: nat, width: nat, r: nat): (row: seq<real>)
    requires |input| == rows * width && r < rows
    ensures |row| == width
  {
    MulSteps(r, rows, width);
    input[r * width..r * width + width]
  }

  /** Output `o` of input row `r` is their scaled product. */
  ghost predicate BatchedAt(weight: Q8Weight, input: seq<real>, rows: nat, output: seq<real>, r: nat, o: nat)
    requires weight.Valid() && |input| == rows * weight.inFeatures && r < rows && o < weight.outFeatures
  {
    && r * weight.outFeatures + o < |output|
    && output[r * weight.outFeatures + o] ==
       Product(InputRow(input, rows, weight.inFeatures, r), weight.Row(o), weight.inFeatures, false) * weight.scales[o]
  }

  /** The sum of one cell, product by product. */
  method CellSum(weight: Q8Weight, input: seq<real>, rows: nat, r: nat, o: nat) returns (sum: real)
    requires weight.Valid() && |input| == rows * weight.inFeatures && r < rows && o < weight.outFeatures
    ensures sum == Product(InputRow(input, rows, weight.inFeatures, r), weight.Row(o), weight.inFeatures, false)
  {
    var xs, ws := InputRow(input, rows, weight.inFeatures, r), weight.Row(o);
    hide InputRow, Q8Weight.Row;
    sum := 0.0;
    for i := 0 to weight.inFeatures
      invariant sum == Product(xs, ws, i, false)
    {
      sum := sum + xs[i] * (ws[i] as real);
    }
  }

  /** The value belongs in cell `index`. */
  ghost predicate CellIs(weight: Q8Weight, input: seq<real>, rows: nat, index: nat, value: real)
    requires weight.Valid() && |input| == rows * weight.inFeatures
  {
    && index / weight.outFeatures < rows
    && value == Product(InputRow(input, rows, weight.inFeatures, index / weight.outFeatures),
                        weight.Row(index % weight.outFeatures), weight.inFeatures, false) *
                weight.scales[index % weight.outFeatures]
  }

  /** The CPU product over several input rows: cell `index` belongs to row `index / out`. */
  method BatchedProduct(weight: Q8Weight, input: seq<real>, rows: nat) returns (r: seq<real>)
    requires weight.Valid() && |input| == rows * weight.inFeatures
    ensures |r| == rows * weight.outFeatures
    ensures forall row, o | 0 <= row < rows && 0 <= o < weight.outFeatures :: BatchedAt(weight, input, rows, r, row, o)
  {
    hide Product, Q8Weight.Row, InputRow, BatchedAt, CellIs;
    var out := weight.outFeatures;
    var output := new real[rows * out](_ => 0.0);
    for index := 0 to rows * out
      invariant forall k | 0 <= k < index :: CellIs(weight, input, rows, k, output[k])
    {
      QuotientInside(index, out, rows);
      var sum := CellSum(weight, input, rows, index / out, index % out);
      var value := sum * weight.scales[index % out];
      CellProduct(weight, input, rows, index, sum, value);
      output[index] := value;
    }
    r := output[..];
    forall row, o | 0 <= row < rows && 0 <= o < out ensures BatchedAt(weight, input, rows, r, row, o) {
      CellOf(weight, input, rows, r, row, o);
    }
  }

  lemma CellProduct(weight: Q8Weight, input: seq<real>, rows: nat, index: nat, sum: real, value: real)
    requires weight.Valid() && |input| == rows * weight.inFeatures && index / weight.outFeatures < rows
    requires value == sum * weight.scales[index % weight.outFeatures]
    requires sum == Product(InputRow(input, rows, weight.inFeatures, index / weight.outFeatures),
                            weight.Row(index % weight.outFeatures), weight.inFeatures, false)
    ensures CellIs(weight, input, rows, index, value)
  {
    hide Product, Q8Weight.Row, InputRow;
  }

  lemma CellOf(weight: Q8Weight, input: seq<real>, rows: nat, output: seq<real>, r: nat, o: nat)
    requires weight.Valid() && |input| == rows * weight.inFeatures && r < rows && o < weight.outFeatures
    requires |output| == rows * weight.outFeatures
    requires forall k | 0 <= k < |output| :: CellIs(weight, input, rows, k, output[k])
    ensures BatchedAt(weight, input, rows, output, r, o)
  {
    hide Product, Q8Weight.Row, InputRow;
    MulSteps(r, rows, weight.outFeatures);
    DivUnique(r * weight.outFeatures + o, weight.outFeatures, r, o);
    assert CellIs(weight, input, rows, r * weight.outFeatures + o, output[r * weight.outFeatures + o]);
  }

  lemma QuotientInside(index: nat, out: nat, rows: nat)
    requires 0 < out && index < rows * out
    ensures index / out < rows
  {
    MulSteps(rows, index / out, out);
  }

  /** Without the byte -128 both kernels and the batched product give the same product of a row. */
  lemma {:induction false} SameProduct(input: seq<real>, row: seq<I8>, n: nat)
    requires n <= |input| && n <= |row| && forall i | 0 <= i < |row| :: row[i] != -128
    ensures Product(input, row, n, true) == Product(input, row, n, false)
  {
    hide Term;
    if n > 0 {
      SameProduct(input, row, n - 1);
      SameTerm(input[n - 1], row[n - 1]);
    }
  }

  lemma SameTerm(x: real, v: I8)
    requires v != -128
    ensures Term(x, v, true) == Term(x, v, false)
  {
    KernelsAgree(v);
  }

  /** Where the first `k` chunks end. */
  function Reached(chunks: seq<Chunk>, k: nat): nat
    requires k <= |chunks|
  {
    if k == 0 then 0 else chunks[k - 1].offset + chunks[k - 1].rows
  }

  lemma {:induction false} TileStep(chunks: seq<Chunk>, end: nat, k: nat)
    requires Tile(chunks, end) && k <= |chunks|
    ensures Tile(chunks[..k], Reached(chunks, k)) && Reached(chunks, k) <= end
    ensures k == |chunks| ==> Reached(chunks, k) == end
    ensures k < |chunks| ==> chunks[k].offset == Reached(chunks, k) && Reached(chunks, k + 1) <= end
    ensures k < |chunks| ==> Tile(chunks[..k + 1], Reached(chunks, k + 1))
  {
    var n := |chunks|;
    assert chunks[..n] == chunks;
    if k < n {
      var front := chunks[..n - 1];
      TileStep(front, chunks[n - 1].offset, if k < n - 1 then k else n - 1);
      assert front[..k] == chunks[..k];
      if k < n - 1 {
        assert front[..k + 1] == chunks[..k + 1];
      }
    }
  }

  // ---------------------------------------------------------------- the quantiser

  function Abs(x: real): real {
    if x < 0.0 then -x else x
  }

  /** `round`: to the nearest integer, halves away from zero. */
  function Round(x: real): int {
    if x < 0.0 then -(0.5 - x).Floor else (x + 0.5).Floor
  }

  function Clamp(n: int): I8
  {
    if n < -127 then -127 else if n > 127 then 127 else n
  }

  function MaxAbs(row: seq<real>): (m: real)
    ensures 0.0 <= m && forall i | 0 <= i < |row| :: Abs(row[i]) <= m
  {
    if |row| == 0 then 0.0
    else
      var m, x := MaxAbs(row[..|row| - 1]), Abs(row[|row| - 1]);
      if m < x then x else m
  }

  function ScaleOf(row: seq<real>): (scale: real)
    ensures scale > 0.0
  {
    if MaxAbs(row) == 0.0 then 1.0 else MaxAbs(row) / 127.0
  }

  /** Rounding a quotient that cannot exceed 127 never meets the clamp and is off by at most half a step. */
  lemma RoundedWithin(v: real, scale: real)
    requires scale > 0.0 && Abs(v) <= 127.0 * scale
    ensures var n := Round(v / scale);
            -127 <= n <= 127 && Clamp(n) == n && Half(v, scale, n)
  {
    hide Round;
    var x := v / scale;
    assert x * scale == v;
    CancelLe(x, 127.0, scale);
    CancelLe(-127.0, x, scale);
    RoundNear(x);
    var n := Round(x);
    StepOff(v, scale, x, n as real, x - n as real);
  }

  lemma RoundNear(x: real)
    ensures -0.5 <= x - Round(x) as real <= 0.5
    ensures -127.0 <= x <= 127.0 ==> -127 <= Round(x) <= 127
  {
  }

  lemma StepOff(v: real, scale: real, x: real, q: real, d: real)
    requires scale > 0.0 && x * scale == v && d == x - q && -0.5 <= d <= 0.5
    ensures Off(v, q, scale, scale / 2.0)
  {
    HalfStep(d, scale);
    Distribute(x, -q, scale);
    assert d * scale == v - scale * q;
  }

  lemma CancelLe(a: real, b: real, c: real)
    requires c > 0.0 && a * c <= b * c
    ensures a <= b
  {
    var d := b * c - a * c;
    assert (b - a) * c == d;
    assert b - a == d / c;
  }

  lemma NonNegative(a: real, b: real)
    requires a >= 0.0 && b >= 0.0
    ensures a * b >= 0.0
  {
  }

  lemma HalfStep(d: real, scale: real)
    requires -0.5 <= d <= 0.5 && scale > 0.0
    ensures Abs(d * scale) <= scale / 2.0
  {
    NonNegative(0.5 - d, scale);
    NonNegative(d + 0.5, scale);
    assert (0.5 - d) * scale == 0.5 * scale - d * scale && (d + 0.5) * scale == d * scale + 0.5 * scale;
  }

  /** A weight's byte is off by at most half a step. */
  ghost predicate Half(w: real, scale: real, q: I8) {
    q != -128 && Off(w, q as real, scale, scale / 2.0)
  }

  ghost predicate Off(w: real, q: real, scale: real, h: real) {
    Abs(w - scale * q) <= h
  }

  lemma MaxFits(row: seq<real>, i: nat)
    requires i < |row|
    ensures Abs(row[i]) <= 127.0 * ScaleOf(row)
  {
  }

  /** The quantised row: no weight is clamped, none becomes -128, and each is off by at most half a step. */
  method QuantizeRow(row: seq<real>) returns (q: seq<I8>, scale: real)
    ensures |q| == |row| && scale == ScaleOf(row)
    ensures forall i | 0 <= i < |row| :: q[i] == Round(row[i] / scale) && Half(row[i], scale, q[i])
  {
    hide Round, Clamp, ScaleOf, Half;
    var maximum := 0.0;
    for i := 0 to |row|
      invariant maximum == MaxAbs(row[..i])
    {
      assert row[..i + 1][..i] == row[..i];
      maximum := if maximum < Abs(row[i]) then Abs(row[i]) else maximum;
    }
    assert row[..|row|] == row;
    ScaleIs(row);
    scale := if maximum == 0.0 then 1.0 else maximum / 127.0;
    q := [];
    for i := 0 to |row|
      invariant |q| == i
      invariant forall k | 0 <= k < i :: q[k] == Round(row[k] / scale) && Half(row[k], scale, q[k])
    {
      MaxFits(row, i);
      RoundedWithin(row[i], scale);
      q := q + [Clamp(Round(row[i] / scale))];
    }
  }

  lemma ScaleIs(row: seq<real>)
    ensures ScaleOf(row) == if MaxAbs(row) == 0.0 then 1.0 else MaxAbs(row) / 127.0
  {
  }

  // ---------------------------------------------------------------- the error of the whole product

  /** The exact product. */
  function Exact(input: seq<real>, row: seq<real>, n: nat): real
    requires n <= |input| && n <= |row|
  {
    if n == 0 then 0.0 else Exact(input, row, n - 1) + input[n - 1] * row[n - 1]
  }

  function AbsSum(input: seq<real>, n: nat): real
    requires n <= |input|
  {
    if n == 0 then 0.0 else AbsSum(input, n - 1) + Abs(input[n - 1])
  }

  /** A scaled product `p` is within `h` per unit of input `s` of the exact product `e`. */
  ghost predicate Within(p: real, e: real, s: real, scale: real, h: real) {
    Abs(p * scale - e) <= h * s
  }

  lemma {:induction false} ProductNear(input: seq<real>, row: seq<real>, q: seq<I8>, scale: real, n: nat, vec4: bool)
    requires scale > 0.0 && |q| == |row| && n <= |input| && n <= |row|
    requires forall i | 0 <= i < |row| :: Half(row[i], scale, q[i])
    ensures Within(Product(input, q, n, vec4), Exact(input, row, n), AbsSum(input, n), scale, scale / 2.0)
  {
    hide Half, Factor, Within, Abs, Off;
    if n == 0 {
      NothingWithin(scale);
    } else {
      ProductNear(input, row, q, scale, n - 1, vec4);
      PlainFactor(row[n - 1], scale, q[n - 1], vec4);
      TermNear(Product(input, q, n - 1, vec4), Exact(input, row, n - 1), AbsSum(input, n - 1), scale, scale / 2.0,
               input[n - 1], row[n - 1], Factor(q[n - 1], vec4),
               Product(input, q, n, vec4), Exact(input, row, n), AbsSum(input, n));
    }
  }

  lemma NothingWithin(scale: real)
    ensures Within(0.0, 0.0, 0.0, scale, scale / 2.0)
  {
  }

  lemma PlainFactor(w: real, scale: real, q: I8, vec4: bool)
    requires Half(w, scale, q)
    ensures Factor(q, vec4) == q as real && Off(w, Factor(q, vec4), scale, scale / 2.0)
  {
    KernelsAgree(q);
  }

  lemma TermNear(p: real, e: real, s: real, scale: real, h: real, x: real, w: real, q: real, p': real, e': real,
      s': real)
    requires Off(w, q, scale, h) && Within(p, e, s, scale, h)
    requires p' == p + x * q && e' == e + x * w && s' == s + Abs(x)
    ensures Within(p', e', s', scale, h)
  {
    hide Abs;
    var d, y := w - scale * q, x * q;
    var a, b, t := p * scale - e, x * d, p' * scale - e';
    ScaledTerm(x, d, h);
    DistributeTo(p', p, y, scale);
    DistributeTo(w, d, scale * q, x);
    DistributeTo(s', s, Abs(x), h);
    assert y * scale == x * (scale * q);
    assert t == a - b;
    Triangle(a, b);
  }

  lemma DistributeTo(sum: real, a: real, b: real, c: real)
    requires sum == a + b
    ensures sum * c == a * c + b * c
  {
  }

  lemma Distribute(a: real, b: real, c: real)
    ensures (a + b) * c == a * c + b * c
  {
  }

  lemma Triangle(a: real, b: real)
    ensures Abs(a - b) <= Abs(a) + Abs(b)
  {
  }

  lemma ScaledTerm(x: real, d: real, h: real)
    requires Abs(d) <= h
    ensures Abs(x * d) <= h * Abs(x)
  {
    if x < 0.0 {
      assert -(h * x) >= -(d * x) && -(h * x) >= d * x;
    } else {
      assert h * x >= d * x && h * x >= -(d * x);
    }
  }

  /** The quantised weight: the rows one after another. */
  method QuantizeAll(weights: seq<seq<real>>, width: nat) returns (weight: Q8Weight)
    requires forall o | 0 <= o < |weights| :: |weights[o]| == width
    ensures weight.outFeatures == |weights| == |weight.scales| && weight.inFeatures == width &&
            |weight.qweight| == |weights| * width
    ensures forall o | 0 <= o < |weights| ::
            weight.scales[o] == ScaleOf(weights[o]) && Near(weight.qweight, o, width, weights[o], weight.scales[o])
  {
    hide ScaleOf, Near, Half, Round;
    var qweight: seq<I8>, scales: seq<real> := [], [];
    for o := 0 to |weights|
      invariant |qweight| == o * width && |scales| == o
      invariant forall k | 0 <= k < o ::
                scales[k] == ScaleOf(weights[k]) && Near(qweight, k, width, weights[k], scales[k])
    {
      var q, scale := QuantizeRow(weights[o]);
      NearKept(qweight, q, o, width, weights, scales);
      assert (o + 1) * width == o * width + width;
      qweight := qweight + q;
      scales := scales + [scale];
      NearLast(qweight, q, o, width, weights[o], scale);
    }
    weight := Q8Weight(qweight, scales, |weights|, width);
  }

  /** Output `o` of input row `r` is within half a step per unit of input of the exact product. */
  ghost predicate NearExact(weights: seq<seq<real>>, width: nat, input: seq<real>, rows: nat, output: seq<real>, r: nat,
      o: nat)
    requires |input| == rows * width && r < rows && o < |weights| && |weights[o]| == width
  {
    && r * |weights| + o < |output|
    && var xs := InputRow(input, rows, width, r);
      Abs(output[r * |weights| + o] - Exact(xs, weights[o], width)) <= ScaleOf(weights[o]) / 2.0 * AbsSum(xs, width)
  }

  /** Quantising every row and multiplying, one input row on the GPU or several in a batch, is within half a
      step per unit of input of the exact product, in every output. */
  method Linear(weights: seq<seq<real>>, width: nat, input: seq<real>, rows: nat, maxChunkBytes: nat)
    returns (r: Option<seq<real>>)
    requires forall o | 0 <= o < |weights| :: |weights[o]| == width
    ensures r.Some? <==> 0 < |weights| && 0 < width && |input| == rows * width && 4 * ((width + 3) / 4) <= maxChunkBytes
    ensures r.Some? ==> |r.value| == rows * |weights|
    ensures r.Some? ==> forall row, o | 0 <= row < rows && 0 <= o < |weights| ::
              NearExact(weights, width, input, rows, r.value, row, o)
  {
    hide Product, Exact, AbsSum, ScaleOf, Near, Half, BatchedAt, NearExact, InputRow, Q8Weight.Row;
    if |input| != rows * width {
      return None;
    }
    var weight := QuantizeAll(weights, width);
    if !weight.Valid() || 4 * weight.WordsPerRow() > maxChunkBytes {
      return None;
    }
    if rows == 1 {
      r := Matvec(weight, input, maxChunkBytes);
      SingleRow(input, width);
      forall o | 0 <= o < |weights| ensures NearExact(weights, width, input, 1, r.value, 0, o) {
        RowNear(weight, weights, width, input, 1, r.value, 0, o, width % 4 == 0);
      }
    } else {
      var output := BatchedProduct(weight, input, rows);
      forall row, o | 0 <= row < rows && 0 <= o < |weights|
        ensures NearExact(weights, width, input, rows, output, row, o)
      {
        BatchedIs(weight, input, rows, output, row, o);
        RowNear(weight, weights, width, input, rows, output, row, o, false);
      }
      r := Some(output);
    }
  }

  lemma SingleRow(input: seq<real>, width: nat)
    requires |input| == width
    ensures InputRow(input, 1, width, 0) == input
  {
  }

  lemma BatchedIs(weight: Q8Weight, input: seq<real>, rows: nat, output: seq<real>, r: nat, o: nat)
    requires weight.Valid() && |input| == rows * weight.inFeatures && r < rows && o < weight.outFeatures
    requires BatchedAt(weight, input, rows, output, r, o)
    ensures r * weight.outFeatures + o < |output|
    ensures output[r * weight.outFeatures + o] ==
            Product(InputRow(input, rows, weight.inFeatures, r), weight.Row(o), weight.inFeatures,
                false) * weight.scales[o]
  {
  }

  lemma RowNear(weight: Q8Weight, weights: seq<seq<real>>, width: nat, input: seq<real>, rows: nat, output: seq<real>,
                r: nat, o: nat, vec4: bool)
    requires weight.Valid() && o < weight.outFeatures == |weights| && width == weight.inFeatures == |weights[o]|
    requires |input| == rows * width && r < rows && r * |weights| + o < |output|
    requires Near(weight.qweight, o, width, weights[o], weight.scales[o]) && weight.scales[o] == ScaleOf(weights[o])
    requires output[r * |weights| + o] ==
             Product(InputRow(input, rows, width, r), weight.Row(o), width, vec4) * weight.scales[o]
    ensures NearExact(weights, width, input, rows, output, r, o)
  {
    hide Half, Within, Product, Exact, AbsSum, InputRow, ScaleOf;
    var xs, q, scale := InputRow(input, rows, width, r), weight.Row(o), weight.scales[o];
    ProductNear(xs, weights[o], q, scale, width, vec4);
    WithinMeans(Product(xs, q, width, vec4), Exact(xs, weights[o], width), AbsSum(xs, width), scale,
        output[r * |weights| + o]);
  }

  lemma WithinMeans(p: real, e: real, s: real, scale: real, value: real)
    requires Within(p, e, s, scale, scale / 2.0) && value == p * scale
    ensures Abs(value - e) <= scale / 2.0 * s
  {
  }

  /** Row `o` of the quantised bytes is within half a step of the weights. */
  ghost predicate Near(qweight: seq<I8>, o: nat, width: nat, row: seq<real>, scale: real) {
    && scale > 0.0 && |row| == width && o * width + width <= |qweight|
    && var q := qweight[o * width..o * width + width];
       forall i | 0 <= i < width :: Half(row[i], scale, q[i])
  }

  lemma NearKept(qweight: seq<I8>, q: seq<I8>, n: nat, width: nat, weights: seq<seq<real>>, scales: seq<real>)
    requires |qweight| == n * width && n <= |weights| && |scales| == n
    requires forall k | 0 <= k < n :: Near(qweight, k, width, weights[k], scales[k])
    ensures forall k | 0 <= k < n :: Near(qweight + q, k, width, weights[k], scales[k])
  {
    forall k | 0 <= k < n ensures Near(qweight + q, k, width, weights[k], scales[k]) {
      MulSteps(k, n, width);
      assert (qweight + q)[k * width..k * width + width] == qweight[k * width..k * width + width];
    }
  }

  lemma NearLast(qweight: seq<I8>, q: seq<I8>, o: nat, width: nat, row: seq<real>, scale: real)
    requires |q| == |row| == width && |qweight| == o * width + width && qweight[o * width..] == q && scale > 0.0
    requires forall i | 0 <= i < width :: Half(row[i], scale, q[i])
    ensures Near(qweight, o, width, row, scale)
  {
    assert qweight[o * width..o * width + width] == q;
  }
}
