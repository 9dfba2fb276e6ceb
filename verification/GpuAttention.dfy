/** The decode attention kernels (src/gpu.rs): one work group per head over a flat head-major cache, once
    serially with a running maximum and once in two passes over 64 lanes. */
module GpuAttention {
  import opened Attention
  import opened Lanes
  import opened Nonlinear
  import opened Wrappers

  const LOWEST: real := -340282346638528859811704183484516925440.0

  // ---------------------------------------------------------------- the flat cache

  /** The scores against `n` keys that lie one after the other from `kBase`. */
  function FlatScores(q: seq<real>, qBase: nat, key: seq<real>, kBase: nat, n: nat, dim: nat, scale: real)
      : (scores: seq<real>)
    requires qBase + dim <= |q| && kBase + n * dim <= |key|
    ensures |scores| == n
  {
    seq(n, pos requires 0 <= pos < n =>
      MulSteps(pos, n, dim);
      Dot(q, qBase, key, kBase + pos * dim, dim) * scale)
  }

  function FlatColumn(value: seq<real>, vBase: nat, n: nat, dim: nat, d: nat): (column: seq<real>)
    requires d < dim && vBase + n * dim <= |value|
    ensures |column| == n
  {
    seq(n, pos requires 0 <= pos < n =>
      MulSteps(pos, n, dim);
      value[vBase + pos * dim + d])
  }

  lemma ScoreAt(q: seq<real>, qBase: nat, key: seq<real>, kBase: nat, n: nat, dim: nat, scale: real, pos: nat)
    requires qBase + dim <= |q| && kBase + n * dim <= |key| && pos < n
    ensures kBase + pos * dim + dim <= |key|
    ensures FlatScores(q, qBase, key, kBase, n, dim, scale)[pos] == Dot(q, qBase, key, kBase + pos * dim, dim) * scale
  {
    MulSteps(pos, n, dim);
  }

  /** The flat cache holds the columns at `offset` of the rows. */
  ghost predicate Holds(rows: seq<Row>, width: nat, offset: nat, dim: nat, key: seq<real>, value: seq<real>, base: nat)
    requires Cached(rows, width) && offset + dim <= width && base + |rows| * dim <= |key| == |value|
  {
    forall t | 0 <= t < |rows| ::
      MulSteps(t, |rows|, dim);
      var row := base + t * dim;
      key[row..row + dim] == rows[t].0[offset..offset + dim] && value[row..row + dim] == rows[t].1[offset..offset + dim]
  }

  /** A cache that holds the same rows has the same scores and columns, so every kernel computes what the
      rescaling loop computes. */
  lemma SameCache(query: seq<real>, qBase: nat, rows: seq<Row>, width: nat, offset: nat, dim: nat, scale: real,
      key: seq<real>, value: seq<real>, base: nat)
    requires qBase + dim <= |query| && Cached(rows, width) && offset + dim <= width &&
             base + |rows| * dim <= |key| == |value|
    requires Holds(rows, width, offset, dim, key, value, base)
    ensures FlatScores(query, qBase, key, base, |rows|, dim, scale) == Scores(query, qBase, rows, offset, dim, scale)
    ensures forall d | 0 <= d < dim :: FlatColumn(value, base, |rows|, dim, d) == Column(rows, offset + d)
  {
    hide Dot;
    var a, b := FlatScores(query, qBase, key, base, |rows|, dim, scale), Scores(query, qBase, rows, offset, dim, scale);
    forall t | 0 <= t < |rows| ensures a[t] == b[t] {
      MulSteps(t, |rows|, dim);
      SameDot(query, qBase, key, base + t * dim, rows[t].0, offset, dim);
    }
    forall d | 0 <= d < dim ensures FlatColumn(value, base, |rows|, dim, d) == Column(rows, offset + d) {
      SameColumn(rows, width, offset, dim, key, value, base, d);
    }
  }

  lemma SameColumn(rows: seq<Row>, width: nat, offset: nat, dim: nat, key: seq<real>, value: seq<real>, base: nat,
      d: nat)
    requires Cached(rows, width) && offset + dim <= width && base + |rows| * dim <= |key| == |value|
    requires Holds(rows, width, offset, dim, key, value, base) && d < dim
    ensures FlatColumn(value, base, |rows|, dim, d) == Column(rows, offset + d)
  {
    var a, b := FlatColumn(value, base, |rows|, dim, d), Column(rows, offset + d);
    forall t | 0 <= t < |rows| ensures a[t] == b[t] {
      MulSteps(t, |rows|, dim);
      var row := base + t * dim;
      assert value[row..row + dim][d] == rows[t].1[offset..offset + dim][d];
    }
  }

  lemma {:induction false} SameDot(q: seq<real>, i: nat, a: seq<real>, j: nat, b: seq<real>, k: nat, n: nat)
    requires i + n <= |q| && j + n <= |a| && k + n <= |b|
    requires a[j..j + n] == b[k..k + n]
    ensures Dot(q, i, a, j, n) == Dot(q, i, b, k, n)
  {
    if n > 0 {
      SliceFront(a, j, n);
      SliceFront(b, k, n);
      SameDot(q, i, a, j, b, k, n - 1);
    }
  }

  lemma SliceFront(a: seq<real>, j: nat, n: nat)
    requires 0 < n && j + n <= |a|
    ensures a[j..j + n][..n - 1] == a[j..j + (n - 1)] && a[j..j + n][n - 1] == a[j + n - 1]
  {
  }

  lemma ExpZero(exp: real -> real)
    requires IsExp(exp)
    ensures exp(0.0) == 1.0
  {
    ExpSplit(exp, 0.0, 0.0);
    ExpPositive(exp, 0.0);
  }

  // ---------------------------------------------------------------- the serial kernel

  /** What the kernel multiplies earlier sums by, and the new token by. */
  function Decay(exp: real -> real, maxScore: real, score: real): real {
    if score <= maxScore then 1.0 else exp(maxScore - score)
  }

  function Weight(exp: real -> real, maxScore: real, score: real): real {
    if score <= maxScore then exp(score - maxScore) else 1.0
  }

  function Larger(maxScore: real, score: real): real {
    if score <= maxScore then maxScore else score
  }

  /** Without earlier tokens any factor does; otherwise the kernel's factor is that of the rescaling loop. */
  lemma SameFactor(exp: real -> real, m: Option<real>, maxScore: real, score: real, sum: real)
    requires IsExp(exp) && (if m.None? then sum == 0.0 else m.value == maxScore)
    ensures sum * Prior(exp, m, Larger(maxScore, score)) == sum * Decay(exp, maxScore, score)
  {
    ExpZero(exp);
  }

  /** The kernel's step for one sum. */
  lemma SerialEnters(exp: real -> real, scores: seq<real>, column: seq<real>, n: nat, m: Option<real>, maxScore: real)
    requires IsExp(exp) && n < |scores| == |column| && (m.None? <==> n == 0) && (m.Some? ==> m.value == maxScore)
    ensures SumSoFar(exp, scores, column, n + 1, Some(Larger(maxScore, scores[n])))
         == SumSoFar(exp, scores, column, n, m) * Decay(exp, maxScore, scores[n]) +
             column[n] * Weight(exp, maxScore, scores[n])
  {
    hide IsExp, Mixed;
    Enters(exp, scores, column, n, m, Larger(maxScore, scores[n]));
    SameFactor(exp, m, maxScore, scores[n], SumSoFar(exp, scores, column, n, m));
    ExpZero(exp);
  }

  lemma ColumnEnters(exp: real -> real, scores: seq<real>, value: seq<real>, base: nat, n: nat, dim: nat, d: nat,
      pos: nat, m: Option<real>, maxScore: real)
    requires IsExp(exp) && pos < |scores| == n && (m.None? <==> pos == 0) && (m.Some? ==> m.value == maxScore)
    requires d < dim && base + n * dim <= |value|
    ensures base + pos * dim + d < |value|
    ensures var score, column := scores[pos], FlatColumn(value, base, n, dim, d);
            SumSoFar(exp, scores, column, pos + 1, Some(Larger(maxScore, score)))
            == SumSoFar(exp, scores, column, pos, m) * Decay(exp, maxScore, score) +
                value[base + pos * dim + d] * Weight(exp, maxScore, score)
  {
    hide IsExp, SumSoFar;
    MulSteps(pos, n, dim);
    SerialEnters(exp, scores, FlatColumn(value, base, n, dim, d), pos, m, maxScore);
  }

  /** One token of the serial kernel. */
  method SerialToken(exp: real -> real, output: array<real>, value: seq<real>, row: nat, sumExp: real, maxScore: real,
      score: real)
    returns (sum: real, top: real)
    requires row + output.Length <= |value|
    modifies output
    ensures sum == sumExp * Decay(exp, maxScore, score) + Weight(exp, maxScore, score) && top == Larger(maxScore, score)
    ensures forall d | 0 <= d < output.Length ::
              output[d] == old(output[d]) * Decay(exp, maxScore, score) + value[row + d] * Weight(exp, maxScore, score)
  {
    if score <= maxScore {
      var weight := exp(score - maxScore);
      sum, top := sumExp + weight, maxScore;
      Accumulate(output, 0, output.Length, 1.0, value, row, weight);
    } else {
      var rescale := exp(maxScore - score);
      Accumulate(output, 0, output.Length, rescale, value, row, 1.0);
      sum, top := sumExp * rescale + 1.0, score;
    }
  }

  method SerialHead(exp: real -> real, q: seq<real>, qBase: nat, key: seq<real>, value: seq<real>, base: nat, n: nat,
      dim: nat, scale: real)
    returns (output: array<real>)
    requires IsExp(exp) && 0 < n && qBase + dim <= |q| && base + n * dim <= |key| == |value|
    ensures fresh(output) && output.Length == dim
    ensures forall d | 0 <= d < dim ::
              output[d] == Softmax(exp, FlatScores(q, qBase, key, base, n, dim, scale),
                  FlatColumn(value, base, n, dim, d))
  {
    hide IsExp, Mixed, Dot, SumSoFar, FlatScores, FlatColumn, Decay, Weight, Larger, Softmax;
    ghost var scores := FlatScores(q, qBase, key, base, n, dim, scale);
    var maxScore, sumExp := LOWEST, 0.0;
    output := new real[dim](_ => 0.0);
    ghost var m: Option<real> := None;
    NothingYet(exp, scores, Ones(n));
    forall d | 0 <= d < dim ensures SumSoFar(exp, scores, FlatColumn(value, base, n, dim, d), 0, None) == 0.0 {
      NothingYet(exp, scores, FlatColumn(value, base, n, dim, d));
    }
    for pos := 0 to n
      invariant fresh(output) && output.Length == dim
      invariant (m.None? <==> pos == 0) && (m.Some? ==> m.value == maxScore)
      invariant sumExp == SumSoFar(exp, scores, Ones(n), pos, m)
      invariant forall d | 0 <= d < dim ::
                output[d] == SumSoFar(exp, scores, FlatColumn(value, base, n, dim, d), pos, m)
    {
      MulSteps(pos, n, dim);
      var row := base + pos * dim;
      var score := Dot(q, qBase, key, row, dim) * scale;
      ScoreAt(q, qBase, key, base, n, dim, scale, pos);
      assert scores[pos] == score;
      SerialEnters(exp, scores, Ones(n), pos, m, maxScore);
      forall d | 0 <= d < dim
        ensures SumSoFar(exp, scores, FlatColumn(value, base, n, dim, d), pos + 1, Some(Larger(maxScore, score)))
             == output[d] * Decay(exp, maxScore, score) + value[row + d] * Weight(exp, maxScore, score)
      {
        ColumnEnters(exp, scores, value, base, n, dim, d, pos, m, maxScore);
      }
      sumExp, maxScore := SerialToken(exp, output, value, row, sumExp, maxScore, score);
      m := Some(maxScore);
    }
    Normalized(exp, scores, Ones(n), maxScore, sumExp, sumExp);
    forall d | 0 <= d < dim
      ensures output[d] * (1.0 / sumExp) == Softmax(exp, scores, FlatColumn(value, base, n, dim, d))
    {
      Normalized(exp, scores, FlatColumn(value, base, n, dim, d), maxScore, output[d], sumExp);
    }
    ScaleAll(output, 1.0 / sumExp);
  }

  lemma NothingYet(exp: real -> real, scores: seq<real>, column: seq<real>)
    requires |scores| == |column|
    ensures SumSoFar(exp, scores, column, 0, None) == 0.0
  {
  }

  /** `output[d] * inv_sum` */
  method ScaleAll(output: array<real>, factor: real)
    modifies output
    ensures forall d | 0 <= d < output.Length :: output[d] == old(output[d]) * factor
  {
    for d := 0 to output.Length
      invariant forall k | 0 <= k < output.Length :: output[k] == if k < d then old(output[k]) * factor
                else old(output[k])
    {
      output[d] := output[d] * factor;
    }
  }

  /** Multiplying by the reciprocal of the mass gives softmax, for any reference score. */
  lemma Normalized(exp: real -> real, scores: seq<real>, column: seq<real>, m: real, sum: real, mass: real)
    requires IsExp(exp) && 0 < |scores| == |column|
    requires sum == SumSoFar(exp, scores, column, |scores|, Some(m))
    requires mass == SumSoFar(exp, scores, Ones(|scores|), |scores|, Some(m))
    ensures mass > 0.0 && sum * (1.0 / mass) == Softmax(exp, scores, column)
  {
    hide IsExp, Mixed, Softmax;
    var n := |scores|;
    assert scores[..n] == scores && column[..n] == column && Ones(n)[..n] == Ones(n);
    AnyReference(exp, scores, column, m);
    Reciprocal(sum, mass);
  }

  lemma Reciprocal(x: real, y: real)
    requires y > 0.0
    ensures x * (1.0 / y) == x / y
  {
  }

  // ---------------------------------------------------------------- the work-group kernel

  /** What one strided pass over a buffer writes at each position. */
  function Mapped(g: (nat, real) -> real, xs: seq<real>): seq<real> {
    seq(|xs|, p requires 0 <= p < |xs| => g(p, xs[p]))
  }

  lemma {:induction false} LaneDepends(op: Op, start: real, xs: seq<real>, ys: seq<real>, lane: nat)
    requires |xs| == |ys| && lane < LANES && forall p | 0 <= p < |xs| && p % LANES == lane :: xs[p] == ys[p]
    ensures Partials(op, start, xs)[lane] == Partials(op, start, ys)[lane]
  {
    if |xs| > 0 {
      LaneDepends(op, start, xs[..|xs| - 1], ys[..|ys| - 1], lane);
    }
  }

  /** One lane computes, stores and folds the values at its own positions. */
  method LanePass(op: Op, start: real, lane: nat, n: nat, g: (nat, real) -> real, buffer: array<real>)
      returns (local: real)
    requires lane < LANES && n <= buffer.Length
    modifies buffer
    ensures local == Partials(op, start, Mapped(g, old(buffer[..n])))[lane]
    ensures forall p | 0 <= p < buffer.Length :: buffer[p] == if p < n && p % LANES == lane then g(p, old(buffer[p]))
            else old(buffer[p])
  {
    hide Partials;
    ghost var target := Mapped(g, buffer[..n]);
    local := start;
    var pos := lane;
    LaneStart(op, start, target, lane);
    while pos < n
      invariant pos % LANES == lane
      invariant local == Partials(op, start, target[..Upto(pos, n)])[lane]
      invariant forall p | 0 <= p < buffer.Length ::
                  buffer[p] == if p < n && p < pos && p % LANES == lane then g(p, old(buffer[p])) else old(buffer[p])
    {
      buffer[pos] := g(pos, buffer[pos]);
      local := op(local, buffer[pos]);
      LaneStep(op, start, target, lane, pos);
      NoneBetween(pos, lane);
      pos := pos + LANES;
    }
    assert target[..n] == target;
  }

  /** All lanes between two barriers: no two touch the same position. */
  method AllLanes(op: Op, start: real, n: nat, g: (nat, real) -> real, buffer: array<real>, partial: array<real>)
    requires n <= buffer.Length && partial.Length == LANES && buffer != partial
    modifies buffer, partial
    ensures buffer[..n] == Mapped(g, old(buffer[..n]))
    ensures partial[..] == Partials(op, start, Mapped(g, old(buffer[..n])))
  {
    hide Partials;
    ghost var target := Mapped(g, buffer[..n]);
    for lane := 0 to LANES
      invariant forall p | 0 <= p < buffer.Length :: buffer[p] == if p < n && p % LANES < lane then g(p, old(buffer[p]))
                else old(buffer[p])
      invariant forall l | 0 <= l < lane :: partial[l] == Partials(op, start, target)[l]
    {
      ghost var now := Mapped(g, buffer[..n]);
      var local := LanePass(op, start, lane, n, g, buffer);
      LaneDepends(op, start, now, target, lane);
      partial[lane] := local;
    }
    assert forall p | 0 <= p < n :: buffer[p] == target[p];
  }

  function Larger2(a: real, b: real): real {
    if a < b then b else a
  }

  lemma {:induction false} FoldIsMass(exp: real -> real, scores: seq<real>, weights: seq<real>, m: real)
    requires |weights| == |scores| && forall p | 0 <= p < |scores| :: weights[p] == exp(scores[p] - m)
    ensures Fold(Plus, 0.0, weights) == Mass(exp, scores, m)
  {
    if |scores| > 0 {
      FoldIsMass(exp, scores[..|scores| - 1], weights[..|scores| - 1], m);
      MassStep(exp, scores, m);
    }
  }

  /** The sequential sum of weighted values in one column. */
  method WeightedColumn(exp: real -> real, weights: array<real>, value: seq<real>, base: nat, n: nat, dim: nat, d: nat,
      ghost scores: seq<real>, ghost m: real)
    returns (acc: real)
    requires n <= weights.Length && |scores| == n && d < dim && base + n * dim <= |value|
    requires forall p | 0 <= p < n :: weights[p] == exp(scores[p] - m)
    ensures acc == Mixed(exp, scores, FlatColumn(value, base, n, dim, d), m)
  {
    hide Mixed, FlatColumn;
    ghost var column := FlatColumn(value, base, n, dim, d);
    acc := 0.0;
    MixedNone(exp, scores[..0], column[..0], m);
    for pos := 0 to n
      invariant acc == Mixed(exp, scores[..pos], column[..pos], m)
    {
      ColumnAt(value, base, n, dim, d, pos);
      var next := acc + weights[pos] * value[base + pos * dim + d];
      MixedNext(exp, scores, column, pos, m, weights[pos], value[base + pos * dim + d], acc, next);
      acc := next;
    }
    assert scores[..n] == scores && column[..n] == column;
  }

  lemma MixedNone(exp: real -> real, scores: seq<real>, column: seq<real>, m: real)
    requires scores == [] == column
    ensures Mixed(exp, scores, column, m) == 0.0
  {
  }

  lemma MixedNext(exp: real -> real, scores: seq<real>, column: seq<real>, pos: nat, m: real, w: real, x: real,
      acc: real, next: real)
    requires pos < |scores| == |column| && w == exp(scores[pos] - m) && x == column[pos]
    requires acc == Mixed(exp, scores[..pos], column[..pos], m) && next == acc + w * x
    ensures next == Mixed(exp, scores[..pos + 1], column[..pos + 1], m)
  {
    assert scores[..pos + 1][..pos] == scores[..pos] && column[..pos + 1][..pos] == column[..pos];
  }

  lemma ColumnAt(value: seq<real>, base: nat, n: nat, dim: nat, d: nat, pos: nat)
    requires d < dim && base + n * dim <= |value| && pos < n
    ensures base + pos * dim + d < |value| && FlatColumn(value, base, n, dim, d)[pos] == value[base + pos * dim + d]
  {
    MulSteps(pos, n, dim);
  }

  /** The first pass: every score, and their maximum. */
  method ScorePass(q: seq<real>, qBase: nat, key: seq<real>, base: nat, n: nat, dim: nat, scale: real,
      buffer: array<real>, partial: array<real>)
    returns (sharedMax: real)
    requires n <= buffer.Length && partial.Length == LANES && buffer != partial && qBase + dim <= |q| &&
             base + n * dim <= |key|
    modifies buffer, partial
    ensures buffer[..n] == FlatScores(q, qBase, key, base, n, dim, scale)
    ensures sharedMax == Fold(Larger2, LOWEST, FlatScores(q, qBase, key, base, n, dim, scale))
  {
    hide Dot, Fold, Partials, Total, Reducible, Larger2, Mapped, FlatScores;
    ghost var scores := FlatScores(q, qBase, key, base, n, dim, scale);
    MappedScores(q, qBase, key, base, n, dim, scale, buffer[..n]);
    LargerReducible();
    AllLanes(Larger2, LOWEST, n, KernelScores(q, qBase, key, base, n, dim, scale), buffer, partial);
    TreeReduce(Larger2, LOWEST, partial);
    LanesThenTree(Larger2, LOWEST, scores);
    sharedMax := partial[0];
  }

  lemma LargerReducible()
    ensures Reducible(Larger2, LOWEST)
  {
    var op := Larger2;
    forall a, b, c ensures op(op(a, b), c) == op(a, op(b, c)) {
      assert Larger2(Larger2(a, b), c) == Larger2(a, Larger2(b, c));
    }
    forall a, b ensures op(a, b) == op(b, a) {
      assert Larger2(a, b) == Larger2(b, a);
    }
  }

  /** The score that the kernel stores at a position. */
  function KernelScores(q: seq<real>, qBase: nat, key: seq<real>, kBase: nat, n: nat, dim: nat, scale: real)
      : (nat, real) -> real
    requires qBase + dim <= |q| && kBase + n * dim <= |key|
  {
    (pos: nat, _: real) =>
      if pos < n then
        MulSteps(pos, n, dim);
        Dot(q, qBase, key, kBase + pos * dim, dim) * scale
      else 0.0
  }

  lemma MappedScores(q: seq<real>, qBase: nat, key: seq<real>, kBase: nat, n: nat, dim: nat, scale: real,
      before: seq<real>)
    requires qBase + dim <= |q| && kBase + n * dim <= |key| && |before| == n
    ensures Mapped(KernelScores(q, qBase, key, kBase, n, dim, scale), before) ==
            FlatScores(q, qBase, key, kBase, n, dim, scale)
  {
    hide Dot;
    var a, b := Mapped(KernelScores(q, qBase, key, kBase, n, dim, scale), before),
        FlatScores(q, qBase, key, kBase, n, dim, scale);
    forall p | 0 <= p < n ensures a[p] == b[p] {
      MulSteps(p, n, dim);
    }
  }

  /** The second pass: every weight, and their sum. */
  method WeightPass(exp: real -> real, n: nat, sharedMax: real, buffer: array<real>, partial: array<real>)
      returns (sharedSum: real)
    requires n <= buffer.Length && partial.Length == LANES && buffer != partial
    modifies buffer, partial
    ensures forall p | 0 <= p < n :: buffer[p] == exp(old(buffer[p]) - sharedMax)
    ensures sharedSum == Mass(exp, old(buffer[..n]), sharedMax)
  {
    hide Mixed, Fold, Partials, Total, Reducible;
    ghost var scores := buffer[..n];
    PlusReducible();
    AllLanes(Plus, 0.0, n, (_: nat, s: real) => exp(s - sharedMax), buffer, partial);
    LanesThenTree(Plus, 0.0, buffer[..n]);
    TreeReduce(Plus, 0.0, partial);
    assert forall p | 0 <= p < n :: buffer[p] == buffer[..n][p];
    FoldIsMass(exp, scores, buffer[..n], sharedMax);
    sharedSum := partial[0];
  }

  /** No exponential is taken of a positive number. */
  lemma {:induction false} FoldLargest(xs: seq<real>, start: real)
    ensures start <= Fold(Larger2, start, xs) && forall p | 0 <= p < |xs| :: xs[p] <= Fold(Larger2, start, xs)
  {
    if |xs| > 0 {
      FoldLargest(xs[..|xs| - 1], start);
    }
  }

  method TwoPassHead(exp: real -> real, q: seq<real>, qBase: nat, key: seq<real>, value: seq<real>, base: nat, n: nat,
      dim: nat, scale: real)
    returns (output: array<real>)
    requires IsExp(exp) && 0 < n <= 2048 && qBase + dim <= |q| && base + n * dim <= |key| == |value|
    ensures fresh(output) && output.Length == dim
    ensures forall d | 0 <= d < dim ::
              output[d] == Softmax(exp, FlatScores(q, qBase, key, base, n, dim, scale),
                  FlatColumn(value, base, n, dim, d))
  {
    hide IsExp, Mixed, FlatColumn, FlatScores, Softmax, Dot, Mass, Fold;
    ghost var scores := FlatScores(q, qBase, key, base, n, dim, scale);
    var weights, partial := new real[2048], new real[LANES];
    output := new real[dim](_ => 0.0);
    var sharedMax := ScorePass(q, qBase, key, base, n, dim, scale, weights, partial);
    assert forall p | 0 <= p < n :: weights[p] == weights[..n][p];
    var sharedSum := WeightPass(exp, n, sharedMax, weights, partial);
    for lane := 0 to LANES
      invariant forall d | 0 <= d < dim && d % LANES < lane ::
                output[d] == Softmax(exp, scores, FlatColumn(value, base, n, dim, d))
      modifies output
    {
      WriteLane(exp, lane, weights, value, base, n, dim, scores, sharedMax, sharedSum, output);
    }
  }

  /** One lane writes the normalised columns at its own positions. */
  method WriteLane(exp: real -> real, lane: nat, weights: array<real>, value: seq<real>, base: nat, n: nat, dim: nat,
                   ghost scores: seq<real>, ghost sharedMax: real, sharedSum: real, output: array<real>)
    requires IsExp(exp) && lane < LANES && 0 < n == |scores| && n <= weights.Length && base + n * dim <= |value|
    requires output.Length == dim && output != weights
    requires (forall p | 0 <= p < n :: weights[p] == exp(scores[p] - sharedMax)) &&
             sharedSum == Mass(exp, scores, sharedMax)
    modifies output
    ensures forall d | 0 <= d < dim ::
              output[d] == if d % LANES == lane then Softmax(exp, scores, FlatColumn(value, base, n, dim, d))
                  else old(output[d])
  {
    hide IsExp, Mixed, FlatColumn, Softmax, Mass;
    var d := lane;
    while d < dim
      invariant d % LANES == lane
      invariant forall k | 0 <= k < dim ::
                  output[k] == if k % LANES == lane && k < d then
                      Softmax(exp, scores, FlatColumn(value, base, n, dim, k)) else old(output[k])
    {
      var acc := WeightedColumn(exp, weights, value, base, n, dim, d, scores, sharedMax);
      AnyReference(exp, scores, FlatColumn(value, base, n, dim, d), sharedMax);
      Reciprocal(acc, sharedSum);
      output[d] := acc * (1.0 / sharedSum);
      NoneBetween(d, lane);
      d := d + LANES;
    }
  }

  // ---------------------------------------------------------------- all heads

  const PARALLEL_MAX: nat := 2048

  /** Where the cache of the key-value head of query head `h` begins: head-major, `stride` floats per head. */
  function CacheBase(heads: nat, kvHeads: nat, dim: nat, stride: nat, h: nat): (base: nat)
    requires Heads(heads, kvHeads, dim) && h < heads
    ensures base + stride <= kvHeads * stride
  {
    KvHeadInside(heads, kvHeads, dim, h);
    MulSteps(h / (heads / kvHeads), kvHeads, stride);
    h / (heads / kvHeads) * stride
  }

  /** The cache of the key-value head that serves the head. */
  lemma CacheServed(heads: nat, kvHeads: nat, dim: nat, stride: nat, g: nat, h: nat)
    requires Heads(heads, kvHeads, dim) && h < heads && Serves(heads, kvHeads, g, h)
    ensures CacheBase(heads, kvHeads, dim, stride, h) == g * stride
  {
    var group := heads / kvHeads;
    assert h == g * group + (h - g * group);
    DivUnique(h, group, g, h - g * group);
  }

  lemma KvHeadInside(heads: nat, kvHeads: nat, dim: nat, h: nat)
    requires Heads(heads, kvHeads, dim) && h < heads
    ensures 0 < heads / kvHeads && h / (heads / kvHeads) < kvHeads
  {
    var group := heads / kvHeads;
    assert heads == kvHeads * group && group > 0;
    DivSmaller(h, group, kvHeads);
  }

  /** One call of `forward_raw`. */
  datatype Launch = Launch(q: seq<real>, key: seq<real>, value: seq<real>, n: nat, heads: nat, kvHeads: nat, dim: nat,
      maxLen: nat,
                           scale: real)
  {
    /** What `forward_raw` accepts. */
    ghost predicate Accepted() {
      && Heads(heads, kvHeads, dim) && 0 < n <= maxLen
      && |q| == heads * dim && |key| == |value| == kvHeads * (maxLen * dim)
    }

    lemma HeadFits(h: nat)
      requires Accepted() && h < heads
      ensures h * dim + dim <= |q| && CacheBase(heads, kvHeads, dim, maxLen * dim, h) + n * dim <= |key|
    {
      MulSteps(h, heads, dim);
      MulSteps(n, maxLen, dim);
    }

    /** Entry `d` of the output of head `h`: softmax attention over the cache of its key-value head. */
    ghost function HeadValue(exp: real -> real, h: nat, d: nat): real
      requires IsExp(exp) && Accepted() && h < heads && d < dim
    {
      HeadFits(h);
      var base := CacheBase(heads, kvHeads, dim, maxLen * dim, h);
      Softmax(exp, FlatScores(q, h * dim, key, base, n, dim, scale), FlatColumn(value, base, n, dim, d))
    }

    /** The output of head `h`, at `base`. */
    ghost predicate HeadDone(exp: real -> real, h: nat, out: seq<real>, base: nat)
      requires IsExp(exp) && Accepted() && h < heads
    {
      base + dim <= |out| && forall d | 0 <= d < dim :: out[base + d] == HeadValue(exp, h, d)
    }
  }

  /** One work group, whichever kernel was chosen for this context length. */
  method RunHead(exp: real -> real, l: Launch, h: nat) returns (head: array<real>)
    requires IsExp(exp) && l.Accepted() && h < l.heads
    ensures fresh(head) && head.Length == l.dim && l.HeadDone(exp, h, head[..], 0)
  {
    hide IsExp, Softmax, FlatScores, FlatColumn, CacheBase;
    l.HeadFits(h);
    var base := CacheBase(l.heads, l.kvHeads, l.dim, l.maxLen * l.dim, h);
    if l.n <= PARALLEL_MAX {
      head := TwoPassHead(exp, l.q, h * l.dim, l.key, l.value, base, l.n, l.dim, l.scale);
    } else {
      head := SerialHead(exp, l.q, h * l.dim, l.key, l.value, base, l.n, l.dim, l.scale);
    }
  }

  /** Writing one head's entries at its place touches no other head. */
  method PlaceHead(head: array<real>, output: array<real>, base: nat)
    requires head != output && base + head.Length <= output.Length
    modifies output
    ensures forall k | 0 <= k < output.Length ::
              output[k] == if base <= k < base + head.Length then head[k - base] else old(output[k])
  {
    for d := 0 to head.Length
      invariant forall k | 0 <= k < output.Length :: output[k] == if base <= k < base + d then head[k - base]
                else old(output[k])
    {
      output[base + d] := head[d];
    }
  }

  /** `forward_raw`: one work group per query head, consecutive heads over the same key-value head; up to 2048
      tokens in two passes, beyond that serially. */
  method DecodeAttention(exp: real -> real, l: Launch) returns (r: Option<seq<real>>)
    requires IsExp(exp)
    ensures r.Some? <==> l.Accepted()
    ensures r.Some? ==> |r.value| == l.heads * l.dim && forall h | 0 <= h < l.heads ::
            l.HeadDone(exp, h, r.value, h * l.dim)
  {
    hide IsExp, Launch.HeadDone, CacheBase;
    if l.heads == 0 || l.kvHeads == 0 || l.dim == 0 || l.heads % l.kvHeads != 0 || l.n == 0 || l.n > l.maxLen
       || |l.q| != l.heads * l.dim || |l.key| != l.kvHeads * (l.maxLen * l.dim) || |l.value| != |l.key| {
      return None;
    }
    var output := new real[l.heads * l.dim](_ => 0.0);
    for h := 0 to l.heads
      invariant forall g | 0 <= g < h :: l.HeadDone(exp, g, output[..], g * l.dim)
    {
      l.HeadFits(h);
      ghost var before := output[..];
      var head := RunHead(exp, l, h);
      var base := h * l.dim;
      PlaceHead(head, output, base);
      HeadPlaced(exp, l, h, head[..], output[..], base);
      forall g | 0 <= g < h ensures l.HeadDone(exp, g, output[..], g * l.dim) {
        MulSteps(g, h, l.dim);
        HeadKept(exp, l, g, before, output[..], g * l.dim);
      }
    }
    r := Some(output[..]);
  }

  lemma HeadPlaced(exp: real -> real, l: Launch, h: nat, head: seq<real>, out: seq<real>, base: nat)
    requires IsExp(exp) && l.Accepted() && h < l.heads && |head| == l.dim && l.HeadDone(exp, h, head, 0)
    requires base + l.dim <= |out| && forall k | base <= k < base + l.dim :: out[k] == head[k - base]
    ensures l.HeadDone(exp, h, out, base)
  {
    hide IsExp, Launch.HeadValue;
    forall d | 0 <= d < l.dim ensures out[base + d] == l.HeadValue(exp, h, d) {
      assert head[0 + d] == l.HeadValue(exp, h, d);
    }
  }

  lemma HeadKept(exp: real -> real, l: Launch, h: nat, a: seq<real>, b: seq<real>, base: nat)
    requires IsExp(exp) && l.Accepted() && h < l.heads && l.HeadDone(exp, h, a, base) && |a| == |b|
    requires forall k | 0 <= k < |a| && base <= k < base + l.dim :: a[k] == b[k]
    ensures l.HeadDone(exp, h, b, base)
  {
    hide IsExp, Launch.HeadValue;
    forall d | 0 <= d < l.dim ensures b[base + d] == l.HeadValue(exp, h, d) {
      assert a[base + d] == l.HeadValue(exp, h, d);
    }
  }

  // ---------------------------------------------------------------- against the rescaling loop

  /** The flat cache holds every key-value head of the rows. */
  ghost predicate HeadMajor(rows: seq<Row>, kvHeads: nat, dim: nat, maxLen: nat, key: seq<real>, value: seq<real>)
    requires Cached(rows, kvHeads * dim) && |rows| <= maxLen && |key| == |value| == kvHeads * (maxLen * dim)
  {
    forall g | 0 <= g < kvHeads :: HeadHeld(rows, kvHeads, dim, maxLen, key, value, g)
  }

  ghost predicate HeadHeld(rows: seq<Row>, kvHeads: nat, dim: nat, maxLen: nat, key: seq<real>, value: seq<real>,
      g: nat)
    requires Cached(rows, kvHeads * dim) && |rows| <= maxLen && |key| == |value| == kvHeads * (maxLen * dim) &&
             g < kvHeads
  {
    MulSteps(g, kvHeads, dim);
    MulSteps(g, kvHeads, maxLen * dim);
    MulSteps(|rows|, maxLen, dim);
    Holds(rows, kvHeads * dim, g * dim, dim, key, value, g * (maxLen * dim))
  }

  /** Over a cache that holds the same rows, every head of the kernel attends as the rescaling loop does. */
  lemma KernelAttends(exp: real -> real, l: Launch, rows: seq<Row>, h: nat, out: seq<real>)
    requires IsExp(exp) && l.Accepted() && l.n == |rows| && h < l.heads && |out| == l.heads * l.dim
    requires Cached(rows, l.kvHeads * l.dim) && HeadMajor(rows, l.kvHeads, l.dim, l.maxLen, l.key, l.value)
    requires l.HeadDone(exp, h, out, h * l.dim)
    ensures Attends(exp, l.q, rows, l.heads, l.kvHeads, l.dim, l.scale, h, out)
  {
    hide IsExp, Softmax, Scores, Column, FlatScores, FlatColumn, Holds, Attends;
    KvHeadInside(l.heads, l.kvHeads, l.dim, h);
    var g := h / (l.heads / l.kvHeads);
    assert HeadHeld(rows, l.kvHeads, l.dim, l.maxLen, l.key, l.value, g);
    var offset := KvOffset(l.heads, l.kvHeads, l.dim, h);
    l.HeadFits(h);
    SameCache(l.q, h * l.dim, rows, l.kvHeads * l.dim, offset, l.dim, l.scale, l.key, l.value, g * (l.maxLen * l.dim));
    HeadAttends(exp, l, rows, h, out, offset, CacheBase(l.heads, l.kvHeads, l.dim, l.maxLen * l.dim, h));
  }

  lemma HeadAttends(exp: real -> real, l: Launch, rows: seq<Row>, h: nat, out: seq<real>, offset: nat, base: nat)
    requires IsExp(exp) && l.Accepted() && l.n == |rows| && h < l.heads && |out| == l.heads * l.dim
    requires offset == KvOffset(l.heads, l.kvHeads, l.dim, h) &&
             base == CacheBase(l.heads, l.kvHeads, l.dim, l.maxLen * l.dim, h)
    requires base + |rows| * l.dim <= |l.key| && Cached(rows, l.kvHeads * l.dim) && l.HeadDone(exp, h, out, h * l.dim)
    requires FlatScores(l.q, h * l.dim, l.key, base, |rows|, l.dim, l.scale) ==
             Scores(l.q, h * l.dim, rows, offset, l.dim, l.scale)
    requires forall d | 0 <= d < l.dim :: FlatColumn(l.value, base, |rows|, l.dim, d) == Column(rows, offset + d)
    ensures Attends(exp, l.q, rows, l.heads, l.kvHeads, l.dim, l.scale, h, out)
  {
    hide IsExp, Softmax, Scores, Column, FlatScores, FlatColumn, Attends, KvOffset, CacheBase, Launch.HeadDone;
    forall k | 0 <= k < |out| && h * l.dim <= k < h * l.dim + l.dim
      ensures out[k] == Softmax(exp, Scores(l.q, h * l.dim, rows, offset, l.dim, l.scale),
              Column(rows, offset + (k - h * l.dim)))
    {
      EntryAttends(exp, l, h, out, base, k - h * l.dim, Scores(l.q, h * l.dim, rows, offset, l.dim, l.scale),
                   Column(rows, offset + (k - h * l.dim)));
    }
    AttendsNow(exp, l.q, rows, l.heads, l.kvHeads, l.dim, l.scale, h, out);
  }

  lemma EntryAttends(exp: real -> real, l: Launch, h: nat, out: seq<real>, base: nat, d: nat, scores: seq<real>,
      column: seq<real>)
    requires IsExp(exp) && l.Accepted() && h < l.heads && d < l.dim && |scores| == |column| == l.n
    requires base == CacheBase(l.heads, l.kvHeads, l.dim, l.maxLen * l.dim, h) && base + l.n * l.dim <= |l.key|
    requires h * l.dim + l.dim <= |l.q| && FlatScores(l.q, h * l.dim, l.key, base, l.n, l.dim, l.scale) == scores
    requires FlatColumn(l.value, base, l.n, l.dim, d) == column && l.HeadDone(exp, h, out, h * l.dim)
    ensures out[h * l.dim + d] == Softmax(exp, scores, column)
  {
    hide IsExp, Softmax, FlatScores, FlatColumn, CacheBase;
    assert out[h * l.dim + d] == l.HeadValue(exp, h, d);
  }

  /** Outputs that attend in every head are equal. */
  lemma AttendsUnique(exp: real -> real, query: seq<real>, rows: seq<Row>, heads: nat, kvHeads: nat, dim: nat,
      scale: real,
                      a: seq<real>, b: seq<real>)
    requires IsExp(exp) && Heads(heads, kvHeads, dim) && |a| == |b| == |query| == heads * dim
    requires 0 < |rows| && Cached(rows, kvHeads * dim)
    requires forall h | 0 <= h < heads :: Attends(exp, query, rows, heads, kvHeads, dim, scale, h, a)
    requires forall h | 0 <= h < heads :: Attends(exp, query, rows, heads, kvHeads, dim, scale, h, b)
    ensures a == b
  {
    hide IsExp, Softmax, Attends;
    forall k | 0 <= k < |a| ensures a[k] == b[k] {
      var h := k / dim;
      DivSmaller(k, dim, heads);
      assert h * dim <= k < h * dim + dim;
      AttendsEntry(exp, query, rows, heads, kvHeads, dim, scale, h, a, b, k);
    }
  }

  lemma AttendsEntry(exp: real -> real, query: seq<real>, rows: seq<Row>, heads: nat, kvHeads: nat, dim: nat,
      scale: real,
                     h: nat, a: seq<real>, b: seq<real>, k: nat)
    requires IsExp(exp) && Heads(heads, kvHeads, dim) && h < heads && |a| == |b| == |query| == heads * dim
    requires 0 < |rows| && Cached(rows, kvHeads * dim)
    requires Attends(exp, query, rows, heads, kvHeads, dim, scale, h, a)
    requires Attends(exp, query, rows, heads, kvHeads, dim, scale, h, b)
    requires k < |a| && h * dim <= k < h * dim + dim
    ensures a[k] == b[k]
  {
    hide IsExp, Softmax;
    var offset := KvOffset(heads, kvHeads, dim, h);
  }

  /** The GPU kernels and the CPU loop give the same output for every query over the same tokens. */
  method KernelsAgree(exp: real -> real, l: Launch, rows: seq<Row>)
      returns (gpu: Option<seq<real>>, cpu: Option<seq<real>>)
    requires IsExp(exp) && Cached(rows, l.kvHeads * l.dim) && l.n == |rows| <= l.maxLen
    requires |l.key| == |l.value| == l.kvHeads * (l.maxLen * l.dim) &&
             HeadMajor(rows, l.kvHeads, l.dim, l.maxLen, l.key, l.value)
    ensures gpu == cpu
    ensures gpu.Some? <==> Heads(l.heads, l.kvHeads, l.dim) && |l.q| == l.heads * l.dim && 0 < |rows|
  {
    hide IsExp, Attends, Launch.HeadDone, HeadMajor;
    gpu := DecodeAttention(exp, l);
    cpu := CausalAttention(exp, l.q, rows, l.kvHeads * l.dim, l.heads, l.kvHeads, l.dim, l.scale);
    if gpu.Some? {
      forall h | 0 <= h < l.heads ensures Attends(exp, l.q, rows, l.heads, l.kvHeads, l.dim, l.scale, h, gpu.value) {
        KernelAttends(exp, l, rows, h, gpu.value);
      }
      AttendsUnique(exp, l.q, rows, l.heads, l.kvHeads, l.dim, l.scale, gpu.value, cpu.value);
    }
  }
}
