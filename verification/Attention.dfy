/** Softmax attention: the rescaling loop of `causal_attention` (src/model/math.rs) and the serial and
    work-group kernels (src/gpu.rs), over the reals and any exponential function. */
module Attention {
  import opened Lanes
  import opened Nonlinear
  import opened Wrappers

  /** All that the kernels need of the exponential. */
  ghost predicate IsExp(exp: real -> real) {
    && (forall a :: exp(a) > 0.0)
    && forall a, b :: exp(a + b) == exp(a) * exp(b)
  }

  lemma ExpSplit(exp: real -> real, a: real, b: real)
    requires IsExp(exp)
    ensures exp(a + b) == exp(a) * exp(b)
  {
  }

  lemma ExpPositive(exp: real -> real, a: real)
    requires IsExp(exp)
    ensures exp(a) > 0.0
  {
  }

  // ---------------------------------------------------------------- plain softmax

  /** The columns mixed with weights `exp(score - m)`. */
  function Mixed(exp: real -> real, scores: seq<real>, column: seq<real>, m: real): real
    requires |scores| == |column|
  {
    if |scores| == 0 then 0.0
    else
      var n := |scores| - 1;
      Mixed(exp, scores[..n], column[..n], m) + exp(scores[n] - m) * column[n]
  }

  function Ones(n: nat): seq<real> {
    seq(n, _ => 1.0)
  }

  /** The sum of the weights. */
  function Mass(exp: real -> real, scores: seq<real>, m: real): real {
    Mixed(exp, scores, Ones(|scores|), m)
  }

  lemma {:induction false} MassStep(exp: real -> real, scores: seq<real>, m: real)
    requires 0 < |scores|
    ensures var n := |scores| - 1; Mass(exp, scores, m) == Mass(exp, scores[..n], m) + exp(scores[n] - m)
  {
    var n := |scores| - 1;
    assert Ones(n + 1)[..n] == Ones(n);
  }

  lemma {:induction false} MassPositive(exp: real -> real, scores: seq<real>, m: real)
    requires IsExp(exp) && 0 < |scores|
    ensures Mass(exp, scores, m) > 0.0
  {
    var n := |scores| - 1;
    MassStep(exp, scores, m);
    ExpPositive(exp, scores[n] - m);
    if n > 0 {
      MassPositive(exp, scores[..n], m);
    }
  }

  /** Softmax of the scores applied to a column: each value weighted by `exp(score)`, over the sum of weights. */
  ghost function Softmax(exp: real -> real, scores: seq<real>, column: seq<real>): real
    requires IsExp(exp) && 0 < |scores| == |column|
  {
    MassPositive(exp, scores, 0.0);
    Mixed(exp, scores, column, 0.0) / Mass(exp, scores, 0.0)
  }

  /** Moving the reference score rescales every sum by the same factor. */
  lemma {:induction false} Rescale(exp: real -> real, scores: seq<real>, column: seq<real>, m: real, m': real)
    requires IsExp(exp) && |scores| == |column|
    ensures Mixed(exp, scores, column, m') == Mixed(exp, scores, column, m) * exp(m - m')
  {
    hide IsExp;
    if |scores| > 0 {
      var n := |scores| - 1;
      Rescale(exp, scores[..n], column[..n], m, m');
      assert (scores[n] - m) + (m - m') == scores[n] - m';
      ExpSplit(exp, scores[n] - m, m - m');
      Distribute(Mixed(exp, scores[..n], column[..n], m), exp(scores[n] - m), column[n], exp(m - m'));
    }
  }

  lemma Distribute(s: real, a: real, c: real, r: real)
    ensures (s + a * c) * r == s * r + (a * r) * c
  {
    assert (a * c) * r == (a * r) * c;
  }

  lemma CancelFactor(x: real, y: real, r: real, x': real, y': real)
    requires y > 0.0 && r > 0.0 && x' == x * r && y' == y * r
    ensures y' > 0.0 && x' / y' == x / y
  {
    var q := x / y;
    assert q * y == x;
    assert q * y' == (q * y) * r;
  }

  /** Softmax does not depend on the reference score. */
  lemma AnyReference(exp: real -> real, scores: seq<real>, column: seq<real>, m: real)
    requires IsExp(exp) && 0 < |scores| == |column|
    ensures Mass(exp, scores, m) > 0.0
    ensures Mixed(exp, scores, column, m) / Mass(exp, scores, m) == Softmax(exp, scores, column)
  {
    hide Mixed;
    MassPositive(exp, scores, 0.0);
    MassPositive(exp, scores, m);
    Rescale(exp, scores, column, 0.0, m);
    Rescale(exp, scores, Ones(|scores|), 0.0, m);
    ExpPositive(exp, 0.0 - m);
    CancelFactor(Mixed(exp, scores, column, 0.0), Mass(exp, scores, 0.0), exp(0.0 - m), Mixed(exp, scores, column, m),
        Mass(exp, scores, m));
  }

  // ---------------------------------------------------------------- scores

  /** The product of `n` floats of `a` from `i` with those of `b` from `j`. */
  function Dot(a: seq<real>, i: nat, b: seq<real>, j: nat, n: nat): real
    requires i + n <= |a| && j + n <= |b|
  {
    if n == 0 then 0.0 else Dot(a, i, b, j, n - 1) + a[i + n - 1] * b[j + n - 1]
  }

  /** A token's key and value rows, as the paged cache returns them. */
  type Row = (seq<real>, seq<real>)

  ghost predicate Cached(rows: seq<Row>, width: nat) {
    forall t | 0 <= t < |rows| :: |rows[t].0| == width && |rows[t].1| == width
  }

  /** The scores of one query head against the keys at `offset` of every row. */
  function Scores(query: seq<real>, i: nat, rows: seq<Row>, offset: nat, dim: nat, scale: real)
    : (scores: seq<real>)
    requires i + dim <= |query| && forall t | 0 <= t < |rows| :: offset + dim <= |rows[t].0|
    ensures |scores| == |rows|
  {
    seq(|rows|, t requires 0 <= t < |rows| => Dot(query, i, rows[t].0, offset, dim) * scale)
  }

  function Column(rows: seq<Row>, c: nat): (column: seq<real>)
    requires forall t | 0 <= t < |rows| :: c < |rows[t].1|
    ensures |column| == |rows|
  {
    seq(|rows|, t requires 0 <= t < |rows| => rows[t].1[c])
  }

  // ---------------------------------------------------------------- the rescaling loop

  /** `*o = *o * prior + *v * current` for one head. */
  method Accumulate(output: array<real>, base: nat, dim: nat, prior: real, value: seq<real>, offset: nat, current: real)
    requires base + dim <= output.Length && offset + dim <= |value|
    modifies output
    ensures forall k | 0 <= k < output.Length ::
              output[k] == if base <= k < base + dim then old(output[k]) * prior + value[offset + (k - base)] * current
                  else old(output[k])
  {
    for j := 0 to dim
      invariant forall k | 0 <= k < output.Length ::
                  output[k] == if base <= k < base + j then old(output[k]) * prior +
                      value[offset + (k - base)] * current else old(output[k])
    {
      output[base + j] := output[base + j] * prior + value[offset + j] * current;
    }
  }

  method Divide(output: array<real>, base: nat, dim: nat, total: real)
    requires base + dim <= output.Length && total != 0.0
    modifies output
    ensures forall k | 0 <= k < output.Length ::
              output[k] == if base <= k < base + dim then old(output[k]) / total else old(output[k])
  {
    for j := 0 to dim
      invariant forall k | 0 <= k < output.Length ::
                  output[k] == if base <= k < base + j then old(output[k]) / total else old(output[k])
    {
      output[base + j] := output[base + j] / total;
    }
  }

  /** `exp(maximum - next)`, where no maximum stands for minus infinity. */
  function Prior(exp: real -> real, m: Option<real>, m': real): real {
    if m.None? then 0.0 else exp(m.value - m')
  }

  /** The sum over the first `n` tokens relative to their maximum. */
  function SumSoFar(exp: real -> real, scores: seq<real>, column: seq<real>, n: nat, m: Option<real>): real
    requires n <= |scores| == |column| && (m.None? <==> n == 0)
  {
    if n == 0 then 0.0 else Mixed(exp, scores[..n], column[..n], m.value)
  }

  /** One token enters the sums: everything so far is rescaled to the new maximum. */
  lemma Enters(exp: real -> real, scores: seq<real>, column: seq<real>, n: nat, m: Option<real>, m': real)
    requires IsExp(exp) && n < |scores| == |column| && (m.None? <==> n == 0)
    ensures SumSoFar(exp, scores, column, n + 1, Some(m'))
         == SumSoFar(exp, scores, column, n, m) * Prior(exp, m, m') + column[n] * exp(scores[n] - m')
  {
    hide IsExp;
    var s, c := scores[..n + 1], column[..n + 1];
    assert s[..n] == scores[..n] && c[..n] == column[..n] && s[n] == scores[n] && c[n] == column[n];
    assert Mixed(exp, s, c, m') == Mixed(exp, s[..n], c[..n], m') + exp(s[n] - m') * c[n];
    if n > 0 {
      Rescale(exp, scores[..n], column[..n], m.value, m');
    }
  }

  method AttendHead(exp: real -> real, query: seq<real>, rows: seq<Row>, width: nat, offset: nat, dim: nat, scale: real,
      output: array<real>, base: nat)
    requires IsExp(exp) && 0 < |rows| && Cached(rows, width) && offset + dim <= width
    requires base + dim <= |query| == output.Length && forall k | base <= k < base + dim :: output[k] == 0.0
    modifies output
    ensures forall k | 0 <= k < output.Length ::
              output[k] == if base <= k < base + dim
                           then Softmax(exp, Scores(query, base, rows, offset, dim, scale),
                               Column(rows, offset + (k - base)))
                           else old(output[k])
  {
    hide IsExp, Mixed, Dot;
    ghost var scores := Scores(query, base, rows, offset, dim, scale);
    ghost var n := |rows|;
    var maximum: Option<real> := None;
    var normalizer := 0.0;
    for t := 0 to |rows|
      invariant maximum.None? <==> t == 0
      invariant normalizer == SumSoFar(exp, scores, Ones(n), t, maximum)
      invariant forall k | 0 <= k < output.Length ::
                  output[k] == if base <= k < base + dim
                               then SumSoFar(exp, scores, Column(rows, offset + (k - base)), t, maximum)
                               else old(output[k])
    {
      var score := Dot(query, base, rows[t].0, offset, dim) * scale;
      var next := if maximum.None? || maximum.value < score then score else maximum.value;
      assert scores[t] == score;
      var prior := Prior(exp, maximum, next);
      var current := exp(score - next);
      Enters(exp, scores, Ones(n), t, maximum, next);
      forall k | base <= k < base + dim
        ensures SumSoFar(exp, scores, Column(rows, offset + (k - base)), t + 1, Some(next))
             == output[k] * prior + rows[t].1[offset + (k - base)] * current
      {
        Enters(exp, scores, Column(rows, offset + (k - base)), t, maximum, next);
      }
      normalizer := normalizer * prior + current;
      Accumulate(output, base, dim, prior, rows[t].1, offset, current);
      maximum := Some(next);
    }
    assert scores[..n] == scores && Ones(n)[..n] == Ones(n);
    AnyReference(exp, scores, Ones(n), maximum.value);
    Divide(output, base, dim, normalizer);
    forall k | base <= k < base + dim
      ensures output[k] == Softmax(exp, scores, Column(rows, offset + (k - base)))
    {
      var column := Column(rows, offset + (k - base));
      assert column[..n] == column;
      AnyReference(exp, scores, column, maximum.value);
    }
  }

  lemma DivSmaller(n: nat, d: nat, q: nat)
    requires 0 < d && n < q * d
    ensures n / d < q
  {
    MulSteps(q, n / d, d);
  }

  ghost predicate Heads(heads: nat, kvHeads: nat, dim: nat) {
    0 < heads && 0 < kvHeads && 0 < dim && heads % kvHeads == 0
  }

  /** Grouped queries: consecutive heads share a key-value head, and its columns lie inside the row. */
  function KvOffset(heads: nat, kvHeads: nat, dim: nat, h: nat): (offset: nat)
    requires Heads(heads, kvHeads, dim) && h < heads
    ensures offset + dim <= kvHeads * dim && h * dim + dim <= heads * dim
  {
    var group := heads / kvHeads;
    assert heads == kvHeads * group && group > 0;
    DivSmaller(h, group, kvHeads);
    MulSteps(h / group, kvHeads, dim);
    MulSteps(h, heads, dim);
    h / group * dim
  }

  /** Query heads are shared out evenly and in order: key-value head `g` serves the `g`-th group of them. */
  ghost predicate Serves(heads: nat, kvHeads: nat, g: nat, h: nat)
    requires Heads(heads, kvHeads, 1)
  {
    g < kvHeads && g * (heads / kvHeads) <= h < (g + 1) * (heads / kvHeads)
  }

  lemma ServedByOne(heads: nat, kvHeads: nat, h: nat) returns (g: nat)
    requires Heads(heads, kvHeads, 1) && h < heads
    ensures Serves(heads, kvHeads, g, h)
  {
    var group := heads / kvHeads;
    assert heads == kvHeads * group && group > 0;
    DivSmaller(h, group, kvHeads);
    g := h / group;
  }

  /** A head's columns are those of the key-value head that serves it. */
  lemma ColumnsServed(heads: nat, kvHeads: nat, dim: nat, g: nat, h: nat)
    requires Heads(heads, kvHeads, dim) && h < heads && Serves(heads, kvHeads, g, h)
    ensures KvOffset(heads, kvHeads, dim, h) == g * dim
  {
    var group := heads / kvHeads;
    assert h == g * group + (h - g * group);
    DivUnique(h, group, g, h - g * group);
  }

  /** Every head's output is softmax attention over its key-value head. */
  ghost predicate Attends(exp: real -> real, query: seq<real>, rows: seq<Row>, heads: nat, kvHeads: nat, dim: nat,
      scale: real, h: nat, out: seq<real>)
    requires IsExp(exp) && Heads(heads, kvHeads, dim) && h < heads && |out| == |query| == heads * dim
    requires 0 < |rows| && Cached(rows, kvHeads * dim)
  {
    var offset := KvOffset(heads, kvHeads, dim, h);
    forall k | h * dim <= k < h * dim + dim ::
      out[k] == Softmax(exp, Scores(query, h * dim, rows, offset, dim, scale), Column(rows, offset + (k - h * dim)))
  }

  method CausalAttention(exp: real -> real, query: seq<real>, rows: seq<Row>, width: nat, heads: nat, kvHeads: nat,
      dim: nat, scale: real)
    returns (r: Option<seq<real>>)
    requires IsExp(exp) && Cached(rows, width)
    ensures r.Some? <==> Heads(heads, kvHeads, dim) && |query| == heads * dim && width == kvHeads * dim && 0 < |rows|
    ensures r.Some? ==> |r.value| == heads * dim
    ensures r.Some? ==> forall h | 0 <= h < heads :: Attends(exp, query, rows, heads, kvHeads, dim, scale, h, r.value)
  {
    hide IsExp, Attends, Softmax;
    if heads == 0 || kvHeads == 0 || dim == 0 || heads % kvHeads != 0 || |query| != heads * dim ||
        width != kvHeads * dim || |rows| == 0 {
      return None;
    }
    var output := new real[|query|](_ => 0.0);
    for h := 0 to heads
      invariant forall k | h * dim <= k < output.Length :: output[k] == 0.0
      invariant forall g | 0 <= g < h :: Attends(exp, query, rows, heads, kvHeads, dim, scale, g, output[..])
    {
      var offset := KvOffset(heads, kvHeads, dim, h);
      ghost var before := output[..];
      AttendHead(exp, query, rows, width, offset, dim, scale, output, h * dim);
      assert Attends(exp, query, rows, heads, kvHeads, dim, scale, h, output[..]) by {
        AttendsNow(exp, query, rows, heads, kvHeads, dim, scale, h, output[..]);
      }
      forall g | 0 <= g < h ensures Attends(exp, query, rows, heads, kvHeads, dim, scale, g, output[..]) {
        MulSteps(g, h, dim);
        AttendsFrame(exp, query, rows, heads, kvHeads, dim, scale, g, before, output[..]);
      }
      assert (h + 1) * dim == h * dim + dim;
    }
    r := Some(output[..]);
  }

  lemma AttendsNow(exp: real -> real, query: seq<real>, rows: seq<Row>, heads: nat, kvHeads: nat, dim: nat, scale: real,
      h: nat, out: seq<real>)
    requires IsExp(exp) && Heads(heads, kvHeads, dim) && h < heads && |out| == |query| == heads * dim
    requires 0 < |rows| && Cached(rows, kvHeads * dim)
    requires var offset := KvOffset(heads, kvHeads, dim, h);
             forall k | 0 <= k < |out| && h * dim <= k < h * dim + dim ::
               out[k] == Softmax(exp, Scores(query, h * dim, rows, offset, dim, scale),
                   Column(rows, offset + (k - h * dim)))
    ensures Attends(exp, query, rows, heads, kvHeads, dim, scale, h, out)
  {
    hide IsExp, Softmax, Scores, Column, KvOffset;
  }

  lemma AttendsFrame(exp: real -> real, query: seq<real>, rows: seq<Row>, heads: nat, kvHeads: nat, dim: nat,
      scale: real, h: nat, a: seq<real>, b: seq<real>)
    requires IsExp(exp) && Heads(heads, kvHeads, dim) && h < heads && |a| == |b| == |query| == heads * dim
    requires 0 < |rows| && Cached(rows, kvHeads * dim) && Attends(exp, query, rows, heads, kvHeads, dim, scale, h, a)
    requires forall k | 0 <= k < |a| && h * dim <= k < h * dim + dim :: a[k] == b[k]
    ensures Attends(exp, query, rows, heads, kvHeads, dim, scale, h, b)
  {
    var offset := KvOffset(heads, kvHeads, dim, h);
  }
}
