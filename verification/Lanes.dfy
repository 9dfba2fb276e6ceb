/** The work-group pattern of the GPU kernels (src/gpu.rs): 64 lanes fold a strided part of the input each,
    and a tree reduction folds the 64 partial results. */
module Lanes {
  import opened Nonlinear

  const LANES: nat := 64

  type Op = (real, real) -> real

  /** A reduction whose order does not matter, with a start value that may be counted any number of times. */
  ghost predicate Reducible(op: Op, start: real) {
    && (forall a, b, c :: op(op(a, b), c) == op(a, op(b, c)))
    && (forall a, b :: op(a, b) == op(b, a))
    && op(start, start) == start
  }

  lemma Assoc(op: Op, start: real, a: real, b: real, c: real)
    requires Reducible(op, start)
    ensures op(op(a, b), c) == op(a, op(b, c))
  {
  }

  lemma Comm(op: Op, start: real, a: real, b: real)
    requires Reducible(op, start)
    ensures op(a, b) == op(b, a)
  {
  }

  lemma Idem(op: Op, start: real)
    requires Reducible(op, start)
    ensures op(start, start) == start
  {
  }

  function Fold(op: Op, start: real, xs: seq<real>): real {
    if |xs| == 0 then start else op(Fold(op, start, xs[..|xs| - 1]), xs[|xs| - 1])
  }

  function Total(op: Op, xs: seq<real>): real
    requires 0 < |xs|
  {
    if |xs| == 1 then xs[0] else op(Total(op, xs[..|xs| - 1]), xs[|xs| - 1])
  }

  lemma {:induction false} TotalUpdate(op: Op, start: real, xs: seq<real>, i: nat, x: real)
    requires Reducible(op, start) && i < |xs|
    ensures Total(op, xs[i := op(xs[i], x)]) == op(Total(op, xs), x)
  {
    hide Reducible;
    var n := |xs| - 1;
    var ys := xs[i := op(xs[i], x)];
    if n > 0 {
      var t := Total(op, xs[..n]);
      Assoc(op, start, t, xs[n], x);
      if i == n {
        assert ys[..n] == xs[..n];
      } else {
        TotalUpdate(op, start, xs[..n], i, x);
        assert ys[..n] == xs[..n][i := op(xs[i], x)];
        Assoc(op, start, t, x, xs[n]);
        Comm(op, start, x, xs[n]);
      }
    }
  }

  // ---------------------------------------------------------------- the tree

  lemma {:induction false} TotalConcat(op: Op, start: real, a: seq<real>, b: seq<real>)
    requires Reducible(op, start) && 0 < |a| && 0 < |b|
    ensures Total(op, a + b) == op(Total(op, a), Total(op, b))
  {
    hide Reducible;
    var n := |b| - 1;
    assert (a + b)[..|a| + n] == a + b[..n];
    if n == 0 {
      assert a + b[..n] == a;
    } else {
      TotalConcat(op, start, a, b[..n]);
      Assoc(op, start, Total(op, a), Total(op, b[..n]), b[n]);
    }
  }

  function Paired(op: Op, a: seq<real>, b: seq<real>): seq<real>
    requires |a| == |b|
  {
    seq(|a|, i requires 0 <= i < |a| => op(a[i], b[i]))
  }

  lemma {:induction false} TotalPaired(op: Op, start: real, a: seq<real>, b: seq<real>)
    requires Reducible(op, start) && 0 < |a| == |b|
    ensures Total(op, Paired(op, a, b)) == op(Total(op, a), Total(op, b))
  {
    hide Reducible;
    var n := |a| - 1;
    var p := Paired(op, a, b);
    if n > 0 {
      TotalPaired(op, start, a[..n], b[..n]);
      assert p[..n] == Paired(op, a[..n], b[..n]);
      var s, t := Total(op, a[..n]), Total(op, b[..n]);
      Exchange(op, start, s, t, a[n], b[n]);
    }
  }

  lemma Exchange(op: Op, start: real, s: real, t: real, x: real, y: real)
    requires Reducible(op, start)
    ensures op(op(s, t), op(x, y)) == op(op(s, x), op(t, y))
  {
    hide Reducible;
    Assoc(op, start, s, t, op(x, y));
    Assoc(op, start, t, x, y);
    Comm(op, start, t, x);
    Assoc(op, start, x, t, y);
    Assoc(op, start, s, x, op(t, y));
  }

  /** One reduction step halves the part of the array that carries the total. */
  lemma Halving(op: Op, start: real, before: seq<real>, after: seq<real>, stride: nat)
    requires Reducible(op, start) && 0 < stride && 2 * stride <= |before| == |after|
    requires forall i | 0 <= i < stride :: after[i] == op(before[i], before[i + stride])
    ensures Total(op, after[..stride]) == Total(op, before[..2 * stride])
  {
    hide Reducible;
    var a, b := before[..stride], before[stride..2 * stride];
    assert before[..2 * stride] == a + b;
    assert after[..stride] == Paired(op, a, b);
    TotalConcat(op, start, a, b);
    TotalPaired(op, start, a, b);
  }

  /** Between two barriers every lane below `stride` writes its own slot and reads one at or above it. */
  method TreeReduce(op: Op, ghost start: real, partial: array<real>)
    requires Reducible(op, start) && partial.Length == LANES
    modifies partial
    ensures partial[0] == Total(op, old(partial[..]))
  {
    hide Reducible;
    var stride := 32;
    assert partial[..2 * stride] == partial[..];
    while true
      invariant stride in {1, 2, 4, 8, 16, 32}
      invariant Total(op, partial[..2 * stride]) == Total(op, old(partial[..]))
      decreases stride
    {
      ghost var before := partial[..];
      forall lane | 0 <= lane < stride {
        partial[lane] := op(partial[lane], partial[lane + stride]);
      }
      Halving(op, start, before, partial[..], stride);
      if stride == 1 {
        assert partial[..][..1] == [partial[0]];
        assert before[..2] == before[..2 * stride];
        break;
      }
      assert partial[..][..stride] == partial[..2 * (stride / 2)];
      stride := stride / 2;
    }
  }

  // ---------------------------------------------------------------- the strided lanes

  /** The 64 partial results: element `i` is folded into lane `i % 64`. */
  function Partials(op: Op, start: real, xs: seq<real>): (p: seq<real>)
    ensures |p| == LANES
  {
    if |xs| == 0 then seq(LANES, _ => start)
    else
      var p, lane := Partials(op, start, xs[..|xs| - 1]), (|xs| - 1) % LANES;
      p[lane := op(p[lane], xs[|xs| - 1])]
  }

  /** Folding in lanes and then over lanes is folding in order. */
  lemma {:induction false} LanesThenTree(op: Op, start: real, xs: seq<real>)
    requires Reducible(op, start)
    ensures Total(op, Partials(op, start, xs)) == Fold(op, start, xs)
  {
    hide Reducible;
    if |xs| == 0 {
      SameTotal(op, start, LANES);
    } else {
      LanesThenTree(op, start, xs[..|xs| - 1]);
      TotalUpdate(op, start, Partials(op, start, xs[..|xs| - 1]), (|xs| - 1) % LANES, xs[|xs| - 1]);
    }
  }

  lemma {:induction false} SameTotal(op: Op, start: real, n: nat)
    requires Reducible(op, start) && 0 < n
    ensures Total(op, seq(n, _ => start)) == start
  {
    hide Reducible;
    if n > 1 {
      Idem(op, start);
      SameTotal(op, start, n - 1);
      assert seq(n, _ => start)[..n - 1] == seq(n - 1, _ => start);
    }
  }

  /** Elements that belong to other lanes do not change a lane. */
  lemma {:induction false} OtherLanes(op: Op, start: real, xs: seq<real>, lo: nat, hi: nat, lane: nat)
    requires lo <= hi <= |xs| && lane < LANES && forall i | lo <= i < hi :: i % LANES != lane
    ensures Partials(op, start, xs[..hi])[lane] == Partials(op, start, xs[..lo])[lane]
    decreases hi
  {
    if lo < hi {
      OtherLanes(op, start, xs, lo, hi - 1, lane);
      assert xs[..hi][..hi - 1] == xs[..hi - 1];
    }
  }

  function Upto(pos: nat, n: nat): nat {
    if pos < n then pos else n
  }

  lemma NoneBetween(pos: nat, lane: nat)
    requires pos % LANES == lane
    ensures (pos + LANES) % LANES == lane && forall i | pos < i < pos + LANES :: i % LANES != lane
  {
  }

  /** Before its first position a lane holds the start value; each position adds its element only. */
  lemma LaneStart(op: Op, start: real, xs: seq<real>, lane: nat)
    requires lane < LANES
    ensures Partials(op, start, xs[..Upto(lane, |xs|)])[lane] == start
  {
    OtherLanes(op, start, xs, 0, Upto(lane, |xs|), lane);
    assert xs[..0] == [];
  }

  lemma LaneStep(op: Op, start: real, xs: seq<real>, lane: nat, pos: nat)
    requires lane < LANES && pos < |xs| && pos % LANES == lane
    ensures Partials(op, start, xs[..Upto(pos + LANES, |xs|)])[lane] ==
            op(Partials(op, start, xs[..pos])[lane], xs[pos])
  {
    assert xs[..pos + 1][..pos] == xs[..pos];
    NoneBetween(pos, lane);
    OtherLanes(op, start, xs, pos + 1, Upto(pos + LANES, |xs|), lane);
  }

  function Plus(a: real, b: real): real {
    a + b
  }

  lemma PlusReducible()
    ensures Reducible(Plus, 0.0)
  {
  }
}
