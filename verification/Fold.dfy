/** A causal fold: a state is threaded through a row sequence, each row yields one output,
    and the first failing row fails the whole call. */
module Fold {
  import opened Wrappers

  function Run<S, I, O>(step: (S, I) -> Option<(S, O)>, s: S, xs: seq<I>): (r: Option<(S, seq<O>)>)
    ensures r.Some? ==> |r.value.1| == |xs|
  {
    if |xs| == 0 then Some((s, []))
    else
      var (s1, ys) :- Run(step, s, xs[..|xs| - 1]);
      var (s2, y) :- step(s1, xs[|xs| - 1]);
      Some((s2, ys + [y]))
  }

  /** The state after `first`, then `second`, with the outputs of both. */
  function Then<S, I, O>(step: (S, I) -> Option<(S, O)>, first: Option<(S, seq<O>)>, second: seq<I>)
    : Option<(S, seq<O>)>
  {
    var (s1, ys) :- first;
    var (s2, zs) :- Run(step, s1, second);
    Some((s2, ys + zs))
  }

  /** Cutting the rows anywhere changes neither the outcome, the final state nor the outputs. */
  lemma {:induction false} Split<S, I, O>(step: (S, I) -> Option<(S, O)>, s: S, xs: seq<I>, zs: seq<I>)
    ensures Run(step, s, xs + zs) == Then(step, Run(step, s, xs), zs)
    decreases |zs|
  {
    if |zs| == 0 {
      assert xs + zs == xs;
      if Run(step, s, xs).Some? {
        assert Run(step, s, xs).value.1 + [] == Run(step, s, xs).value.1;
      }
    } else {
      var front, last := zs[..|zs| - 1], zs[|zs| - 1];
      Split(step, s, xs, front);
      var all := xs + zs;
      assert all[..|all| - 1] == xs + front && all[|all| - 1] == last;
      match Run(step, s, xs) {
        case None =>
        case Some(p) =>
          match Run(step, p.0, front) {
            case None =>
            case Some(q) =>
              match step(q.0, last) {
                case None =>
                case Some(e) => assert (p.1 + q.1) + [e.1] == p.1 + (q.1 + [e.1]);
              }
          }
      }
    }
  }

  /** One more row. */
  lemma Snoc<S, I, O>(step: (S, I) -> Option<(S, O)>, s: S, xs: seq<I>, x: I)
    ensures Run(step, s, xs + [x]) ==
            match Run(step, s, xs)
            case None => None
            case Some(p) => match step(p.0, x) case None => None case Some(q) => Some((q.0, p.1 + [q.1]))
  {
    var all := xs + [x];
    assert all[..|all| - 1] == xs;
  }

  /** A failing prefix fails the whole run. */
  lemma PrefixFails<S, I, O>(step: (S, I) -> Option<(S, O)>, s: S, xs: seq<I>, n: nat)
    requires n <= |xs| && Run(step, s, xs[..n]).None?
    ensures Run(step, s, xs).None?
  {
    Split(step, s, xs[..n], xs[n..]);
    assert xs[..n] + xs[n..] == xs;
  }

  /** A row-wise map that may fail, as a loop over rows. */
  function MapRows<I, O>(f: I -> Option<O>, xs: seq<I>): (r: Option<seq<O>>)
    ensures r.Some? ==> |r.value| == |xs|
    ensures r.Some? <==> forall i | 0 <= i < |xs| :: f(xs[i]).Some?
    ensures r.Some? ==> forall i | 0 <= i < |xs| :: f(xs[i]) == Some(r.value[i])
  {
    if |xs| == 0 then Some([])
    else
      var ys :- MapRows(f, xs[..|xs| - 1]);
      var y :- f(xs[|xs| - 1]);
      Some(ys + [y])
  }

  method EachRow<I, O>(f: I -> Option<O>, xs: seq<I>) returns (r: Option<seq<O>>)
    ensures r == MapRows(f, xs)
  {
    var ys: seq<O> := [];
    for i := 0 to |xs|
      invariant |ys| == i
      invariant forall j | 0 <= j < i :: f(xs[j]) == Some(ys[j])
    {
      var y :- f(xs[i]);
      ys := ys + [y];
    }
    assert ys == MapRows(f, xs).value;
    r := Some(ys);
  }
}
