/** Plain greedy decoding: the reference every speculative run is compared with. */
module Greedy {
  import opened Wrappers
  import opened Network
  import opened Forward
  import Chunks
  import Fold

  /** The first index of the largest value. */
  function Argmax(logits: Row): (best: nat)
    ensures 0 < |logits| ==> best < |logits|
    ensures forall j | 0 <= j < |logits| :: logits[j] <= logits[best]
    ensures forall j | 0 <= j < |logits| && j < best :: logits[j] < logits[best]
  {
    if |logits| <= 1 then 0
    else
      var n := |logits| - 1;
      var b := Argmax(logits[..n]);
      if logits[n] > logits[b] then n else b
  }

  /** Both `argmax` loops (sampling and speculative) keep the earliest of equal values. */
  method ArgmaxLoop(logits: Row) returns (best: nat)
    ensures best == Argmax(logits)
  {
    best := 0;
    var i := 1;
    assert 0 < |logits| ==> Argmax(logits[..1]) == 0;
    while i < |logits|
      invariant 1 <= i && (|logits| == 0 ==> best == 0)
      invariant 0 < |logits| ==> best < i <= |logits| && best == Argmax(logits[..i])
    {
      assert logits[..i + 1][..i] == logits[..i];
      if logits[i] > logits[best] {
        best := i;
      }
      i := i + 1;
    }
    assert 0 < |logits| ==> logits[..|logits|] == logits;
  }

  /** Whether `t` beats `u` among draft candidates: larger value, then smaller index. */
  predicate Beats(logits: Row, t: Token, u: Token)
    requires t < |logits| && u < |logits|
  {
    logits[t] > logits[u] || (logits[t] == logits[u] && t <= u)
  }

  /** The best of the listed tokens; of equals the smaller. */
  function Best(logits: Row, list: seq<Token>): (r: Token)
    requires 0 < |list| && forall i | 0 <= i < |list| :: list[i] < |logits|
    ensures r in list && forall t | t in list :: Beats(logits, r, t)
  {
    var t := list[|list| - 1];
    if |list| == 1 then t
    else
      assert list == list[..|list| - 1] + [t] && t in list;
      var b := Best(logits, list[..|list| - 1]);
      if logits[t] > logits[b] || (logits[t] == logits[b] && t < b) then t else b
  }

  /** The argmax over an allowed subset; an empty subset or an index outside the vocabulary is refused. */
  function Restricted(logits: Row, allowed: Option<seq<Token>>): (r: Option<Token>)
    ensures allowed.Some? ==>
              (r.None? <==> |allowed.value| == 0 || exists t | t in allowed.value :: t >= |logits|)
    ensures allowed.Some? && r.Some? ==>
              r.value in allowed.value && r.value < |logits| &&
              forall t | t in allowed.value :: t < |logits| && Beats(logits, r.value, t)
  {
    if allowed.None? then Some(Argmax(logits))
    else if |allowed.value| == 0 || exists t | t in allowed.value :: t >= |logits| then None
    else
      assert forall i | 0 <= i < |allowed.value| :: allowed.value[i] in allowed.value;
      Some(Best(logits, allowed.value))
  }

  method ArgmaxRestricted(logits: Row, allowed: Option<seq<Token>>) returns (r: Option<Token>)
    ensures r == Restricted(logits, allowed)
  {
    if allowed.None? {
      var best := ArgmaxLoop(logits);
      return Some(best);
    }
    var list := allowed.value;
    if |list| == 0 {
      return None;
    }
    r := None;
    for i := 0 to |list|
      invariant forall j | 0 <= j < i :: list[j] < |logits|
      invariant r == if i == 0 then None else Some(Best(logits, list[..i]))
    {
      var index := list[i];
      if index >= |logits| {
        assert index in list;
        return None;
      }
      assert list[..i + 1][..i] == list[..i];
      if r.None? || logits[index] > logits[r.value] || (logits[index] == logits[r.value] && index < r.value) {
        r := Some(index);
      }
    }
    assert list[..|list|] == list;
  }

  // ---------------------------------------------------------------- the greedy run

  datatype GreedyRun = GreedyRun(state: StateView, logits: Row, tokens: seq<Token>)

  /** `n` greedy tokens, each run through the target on its own. */
  function GreedyDecode(m: Model, v: StateView, logits: Row, n: nat): (r: Option<GreedyRun>)
    ensures r.Some? ==> |r.value.tokens| == n
  {
    if n == 0 then Some(GreedyRun(v, logits, []))
    else
      var g :- GreedyDecode(m, v, logits, n - 1);
      var token := Argmax(g.logits);
      var (v', out) :- ForwardTokens(m, g.state, [token], false);
      Some(GreedyRun(v', out.logits[0], g.tokens + [token]))
  }

  /** Whether a token list follows the greedy choice at every row of its own verification. */
  ghost predicate Follows(logits: Row, rows: seq<Row>, tokens: seq<Token>) {
    && |tokens| <= |rows|
    && (0 < |tokens| ==> tokens[0] == Argmax(logits))
    && forall i | 0 < i < |tokens| :: tokens[i] == Argmax(rows[i - 1])
  }

  /** Verifying a token list in one call with logits for every row establishes the greedy run on
      exactly those tokens. */
  lemma {:induction false} VerifiedIsGreedy(m: Model, v: StateView, logits: Row, tokens: seq<Token>)
    requires 0 < |tokens| && ForwardTokens(m, v, tokens, true).Some?
    requires Follows(logits, ForwardTokens(m, v, tokens, true).value.1.logits, tokens)
    ensures var all := ForwardTokens(m, v, tokens, true).value;
            GreedyDecode(m, v, logits, |tokens|) == Some(GreedyRun(all.0, all.1.logits[|tokens| - 1], tokens))
    decreases |tokens|
  {
    hide Forwarded, Fold.Run, Fold.MapRows, ForwardTokens;
    var n := |tokens| - 1;
    var front, last := tokens[..n], [tokens[n]];
    assert front + last == tokens;
    if n == 0 {
      assert tokens == last;
      Chunks.TextLastRow(m, v, tokens);
      GreedyOne(m, v, logits, 0, GreedyRun(v, logits, []), tokens[n]);
    } else {
      Chunks.TextTwoAll(m, v, front, last);
      var first := ForwardTokens(m, v, front, true).value;
      VerifiedIsGreedy(m, v, logits, front);
      Chunks.TextLastRow(m, first.0, last);
      GreedyOne(m, v, logits, n, GreedyRun(first.0, first.1.logits[n - 1], front), tokens[n]);
    }
  }

  lemma GreedyOne(m: Model, v: StateView, logits: Row, n: nat, g: GreedyRun, token: Token)
    requires GreedyDecode(m, v, logits, n) == Some(g) && token == Argmax(g.logits)
    ensures GreedyDecode(m, v, logits, n + 1) ==
            match ForwardTokens(m, g.state, [token], false)
            case None => None
            case Some(p) => Some(GreedyRun(p.0, p.1.logits[0], g.tokens + [token]))
  {
    hide ForwardTokens;
  }

  /** Greedy runs compose. */
  lemma {:induction false} GreedySplit(m: Model, v: StateView, logits: Row, a: nat, b: nat)
    ensures GreedyDecode(m, v, logits, a + b) ==
            match GreedyDecode(m, v, logits, a)
            case None => None
            case Some(g) =>
              match GreedyDecode(m, g.state, g.logits, b)
              case None => None
              case Some(h) => Some(GreedyRun(h.state, h.logits, g.tokens + h.tokens))
    decreases b
  {
    hide ForwardTokens;
    if b == 0 {
      if GreedyDecode(m, v, logits, a).Some? {
        var g := GreedyDecode(m, v, logits, a).value;
        assert g.tokens + [] == g.tokens;
      }
    } else {
      GreedySplit(m, v, logits, a, b - 1);
      if GreedyDecode(m, v, logits, a).Some? {
        var g := GreedyDecode(m, v, logits, a).value;
        if GreedyDecode(m, g.state, g.logits, b - 1).Some? {
          var h := GreedyDecode(m, g.state, g.logits, b - 1).value;
          var token := Argmax(h.logits);
          assert (g.tokens + h.tokens) + [token] == g.tokens + (h.tokens + [token]);
        }
      }
    }
  }

  /** Shorter greedy runs are prefixes of longer ones. */
  lemma GreedyPrefix(m: Model, v: StateView, logits: Row, n: nat, k: nat)
    requires k <= n && GreedyDecode(m, v, logits, n).Some?
    ensures GreedyDecode(m, v, logits, k).Some?
    ensures GreedyDecode(m, v, logits, k).value.tokens == GreedyDecode(m, v, logits, n).value.tokens[..k]
  {
    hide GreedyDecode;
    GreedySplit(m, v, logits, k, n - k);
    if GreedyDecode(m, v, logits, k).Some? {
      var g := GreedyDecode(m, v, logits, k).value;
      assert GreedyDecode(m, g.state, g.logits, n - k).Some?;
    }
  }
}
