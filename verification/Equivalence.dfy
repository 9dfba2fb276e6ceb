/** Whole-run equivalence: for every draft model, draft vocabulary, acceptance rate and number of
    active requests, speculative decoding publishes what plain greedy decoding publishes. */
module Equivalence {
  import opened Wrappers
  import opened Network
  import opened Forward
  import opened Greedy
  import opened Speculative
  import opened Decode
  import Thinking

  // ---------------------------------------------------------------- the reference outcome

  /** Plain greedy decoding with `budget` tokens to go: what is published and why it ends. */
  function Outcome(m: Model, v: StateView, logits: Row, budget: nat): Option<(seq<Network.Token>, Reason)>
    requires 0 < budget
    decreases budget
  {
    var token := Argmax(logits);
    if token in m.eos then Some(([], Stop))
    else
      var (v', out) :- ForwardTokens(m, v, [token], false);
      if budget == 1 then Some(([token], Length))
      else
        var (rest, reason) :- Outcome(m, v', out.logits[0], budget - 1);
        Some(([token] + rest, reason))
  }

  function Prepend(tokens: seq<Network.Token>, o: Option<(seq<Network.Token>, Reason)>)
      : Option<(seq<Network.Token>, Reason)>
  {
    var (rest, reason) :- o;
    Some((tokens + rest, reason))
  }

  function TokenEvents(tokens: seq<Network.Token>, first: nat): (r: seq<Event>)
    ensures |r| == |tokens|
  {
    seq(|tokens|, i requires 0 <= i < |tokens| => Event.Token(tokens[i], first + i))
  }

  /** `d` is where a request that was at `start` ends after publishing `tokens`. */
  ghost predicate Ended(r: Request, start: DecodeView, d: DecodeView, tokens: seq<Network.Token>, reason: Reason) {
    && d.terminal
    && d.history == start.history + tokens
    && d.generated == start.generated + |tokens|
    && d.log == start.log + TokenEvents(tokens, start.generated) +
                [Finished(reason, |r.prompt|, start.generated + |tokens|, start.cached)]
  }

  // ---------------------------------------------------------------- plain greedy runs reach it

  ghost predicate PlainGreedy(r: Request) {
    r.sampling.IsGreedy() && !r.Budgeted()
  }

  /** Without a thinking budget nothing is ever forced. */
  lemma PlainGreedyStep(m: Model, r: Request, d: DecodeView)
    requires PlainGreedy(r) && d.forced == [] && d.generated < r.maxNewTokens && !d.terminal && 0 < |d.logits|
    ensures var token := Argmax(d.logits);
            match PlainStep(m, r, d)
            case None => token !in m.eos && ForwardTokens(m, d.state, [token], false).None?
            case Some(d') =>
              if token in m.eos then d' == Finish(r, d, Stop)
              else
                && ForwardTokens(m, d.state, [token], false).Some?
                && d'.state == ForwardTokens(m, d.state, [token], false).value.0
                && d'.logits == ForwardTokens(m, d.state, [token], false).value.1.logits[0]
                && d'.forced == [] && d'.cached == d.cached
                && d'.history == d.history + [token] && d'.generated == d.generated + 1
                && d'.terminal == (d.generated + 1 == r.maxNewTokens)
                && d'.log == d.log + [Event.Token(token, d.generated)] +
                             if d'.terminal then [Finished(Length, |r.prompt|, d.generated + 1, d.cached)] else []
  {
    hide ForwardTokens;
  }

  lemma {:induction false} RunFront(m: Model, r: Request, d: DecodeView, n: nat)
    requires !d.terminal && d.generated <= r.maxNewTokens
    ensures Run(m, r, d, n + 1) ==
            match PlainStep(m, r, d)
            case None => None
            case Some(d') => Run(m, r, d', n)
    decreases n
  {
    hide PlainStep;
    if n == 0 {
      assert Run(m, r, d, 0) == Some(d);
    } else {
      RunFront(m, r, d, n - 1);
    }
  }

  lemma {:induction false} RunTerminal(m: Model, r: Request, d: DecodeView, n: nat)
    requires d.terminal
    ensures Run(m, r, d, n) == Some(d)
    decreases n
  {
    hide PlainStep;
    if 0 < n {
      RunTerminal(m, r, d, n - 1);
    }
  }

  lemma EndedLater(r: Request, start: DecodeView, d: DecodeView, end: DecodeView, token: Network.Token,
      rest: seq<Network.Token>, reason: Reason)
    requires Ended(r, d, end, rest, reason)
    requires d.history == start.history + [token] && d.generated == start.generated + 1 && d.cached == start.cached
    requires d.log == start.log + [Event.Token(token, start.generated)]
    ensures Ended(r, start, end, [token] + rest, reason)
  {
    assert TokenEvents([token] + rest, start.generated) == [Event.Token(token, start.generated)] +
        TokenEvents(rest, d.generated);
  }

  /** The plain path reaches the reference outcome, and fails exactly when the outcome does. */
  lemma {:induction false} PlainRunReaches(m: Model, r: Request, d: DecodeView, budget: nat)
    requires m.Valid() && PlainGreedy(r) && d.forced == [] && !d.terminal && 0 < |d.logits|
    requires 0 < budget == r.maxNewTokens - d.generated
    ensures Outcome(m, d.state, d.logits, budget).None? <==> Run(m, r, d, budget).None?
    ensures Outcome(m, d.state, d.logits, budget).Some? ==>
              Ended(r, d, Run(m, r, d, budget).value,
                    Outcome(m, d.state, d.logits, budget).value.0, Outcome(m, d.state, d.logits, budget).value.1)
    decreases budget
  {
    hide ForwardTokens, PlainStep;
    var token := Argmax(d.logits);
    PlainGreedyStep(m, r, d);
    RunFront(m, r, d, budget - 1);
    if PlainStep(m, r, d).Some? {
      var d' := PlainStep(m, r, d).value;
      if d'.terminal {
        RunTerminal(m, r, d', budget - 1);
        if token in m.eos {
          assert TokenEvents([], d.generated) == [] && d.log + [] == d.log && d.history + [] == d.history;
        } else {
          assert TokenEvents([token], d.generated) == [Event.Token(token, d.generated)];
        }
      } else {
        LogitsNonEmpty(m, d.state, token);
        PlainRunReaches(m, r, d', budget - 1);
        if Outcome(m, d'.state, d'.logits, budget - 1).Some? {
          var o := Outcome(m, d'.state, d'.logits, budget - 1).value;
          EndedLater(r, d, d', Run(m, r, d', budget - 1).value, token, o.0, o.1);
        }
      }
    }
  }

  lemma LogitsNonEmpty(m: Model, v: StateView, token: Network.Token)
    requires m.Valid() && ForwardTokens(m, v, [token], false).Some?
    ensures 0 < |ForwardTokens(m, v, [token], false).value.1.logits[0]|
  {
  }

  // ---------------------------------------------------------------- speculative runs reach it

  /** The publishing loop after a round: an EOS finishes and is not published. */
  function PublishRound(m: Model, r: Request, d: DecodeView, tokens: seq<Network.Token>): DecodeView
    decreases |tokens|
  {
    if |tokens| == 0 then d
    else if tokens[0] in m.eos then Finish(r, d, Stop)
    else PublishRound(m, r, Publish(d, tokens[0]), tokens[1..])
  }

  function AfterRound(m: Model, r: Request, d: DecodeView, state: StateView, round: Round): DecodeView {
    PublishEnd(m, r, d.(state := state, logits := round.logits), round.tokens)
  }

  function PublishEnd(m: Model, r: Request, d: DecodeView, tokens: seq<Network.Token>): DecodeView {
    var published := PublishRound(m, r, d, tokens);
    if !published.terminal && published.generated == r.maxNewTokens then Finish(r, published, Length) else published
  }

  /** One speculative step: any round whatsoever that meets the round contract. */
  ghost predicate SpeculativeStep(m: Model, r: Request, d: DecodeView, d': DecodeView) {
    && !d.terminal && d.generated < r.maxNewTokens
    && exists state: StateView, round: Round ::
         Commits(m, d.state, d.logits, r.maxNewTokens - d.generated, state, round) &&
         d' == AfterRound(m, r, d, state, round)
  }

  lemma RoundSteps(m: Model, r: Request, d: DecodeView, state: StateView, round: Round)
    requires !d.terminal && d.generated < r.maxNewTokens
    requires Commits(m, d.state, d.logits, r.maxNewTokens - d.generated, state, round)
    ensures SpeculativeStep(m, r, d, AfterRound(m, r, d, state, round))
  {
  }

  lemma {:induction false} PublishAll(m: Model, r: Request, d: DecodeView, tokens: seq<Network.Token>)
    requires forall t | t in tokens :: t !in m.eos
    ensures PublishRound(m, r, d, tokens) ==
            d.(history := d.history + tokens, generated := d.generated + |tokens|, log := d.log +
                TokenEvents(tokens, d.generated))
    decreases |tokens|
  {
    if |tokens| == 0 {
      assert TokenEvents([], d.generated) == [] && d.history + [] == d.history && d.log + [] == d.log;
      assert tokens == [];
    } else {
      PublishAll(m, r, Publish(d, tokens[0]), tokens[1..]);
      assert (d.history + [tokens[0]]) + tokens[1..] == d.history + tokens;
      assert TokenEvents(tokens, d.generated) == [Event.Token(tokens[0], d.generated)] +
          TokenEvents(tokens[1..], d.generated + 1);
    }
  }

  lemma {:induction false} PublishAppend(m: Model, r: Request, d: DecodeView, tokens: seq<Network.Token>,
      last: Network.Token)
    requires forall t | t in tokens :: t !in m.eos
    ensures PublishRound(m, r, d, tokens + [last]) == PublishRound(m, r, PublishRound(m, r, d, tokens), [last])
    decreases |tokens|
  {
    if |tokens| == 0 {
      assert tokens + [last] == [last];
    } else {
      assert (tokens + [last])[1..] == tokens[1..] + [last];
      PublishAppend(m, r, Publish(d, tokens[0]), tokens[1..], last);
    }
  }

  /** The first greedy token, and the greedy run after it. */
  lemma GreedyFront(m: Model, v: StateView, logits: Row, n: nat)
    requires 0 < n && GreedyDecode(m, v, logits, n).Some?
    ensures var token := Argmax(logits);
            ForwardTokens(m, v, [token], false).Some? &&
            var (v', out) := ForwardTokens(m, v, [token], false).value;
            var g, rest := GreedyDecode(m, v, logits, n).value, GreedyDecode(m, v', out.logits[0], n - 1);
            rest.Some? && g.tokens == [token] + rest.value.tokens && g.state == rest.value.state &&
                g.logits == rest.value.logits
  {
    hide ForwardTokens;
    GreedySplit(m, v, logits, 1, n - 1);
    GreedyOne(m, v, logits, 0, GreedyRun(v, logits, []), Argmax(logits));
    assert [] + [Argmax(logits)] == [Argmax(logits)];
  }

  /** Greedy tokens short of the budget lead the outcome; greedy tokens filling it are the outcome. */
  lemma {:induction false} OutcomeSplit(m: Model, v: StateView, logits: Row, n: nat, budget: nat)
    requires GreedyDecode(m, v, logits, n).Some? && n <= budget && 0 < budget
    requires forall t | t in GreedyDecode(m, v, logits, n).value.tokens :: t !in m.eos
    ensures var g := GreedyDecode(m, v, logits, n).value;
            Outcome(m, v, logits, budget) ==
              if n == budget then Some((g.tokens, Length))
              else Prepend(g.tokens, Outcome(m, g.state, g.logits, budget - n))
    decreases n
  {
    hide ForwardTokens, GreedyDecode, Outcome;
    var g := GreedyDecode(m, v, logits, n).value;
    if n == 0 {
      GreedyNone(m, v, logits);
      PrependNothing(Outcome(m, v, logits, budget));
    } else {
      GreedyFront(m, v, logits, n);
      var token := Argmax(logits);
      var (v', out) := ForwardTokens(m, v, [token], false).value;
      var rest := GreedyDecode(m, v', out.logits[0], n - 1).value;
      assert g.tokens[0] == token && forall t | t in rest.tokens :: t in g.tokens;
      OutcomeUnfolds(m, v, logits, budget);
      if budget == 1 {
        assert g.tokens == [token];
      } else {
        OutcomeSplit(m, v', out.logits[0], n - 1, budget - 1);
        if n < budget {
          PrependTwice([token], rest.tokens, Outcome(m, g.state, g.logits, budget - n));
        }
      }
    }
  }

  lemma GreedyNone(m: Model, v: StateView, logits: Row)
    ensures GreedyDecode(m, v, logits, 0) == Some(GreedyRun(v, logits, []))
  {
  }

  lemma PrependNothing(o: Option<(seq<Network.Token>, Reason)>)
    ensures Prepend([], o) == o
  {
    if o.Some? {
      assert [] + o.value.0 == o.value.0;
    }
  }

  /** The outcome past a token that is not EOS. */
  lemma OutcomeUnfolds(m: Model, v: StateView, logits: Row, budget: nat)
    requires 0 < budget && Argmax(logits) !in m.eos && ForwardTokens(m, v, [Argmax(logits)], false).Some?
    ensures var (v', out) := ForwardTokens(m, v, [Argmax(logits)], false).value;
            Outcome(m, v, logits, budget) ==
            if budget == 1 then Some(([Argmax(logits)], Length))
            else Prepend([Argmax(logits)], Outcome(m, v', out.logits[0], budget - 1))
  {
    hide ForwardTokens;
  }

  lemma PrependTwice(a: seq<Network.Token>, b: seq<Network.Token>, o: Option<(seq<Network.Token>, Reason)>)
    ensures Prepend(a, Prepend(b, o)) == Prepend(a + b, o)
  {
    if o.Some? {
      assert a + (b + o.value.0) == (a + b) + o.value.0;
    }
  }

  // ---------------------------------------------------------------- one round against the outcome

  /** `d'` has published `tokens` since `d`, and they are the next tokens of the outcome. */
  ghost predicate Advances(m: Model, r: Request, d: DecodeView, d': DecodeView, tokens: seq<Network.Token>)
    requires d.generated < r.maxNewTokens
  {
    && !d'.terminal && d.generated < d'.generated < r.maxNewTokens && d'.cached == d.cached
    && d'.history == d.history + tokens && d'.generated == d.generated + |tokens|
    && d'.log == d.log + TokenEvents(tokens, d.generated)
    && Outcome(m, d.state, d.logits, r.maxNewTokens - d.generated) ==
       Prepend(tokens, Outcome(m, d'.state, d'.logits, r.maxNewTokens - d'.generated))
  }

  ghost predicate Reaches(m: Model, r: Request, d: DecodeView, end: DecodeView)
    requires d.generated < r.maxNewTokens
  {
    var o := Outcome(m, d.state, d.logits, r.maxNewTokens - d.generated);
    o.Some? && Ended(r, d, end, o.value.0, o.value.1)
  }

  /** One round either ends the request with the reference outcome, or publishes exactly the next
      tokens of it. */
  lemma RoundFollows(m: Model, r: Request, d: DecodeView, d': DecodeView) returns (tokens: seq<Network.Token>)
    requires SpeculativeStep(m, r, d, d')
    ensures if d'.terminal then Reaches(m, r, d, d') else Advances(m, r, d, d', tokens)
  {
    hide Commits, AfterRound, Reaches, Advances;
    var state, round :| Commits(m, d.state, d.logits, r.maxNewTokens - d.generated, state, round) &&
                        d' == AfterRound(m, r, d, state, round);
    tokens := round.tokens;
    assert 0 < |tokens| by { CommitsSome(m, d.state, d.logits, r.maxNewTokens - d.generated, state, round); }
    if tokens[|tokens| - 1] in m.eos {
      EosRound(m, r, d, state, round);
    } else {
      PlainRound(m, r, d, state, round);
    }
  }

  lemma CommitsSome(m: Model, v: StateView, logits: Row, maxTokens: nat, v': StateView, round: Round)
    requires Commits(m, v, logits, maxTokens, v', round)
    ensures 1 <= |round.tokens| <= maxTokens
  {
  }

  /** A round without EOS publishes all its tokens. */
  lemma PlainRound(m: Model, r: Request, d: DecodeView, state: StateView, round: Round)
    requires !d.terminal && d.generated < r.maxNewTokens
    requires Commits(m, d.state, d.logits, r.maxNewTokens - d.generated, state, round)
    requires round.tokens[|round.tokens| - 1] !in m.eos
    ensures var d' := AfterRound(m, r, d, state, round);
            if d'.terminal then Reaches(m, r, d, d') else Advances(m, r, d, d', round.tokens)
  {
    hide ForwardTokens, GreedyDecode, Outcome;
    var tokens, budget := round.tokens, r.maxNewTokens - d.generated;
    assert forall t | t in tokens :: t !in m.eos;
    PublishAll(m, r, d.(state := state, logits := round.logits), tokens);
    OutcomeSplit(m, d.state, d.logits, |tokens|, budget);
  }

  /** A round that ends in EOS publishes the tokens before it and stops. */
  lemma EosRound(m: Model, r: Request, d: DecodeView, state: StateView, round: Round)
    requires !d.terminal && d.generated < r.maxNewTokens
    requires Commits(m, d.state, d.logits, r.maxNewTokens - d.generated, state, round)
    requires round.tokens[|round.tokens| - 1] in m.eos
    ensures AfterRound(m, r, d, state, round).terminal && Reaches(m, r, d, AfterRound(m, r, d, state, round))
  {
    hide ForwardTokens, GreedyDecode;
    var tokens, budget := round.tokens, r.maxNewTokens - d.generated;
    var n := |tokens| - 1;
    var front := tokens[..n];
    assert tokens == front + [tokens[n]];
    var d1 := d.(state := state, logits := round.logits);
    PublishAppend(m, r, d1, front, tokens[n]);
    PublishAll(m, r, d1, front);
    GreedyPrefix(m, d.state, d.logits, n + 1, n);
    GreedyLast(m, d.state, d.logits, n);
    OutcomeSplit(m, d.state, d.logits, n, budget);
    var g := GreedyDecode(m, d.state, d.logits, n).value;
    assert Outcome(m, g.state, g.logits, budget - n) == Some(([], Stop));
    assert front + [] == front;
  }

  lemma GreedyLast(m: Model, v: StateView, logits: Row, n: nat)
    requires GreedyDecode(m, v, logits, n + 1).Some?
    ensures GreedyDecode(m, v, logits, n).Some?
    ensures GreedyDecode(m, v, logits, n + 1).value.tokens[n] == Argmax(GreedyDecode(m, v, logits, n).value.logits)
  {
    hide ForwardTokens;
  }

  lemma {:induction false} OutcomeWithin(m: Model, v: StateView, logits: Row, budget: nat)
    requires 0 < budget && Outcome(m, v, logits, budget).Some?
    ensures var (tokens, reason) := Outcome(m, v, logits, budget).value;
            |tokens| <= budget && (reason == Stop || reason == Length) && (reason == Length <==> |tokens| == budget)
    decreases budget
  {
    hide ForwardTokens;
    var token := Argmax(logits);
    if token !in m.eos && 1 < budget {
      var (v', out) := ForwardTokens(m, v, [token], false).value;
      OutcomeWithin(m, v', out.logits[0], budget - 1);
    }
  }

  // ---------------------------------------------------------------- whole runs

  ghost predicate SpeculativeRun(m: Model, r: Request, ds: seq<DecodeView>) {
    && 0 < |ds|
    && forall i | 0 <= i < |ds| - 1 :: SpeculativeStep(m, r, ds[i], ds[i + 1])
  }

  lemma RestOfRun(m: Model, r: Request, ds: seq<DecodeView>)
    requires SpeculativeRun(m, r, ds) && 1 < |ds|
    ensures SpeculativeRun(m, r, ds[1..]) && SpeculativeStep(m, r, ds[0], ds[1])
    ensures ds[1].terminal ==> |ds| == 2
  {
    hide SpeculativeStep;
    var rest := ds[1..];
    forall i | 0 <= i < |rest| - 1 ensures SpeculativeStep(m, r, rest[i], rest[i + 1]) {
      assert rest[i] == ds[i + 1] && rest[i + 1] == ds[i + 1 + 1];
    }
    if |ds| > 2 {
      assert SpeculativeStep(m, r, ds[1], ds[1 + 1]);
      StepsOn(m, r, ds[1], ds[2]);
    }
  }

  lemma StepsOn(m: Model, r: Request, d: DecodeView, d': DecodeView)
    requires SpeculativeStep(m, r, d, d')
    ensures !d.terminal && d.generated < r.maxNewTokens
  {
  }

  /** Every round makes progress, so a run is no longer than its token budget. */
  lemma {:induction false} SpeculativeRunsEnd(m: Model, r: Request, ds: seq<DecodeView>)
    requires SpeculativeRun(m, r, ds) && ds[0].generated <= r.maxNewTokens
    ensures |ds| - 1 <= r.maxNewTokens - ds[0].generated
    decreases |ds|
  {
    hide SpeculativeRun, SpeculativeStep, Outcome, Reaches;
    if |ds| > 1 {
      RestOfRun(m, r, ds);
      StepsOn(m, r, ds[0], ds[1]);
      var tokens := RoundFollows(m, r, ds[0], ds[1]);
      if !ds[1].terminal {
        SpeculativeRunsEnd(m, r, ds[1..]);
      }
    }
  }

  lemma EndedAfter(r: Request, start: DecodeView, mid: DecodeView, end: DecodeView, tokens: seq<Network.Token>,
      rest: seq<Network.Token>, reason: Reason)
    requires Ended(r, mid, end, rest, reason)
    requires mid.history == start.history + tokens && mid.generated == start.generated + |tokens| &&
             mid.cached == start.cached
    requires mid.log == start.log + TokenEvents(tokens, start.generated)
    ensures Ended(r, start, end, tokens + rest, reason)
  {
    assert TokenEvents(tokens + rest, start.generated) == TokenEvents(tokens, start.generated) +
        TokenEvents(rest, mid.generated);
  }

  lemma ReachesAfter(m: Model, r: Request, start: DecodeView, mid: DecodeView, end: DecodeView,
      tokens: seq<Network.Token>)
    requires start.generated < r.maxNewTokens && Advances(m, r, start, mid, tokens) && Reaches(m, r, mid, end)
    ensures Reaches(m, r, start, end)
  {
    hide Outcome, Ended;
    var o := Outcome(m, mid.state, mid.logits, r.maxNewTokens - mid.generated).value;
    EndedAfter(r, start, mid, end, tokens, o.0, o.1);
  }

  /** A speculative run that ends, ends exactly where plain greedy decoding does. */
  lemma {:induction false} SpeculativeRunReaches(m: Model, r: Request, ds: seq<DecodeView>)
    requires SpeculativeRun(m, r, ds) && !ds[0].terminal && ds[0].generated < r.maxNewTokens
    requires ds[|ds| - 1].terminal
    ensures Reaches(m, r, ds[0], ds[|ds| - 1])
    decreases |ds|
  {
    hide SpeculativeStep, Reaches, Outcome;
    assert 1 < |ds|;
    RestOfRun(m, r, ds);
    var tokens := RoundFollows(m, r, ds[0], ds[1]);
    if !ds[1].terminal {
      assert ds[1..][|ds| - 2] == ds[|ds| - 1];
      SpeculativeRunReaches(m, r, ds[1..]);
      ReachesAfter(m, r, ds[0], ds[1], ds[|ds| - 1], tokens);
    }
  }

  /** The same request decoded speculatively and plainly from the same target state and logits:
      whenever the speculative run completes, the plain run completes within its token budget, with
      the same published tokens, token events, completion count and finish reason. */
  lemma SpeculativeEqualsPlain(m: Model, r: Request, ds: seq<DecodeView>, plain: DecodeView)
      returns (tokens: seq<Network.Token>, reason: Reason)
    requires m.Valid() && PlainGreedy(r)
    requires SpeculativeRun(m, r, ds) && !ds[0].terminal && ds[0].generated < r.maxNewTokens
    requires ds[|ds| - 1].terminal
    requires plain.state == ds[0].state && plain.logits == ds[0].logits && 0 < |plain.logits|
    requires plain.generated == ds[0].generated && plain.forced == [] && !plain.terminal
    ensures Ended(r, ds[0], ds[|ds| - 1], tokens, reason) && (reason == Stop || reason == Length)
    ensures var end := Run(m, r, plain, r.maxNewTokens - plain.generated);
            end.Some? && Ended(r, plain, end.value, tokens, reason)
  {
    hide Outcome, Run, Ended;
    SpeculativeRunReaches(m, r, ds);
    PlainRunReaches(m, r, plain, r.maxNewTokens - plain.generated);
    OutcomeWithin(m, plain.state, plain.logits, r.maxNewTokens - plain.generated);
    var o := Outcome(m, plain.state, plain.logits, r.maxNewTokens - plain.generated).value;
    tokens, reason := o.0, o.1;
  }
}
