/** What a request has published and where its model state stands, at every moment of its decoding
    (src/engine/scheduler.rs, `Active::step`): the state is that of one call on prompt and published
    tokens, and each published token is what the sampler draws there. */
module History {
  import opened Wrappers
  import opened Network
  import opened Forward
  import opened Decode
  import opened PrefixCache
  import opened Scheduler
  import opened Speculative
  import opened Greedy
  import Delivery
  import Equivalence
  import Thinking

  /** The sampler draws `token` on the logits of one call on `history`. */
  ghost predicate Draws(m: Model, start: StateView, r: Request, history: seq<Network.Token>, token: Network.Token) {
    exists state, logits ::
      PrefilledAt(m, start, history, state, logits) && r.sampling.Sample(logits, history) == Some(token)
  }

  /** Tokens that may be published without being drawn: the end marker of a budgeted thinking section. */
  function Forcible(r: Request): seq<Network.Token> {
    if r.Budgeted() then r.thinking.value.endTokens else []
  }

  /** Every token after the prompt was drawn at its place, or forced; none is an EOS. */
  ghost predicate Sourced(m: Model, start: StateView, r: Request, history: seq<Network.Token>) {
    && r.prompt <= history
    && forall i | |r.prompt| <= i < |history| ::
         history[i] !in m.eos && (history[i] in Forcible(r) || Draws(m, start, r, history[..i], history[i]))
  }

  /** How a request without a thinking budget ends: by drawing an EOS, or at its token limit. */
  ghost predicate EndsAs(m: Model, start: StateView, r: Request, history: seq<Network.Token>, generated: nat,
                         reason: Reason)
  {
    && (reason == Stop || reason == Length)
    && (!r.Budgeted() && reason == Stop ==> exists token :: token in m.eos && Draws(m, start, r, history, token))
    && (!r.Budgeted() && reason == Length ==> generated == r.maxNewTokens)
  }

  /** The log is the published tokens in order and, once ended, the terminal event that counts them. */
  ghost predicate Logged(m: Model, start: StateView, r: Request, d: DecodeView)
    requires r.prompt <= d.history
  {
    var events := Equivalence.TokenEvents(Published(r, d), 0);
    && d.generated == |Published(r, d)|
    && if d.terminal then
         exists reason :: EndsAs(m, start, r, d.history, d.generated, reason) &&
             d.log == events + [Finished(reason, |r.prompt|, d.generated, d.cached)]
       else d.log == events
  }

  ghost predicate Recounts(m: Model, start: StateView, r: Request, d: DecodeView) {
    && Sourced(m, start, r, d.history) && Logged(m, start, r, d)
    && (forall t | t in d.forced :: t in Forcible(r))
    && (!d.terminal ==> PrefilledAt(m, start, d.history, d.state, d.logits))
  }

  // ---------------------------------------------------------------- one more token

  lemma SourcedPrompt(m: Model, start: StateView, r: Request, history: seq<Network.Token>)
    requires Sourced(m, start, r, history)
    ensures r.prompt <= history
  {
  }

  lemma SourcedSnoc(m: Model, start: StateView, r: Request, history: seq<Network.Token>, token: Network.Token)
    requires Sourced(m, start, r, history) && token !in m.eos
    requires token in Forcible(r) || Draws(m, start, r, history, token)
    ensures Sourced(m, start, r, history + [token])
  {
    hide Draws;
    var all := history + [token];
    assert all[..|history|] == history;
    forall i | |r.prompt| <= i < |history|
      ensures all[i] !in m.eos && (all[i] in Forcible(r) || Draws(m, start, r, all[..i], all[i]))
    {
      assert all[i] == history[i] && all[..i] == history[..i];
    }
  }

  lemma EventsSnoc(r: Request, history: seq<Network.Token>, token: Network.Token)
    requires r.prompt <= history
    ensures r.prompt <= history + [token]
    ensures (history + [token])[|r.prompt|..] == history[|r.prompt|..] + [token]
    ensures Equivalence.TokenEvents((history + [token])[|r.prompt|..], 0) ==
            Equivalence.TokenEvents(history[|r.prompt|..], 0) + [Event.Token(token, |history| - |r.prompt|)]
  {
  }

  lemma Ends(m: Model, start: StateView, r: Request, d: DecodeView, reason: Reason)
    requires Recounts(m, start, r, d) && !d.terminal && EndsAs(m, start, r, d.history, d.generated, reason)
    ensures Recounts(m, start, r, Finish(r, d, reason))
  {
    hide EndsAs, Draws, PrefilledAt;
  }

  /** A published token: the target has run it, and it is logged. */
  lemma Publishes(m: Model, start: StateView, r: Request, d: DecodeView, token: Network.Token, state: StateView,
      logits: Row, forced: seq<Network.Token>, thinking: Option<Thinking.ControllerView>)
    requires Recounts(m, start, r, d) && !d.terminal && token !in m.eos
    requires token in Forcible(r) || Draws(m, start, r, d.history, token)
    requires var run := ForwardTokens(m, d.state, [token], false);
             run.Some? && run.value.0 == state && run.value.1.logits[0] == logits
    requires forall t | t in forced :: t in Forcible(r)
    ensures Recounts(m, start, r, Publish(d.(state := state, logits := logits, forced := forced, thinking := thinking),
                                          token))
  {
    hide Draws, PrefilledAt, ForwardTokens, EndsAs;
    PrefillExtends(m, start, d.history, d.state, d.logits, [token]);
    SourcedSnoc(m, start, r, d.history, token);
    EventsSnoc(r, d.history, token);
  }

  // ---------------------------------------------------------------- plain steps

  lemma QueueCloseForces(m: Model, start: StateView, r: Request, d: DecodeView, remaining: nat)
    requires Recounts(m, start, r, d)
    ensures Recounts(m, start, r, QueueClose(r, d, remaining))
    ensures var q := QueueClose(r, d, remaining); q.terminal == d.terminal && q.generated == d.generated
  {
    hide Sourced, EndsAs, PrefilledAt;
  }

  lemma ObserveForces(r: Request, d: DecodeView, token: Network.Token, wasForced: bool)
    requires forall t | t in d.forced :: t in Forcible(r)
    ensures var o := Observe(r, d, token, wasForced);
            && o == d.(thinking := o.thinking, forced := o.forced)
            && forall t | t in o.forced :: t in Forcible(r)
  {
  }

  lemma SettleRecounts(m: Model, start: StateView, r: Request, q: DecodeView, token: Network.Token, wasForced: bool)
    requires Recounts(m, start, r, q) && !q.terminal
    requires token in Forcible(r) || Draws(m, start, r, q.history, token)
    requires Settle(m, r, q, token, wasForced).Some?
    ensures Recounts(m, start, r, Settle(m, r, q, token, wasForced).value)
  {
    hide Recounts, Draws, ForwardTokens, Observe;
    if token in m.eos {
      Ends(m, start, r, q, Stop);
    } else {
      var (state, out) := ForwardTokens(m, q.state, [token], false).value;
      var logits := out.logits[0];
      assert forall t | t in q.forced :: t in Forcible(r) by { ForcedIn(m, start, r, q); }
      ObserveForces(r, q.(state := state, logits := logits), token, wasForced);
      var o := Observe(r, q.(state := state, logits := logits), token, wasForced);
      Publishes(m, start, r, q, token, state, logits, o.forced, o.thinking);
      if Publish(o, token).generated == r.maxNewTokens {
        Ends(m, start, r, Publish(o, token), Length);
      }
    }
  }

  lemma ForcedIn(m: Model, start: StateView, r: Request, q: DecodeView)
    requires Recounts(m, start, r, q)
    ensures forall t | t in q.forced :: t in Forcible(r)
    ensures !q.terminal ==> PrefilledAt(m, start, q.history, q.state, q.logits)
  {
  }

  lemma ForcedRest(m: Model, start: StateView, r: Request, q: DecodeView, forced: seq<Network.Token>)
    requires Recounts(m, start, r, q) && forall t | t in forced :: t in Forcible(r)
    ensures Recounts(m, start, r, q.(forced := forced))
  {
    hide Sourced, EndsAs, PrefilledAt;
  }

  /** One plain step keeps the account. */
  lemma PlainStepRecounts(m: Model, start: StateView, r: Request, d: DecodeView)
    requires Recounts(m, start, r, d) && !d.terminal && d.generated <= r.maxNewTokens && PlainStep(m, r, d).Some?
    ensures Recounts(m, start, r, PlainStep(m, r, d).value)
  {
    hide Recounts, Settle, QueueClose, PrefilledAt;
    var remaining := r.maxNewTokens - d.generated;
    QueueCloseForces(m, start, r, d, remaining);
    var q := QueueClose(r, d, remaining);
    ForcedIn(m, start, r, q);
    if |q.forced| > 0 {
      ForcedRest(m, start, r, q, q.forced[1..]);
      SettleRecounts(m, start, r, q.(forced := q.forced[1..]), q.forced[0], true);
    } else {
      var token := r.sampling.Sample(q.logits, q.history).value;
      assert Draws(m, start, r, q.history, token);
      if StartsTooLate(r, q, token, remaining) {
        Ends(m, start, r, q, Length);
      } else if ClosesOnEos(m, r, q, token) {
        var end := r.thinking.value.endTokens;
        ForcedRest(m, start, r, q, end[1..]);
        SettleRecounts(m, start, r, q.(forced := end[1..]), end[0], false);
      } else {
        SettleRecounts(m, start, r, q, token, false);
      }
    }
  }

  // ---------------------------------------------------------------- speculative rounds

  /** Greedy tokens are drawn one after the other, each on the state of one call. */
  lemma {:induction false} GreedySourced(m: Model, start: StateView, r: Request, history: seq<Network.Token>,
      v: StateView, logits: Row, n: nat)
    requires m.Valid() && r.sampling.IsGreedy() && Sourced(m, start, r, history)
    requires PrefilledAt(m, start, history, v, logits) && GreedyDecode(m, v, logits, n).Some?
    requires forall t | t in GreedyDecode(m, v, logits, n).value.tokens :: t !in m.eos
    ensures var g := GreedyDecode(m, v, logits, n).value;
            && Sourced(m, start, r, history + g.tokens)
            && PrefilledAt(m, start, history + g.tokens, g.state, g.logits)
            && Draws(m, start, r, history + g.tokens, Argmax(g.logits))
    decreases n
  {
    hide ForwardTokens, Sourced, Argmax;
    var g := GreedyDecode(m, v, logits, n).value;
    if n == 0 {
      assert history + g.tokens == history;
    } else {
      var before := GreedyDecode(m, v, logits, n - 1).value;
      assert g.tokens[..n - 1] == before.tokens && g.tokens[n - 1] in g.tokens;
      assert forall t | t in before.tokens :: t in g.tokens;
      GreedySourced(m, start, r, history, v, logits, n - 1);
      PrefillExtends(m, start, history + before.tokens, before.state, before.logits, [g.tokens[n - 1]]);
      SourcedSnoc(m, start, r, history + before.tokens, g.tokens[n - 1]);
      assert history + g.tokens == (history + before.tokens) + [g.tokens[n - 1]];
    }
    DrawsArgmax(m, start, r, history + g.tokens, g.state, g.logits);
  }

  lemma DrawsArgmax(m: Model, start: StateView, r: Request, history: seq<Network.Token>, v: StateView, logits: Row)
    requires m.Valid() && r.sampling.IsGreedy() && PrefilledAt(m, start, history, v, logits)
    ensures Draws(m, start, r, history, Argmax(logits))
  {
    hide ForwardTokens;
    LogitsWidth(m, start, history);
  }

  lemma EventsPlus(r: Request, history: seq<Network.Token>, tokens: seq<Network.Token>)
    requires r.prompt <= history
    ensures r.prompt <= history + tokens
    ensures (history + tokens)[|r.prompt|..] == history[|r.prompt|..] + tokens
    ensures Equivalence.TokenEvents((history + tokens)[|r.prompt|..], 0) ==
            Equivalence.TokenEvents(history[|r.prompt|..], 0) +
                Equivalence.TokenEvents(tokens, |history| - |r.prompt|)
  {
  }

  /** The view after publishing `tokens` that the target has run greedily. */
  lemma RoundRecounts(m: Model, start: StateView, r: Request, d: DecodeView, n: nat)
    requires m.Valid() && r.sampling.IsGreedy() && Recounts(m, start, r, d) && !d.terminal
    requires GreedyDecode(m, d.state, d.logits, n).Some?
    requires forall t | t in GreedyDecode(m, d.state, d.logits, n).value.tokens :: t !in m.eos
    ensures var g := GreedyDecode(m, d.state, d.logits, n).value;
            var d1 := d.(state := g.state, logits := g.logits);
            && Recounts(m, start, r, Equivalence.PublishRound(m, r, d1, g.tokens))
            && Draws(m, start, r, d.history + g.tokens, Argmax(g.logits))
  {
    hide ForwardTokens, Sourced, Draws, PrefilledAt, Argmax, GreedyDecode;
    var g := GreedyDecode(m, d.state, d.logits, n).value;
    SourcedPrompt(m, start, r, d.history);
    GreedySourced(m, start, r, d.history, d.state, d.logits, n);
    Equivalence.PublishAll(m, r, d.(state := g.state, logits := g.logits), g.tokens);
    EventsPlus(r, d.history, g.tokens);
    assert Published(r, d) + g.tokens == (d.history + g.tokens)[|r.prompt|..];
  }

  /** One published round keeps the account. */
  lemma SpeculativeStepRecounts(m: Model, start: StateView, r: Request, d: DecodeView, d': DecodeView)
    requires m.Valid() && r.sampling.IsGreedy() && Recounts(m, start, r, d)
    requires Equivalence.SpeculativeStep(m, r, d, d')
    ensures Recounts(m, start, r, d')
  {
    hide ForwardTokens, Recounts, Draws, PrefilledAt, Argmax, GreedyDecode, Equivalence.PublishRound;
    var state, round :| Commits(m, d.state, d.logits, r.maxNewTokens - d.generated, state, round) &&
                        d' == Equivalence.AfterRound(m, r, d, state, round);
    var tokens, n := round.tokens, |round.tokens| - 1;
    assert tokens == tokens[..n] + [tokens[n]];
    if tokens[n] in m.eos {
      EosRecounts(m, start, r, d, state, round);
    } else {
      assert forall t | t in tokens :: t !in m.eos;
      RoundRecounts(m, start, r, d, n + 1);
      var published := Equivalence.PublishRound(m, r, d.(state := state, logits := round.logits), tokens);
      if !published.terminal && published.generated == r.maxNewTokens {
        Ends(m, start, r, published, Length);
      }
    }
  }

  /** A round that ends in an EOS: the state has run it, so it is the log and not the state that goes on. */
  lemma EosRecounts(m: Model, start: StateView, r: Request, d: DecodeView, state: StateView, round: Round)
    requires m.Valid() && r.sampling.IsGreedy() && Recounts(m, start, r, d) && !d.terminal
    requires d.generated < r.maxNewTokens
    requires Commits(m, d.state, d.logits, r.maxNewTokens - d.generated, state, round)
    requires round.tokens[|round.tokens| - 1] in m.eos
    ensures Recounts(m, start, r, Equivalence.AfterRound(m, r, d, state, round))
  {
    hide ForwardTokens, Draws, PrefilledAt, Argmax, GreedyDecode, Equivalence.PublishRound;
    var n := |round.tokens| - 1;
    var front, token := round.tokens[..n], round.tokens[n];
    assert round.tokens == front + [token];
    assert forall t | t in front :: t !in m.eos;
    GreedyPrefix(m, d.state, d.logits, n + 1, n);
    Equivalence.GreedyLast(m, d.state, d.logits, n);
    RoundRecounts(m, start, r, d, n);
    var d1 := d.(state := state, logits := round.logits);
    Equivalence.PublishAppend(m, r, d1, front, token);
    Equivalence.PublishAll(m, r, d1, front);
    var g := GreedyDecode(m, d.state, d.logits, n).value;
    Equivalence.PublishAll(m, r, d.(state := g.state, logits := g.logits), front);
    var published := Equivalence.PublishRound(m, r, d1, front);
    EosEnds(m, r, published, token);
    assert Draws(m, start, r, published.history, token);
  }

  lemma EosEnds(m: Model, r: Request, d: DecodeView, token: Network.Token)
    requires token in m.eos
    ensures Equivalence.PublishRound(m, r, d, [token]) == Finish(r, d, Stop)
  {
  }

  // ---------------------------------------------------------------- a whole request

  lemma FreshRecounts(m: Model, start: StateView, r: Request, d: DecodeView)
    requires Fresh(r, d) && PrefilledAt(m, start, r.prompt, d.state, d.logits)
    ensures Recounts(m, start, r, d)
  {
    hide PrefilledAt;
    assert d.history[|r.prompt|..] == [];
  }

  /** Every view of a trail. */
  lemma {:induction false} TrailRecounts(e: Engine, r: Request, trail: seq<DecodeView>, speculative: bool, i: nat)
    requires e.Valid() && Trailed(e, r, trail, speculative) && i < |trail|
    requires speculative ==> r.sampling.IsGreedy()
    ensures Recounts(e.model, e.config.newState, r, trail[i])
    decreases i
  {
    hide Recounts, PlainStep, Equivalence.SpeculativeStep, PrefilledAt, Fresh;
    if i == 0 {
      FreshRecounts(e.model, e.config.newState, r, trail[0]);
    } else {
      TrailRecounts(e, r, trail, speculative, i - 1);
      assert trail[i] == trail[i - 1 + 1];
      if speculative {
        SpeculativeStepRecounts(e.model, e.config.newState, r, trail[i - 1], trail[i]);
      } else {
        assert PlainMove(e.model, r, trail[i - 1], trail[i - 1 + 1]);
        PlainStepRecounts(e.model, e.config.newState, r, trail[i - 1]);
      }
    }
  }

  /** Between two turns of a text request that decodes: whatever the chunks, the cache, the drafts and the
      other requests were, its target state and logits are those of one call on its prompt and all it has
      published, and every published token was drawn there or forced. */
  lemma RequestRecounts(e: Engine, q: Active)
    requires e.Valid() && q.Kept(e) && q.request.embeddings.None? && q.prefetched == |q.request.prompt|
    requires !q.terminal || Completed(q.View())
    ensures Recounts(e.model, e.config.newState, q.request, q.View())
  {
    hide Recounts, Equivalence.SpeculativeRun, PlainTrail, PrefilledAt, DraftFollows, Sound;
    TrailRecounts(e, q.request, q.trail, q.Draft().Some?, |q.trail| - 1);
  }

  /** What the client of a text request has received when the request has completed by itself: the tokens
      the sampler drew, one after the other, each on the logits of one call on everything before it, and
      then the terminal event that counts them.  Only the end marker of a budgeted thinking section can be
      among them without having been drawn. */
  lemma ClientReceives(e: Engine, q: Active) returns (tokens: seq<Network.Token>, reason: Reason)
    requires e.Valid() && q.request.embeddings.None?
    requires Delivery.Done(q) && Delivery.Answered(q, e) && Delivery.EndsByItself(q.log)
    ensures 0 < |q.trail| && q.delivered == TextLog(q.request, tokens, reason, q.trail[|q.trail| - 1].cached)
    ensures Sourced(e.model, e.config.newState, q.request, q.request.prompt + tokens)
    ensures EndsAs(e.model, e.config.newState, q.request, q.request.prompt + tokens, |tokens|, reason)
  {
    hide Sourced, EndsAs, Equivalence.SpeculativeRun, PlainTrail, PrefilledAt, Delivery.Read;
    var r := q.request;
    var d := q.trail[|q.trail| - 1];
    TrailRecounts(e, r, q.trail, UsesMtp(e.config, e.mtp, r), |q.trail| - 1);
    SourcedPrompt(e.model, e.config.newState, r, d.history);
    tokens := Published(r, d);
    assert d.history == r.prompt + tokens;
    reason :| EndsAs(e.model, e.config.newState, r, d.history, d.generated, reason) &&
        d.log == Equivalence.TokenEvents(tokens, 0) + [Finished(reason, |r.prompt|, d.generated, d.cached)];
  }
}
