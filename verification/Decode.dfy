/** One decoding step of the plain path (src/engine/scheduler.rs, second half of `Active::step`) as
    a function of the request's decoding state, and what a whole run of such steps keeps. */
module Decode {
  import opened Wrappers
  import opened Network
  import opened Forward
  import opened Thinking
  import Greedy

  datatype Reason = Stop | Length | Cancelled | Deadline | Failed

  datatype Event =
    | Token(id: Network.Token, index: nat)
    | Finished(reason: Reason, promptTokens: nat, completionTokens: nat, cachedTokens: nat)
    | Error

  /** Everything the sampler does off the greedy path is `draw`: an arbitrary choice that sees the
      logits and the whole history, so also how many draws came before. */
  datatype Sampling = Sampling(temperature: real, repetitionPenalty: real,
      draw: (Row, seq<Network.Token>) -> Option<Network.Token>) {
    predicate IsGreedy() {
      temperature == 0.0 && repetitionPenalty == 1.0
    }

    function Sample(logits: Row, history: seq<Network.Token>): Option<Network.Token> {
      if |logits| == 0 then None
      else if IsGreedy() then Some(Greedy.Argmax(logits))
      else draw(logits, history)
    }
  }

  datatype Request = Request(
    prompt: seq<Network.Token>, embeddings: Option<seq<Input>>, maxNewTokens: nat, sampling: Sampling,
    cachePrefix: bool, thinking: Option<ThinkingSpec>)
  {
    predicate Budgeted() {
      thinking.Some? && thinking.value.budget.Some?
    }
  }

  /** The token and thinking conditions of `Engine::submit`. */
  predicate Accepted(m: Model, maxContext: nat, r: Request) {
    && 0 < |r.prompt| && 0 < r.maxNewTokens && |r.prompt| + r.maxNewTokens <= maxContext
    && (forall t | t in r.prompt :: t < m.vocab)
    && (r.embeddings.Some? ==>
          |r.embeddings.value| == |r.prompt| &&
          forall x | x in r.embeddings.value :: |x.row| == m.hidden && Reach(x.pos) < m.maxPositions)
    && (r.thinking.Some? ==>
          var spec := r.thinking.value;
          && (forall t | t in spec.startTokens + spec.endTokens :: t < m.vocab)
          && (spec.budget.Some? ==>
                && spec.supported && spec.enabled && 0 < |spec.startTokens| && 0 < |spec.endTokens|
                && (forall t | t in spec.endTokens :: t !in m.eos)
                && spec.budget.value + |spec.endTokens| <= r.maxNewTokens))
  }

  /** What decoding reads and writes; `log` is the events pushed so far. */
  datatype DecodeView = DecodeView(
    state: StateView, logits: Row, history: seq<Network.Token>, thinking: Option<ControllerView>,
    forced: seq<Network.Token>, generated: nat, cached: nat, log: seq<Event>, terminal: bool)

  function Finish(r: Request, d: DecodeView, reason: Reason): DecodeView {
    if d.terminal then d
    else d.(log := d.log + [Finished(reason, |r.prompt|, d.generated, d.cached)], terminal := true)
  }

  function Publish(d: DecodeView, token: Network.Token): DecodeView {
    d.(history := d.history + [token], generated := d.generated + 1, log := d.log + [Token(token, d.generated)])
  }

  /** The request to close a section, made before a token is drawn. */
  function QueueClose(r: Request, d: DecodeView, remaining: nat): DecodeView {
    if |d.forced| > 0 || r.thinking.None? || d.thinking.None? then d
    else
      var spec, c := r.thinking.value, d.thinking.value;
      if spec.budget.Some? && c.inThinking && remaining <= |spec.endTokens| then d.(forced := spec.endTokens)
      else if CloseRequested(spec, c) then d.(forced := spec.endTokens, thinking := Some(c.(forced := true)))
      else d
  }

  /** A thinking section must not open when its markers no longer fit. */
  predicate StartsTooLate(r: Request, d: DecodeView, token: Network.Token, remaining: nat) {
    && r.Budgeted() && d.thinking.Some? && !d.thinking.value.inThinking
    && |r.thinking.value.startTokens| > 0 && r.thinking.value.startTokens[0] == token
    && remaining < |r.thinking.value.startTokens| + |r.thinking.value.endTokens|
  }

  predicate ClosesOnEos(m: Model, r: Request, d: DecodeView, token: Network.Token) {
    r.Budgeted() && d.thinking.Some? && d.thinking.value.inThinking && token in m.eos
  }

  function Observe(r: Request, d: DecodeView, token: Network.Token, wasForced: bool): DecodeView {
    if r.thinking.None? || d.thinking.None? then d
    else
      var (c, action) := Observed(r.thinking.value, d.thinking.value, token);
      d.(thinking := Some(c),
         forced := if action.ForceClose? && !wasForced && |d.forced| == 0 then action.endTokens else d.forced)
  }

  /** The end of a step: EOS finishes, anything else goes through the target and is published. */
  function Settle(m: Model, r: Request, d: DecodeView, token: Network.Token, wasForced: bool): Option<DecodeView> {
    if token in m.eos then Some(Finish(r, d, Stop))
    else
      var (state, out) :- ForwardTokens(m, d.state, [token], false);
      var published := Publish(Observe(r, d.(state := state, logits := out.logits[0]), token, wasForced), token);
      Some(if published.generated == r.maxNewTokens then Finish(r, published, Length) else published)
  }

  function PlainStep(m: Model, r: Request, d: DecodeView): Option<DecodeView>
    requires d.generated <= r.maxNewTokens
  {
    var remaining := r.maxNewTokens - d.generated;
    var q := QueueClose(r, d, remaining);
    if |q.forced| > 0 then Settle(m, r, q.(forced := q.forced[1..]), q.forced[0], true)
    else
      var token :- r.sampling.Sample(q.logits, q.history);
      if StartsTooLate(r, q, token, remaining) then Some(Finish(r, q, Length))
      else if ClosesOnEos(m, r, q, token) then
        var end := r.thinking.value.endTokens;
        if |end| == 0 then None else Settle(m, r, q.(forced := end[1..]), end[0], false)
      else Settle(m, r, q, token, false)
  }

  /** The state in which decoding starts: prefill done, nothing generated. */
  predicate Fresh(r: Request, d: DecodeView) {
    && d.history == r.prompt && d.generated == 0 && d.forced == [] && d.log == [] && !d.terminal
    && d.thinking == (if r.thinking.Some? then Some(Initial(r.thinking.value)) else None)
  }

  /** `n` steps from `d`, stopping early once terminal. */
  function Run(m: Model, r: Request, d: DecodeView, n: nat): Option<DecodeView> {
    if n == 0 then Some(d)
    else
      var before :- Run(m, r, d, n - 1);
      if before.terminal then Some(before)
      else if before.generated > r.maxNewTokens then None
      else PlainStep(m, r, before)
  }

  function Published(r: Request, d: DecodeView): seq<Network.Token>
    requires |r.prompt| <= |d.history|
  {
    d.history[|r.prompt|..]
  }
}
