/** One active request (src/engine/scheduler.rs, `Active`): prefill by chunk, then one token or one
    speculative round per turn. */
module Scheduler {
  import opened Wrappers
  import opened Network
  import opened Forward
  import opened Decode
  import opened Thinking
  import opened PrefixCache
  import opened Mtp
  import opened Lockstep
  import opened Speculative
  import Equivalence
  import Chunks
  import Greedy

  /** `newState` and `newMtp` are what `create_state` returns for the configured window;
      `residentBytes` is what a state's storage occupies. */
  datatype EngineConfig = EngineConfig(
    maxContext: nat, maxActive: nat, prefillChunk: nat, maxDraftTokens: nat, draftVocab: Option<seq<Network.Token>>,
    newState: StateView, newMtp: MtpView, residentBytes: StateView -> nat)
  {
    ghost predicate Valid(m: Model) {
      && 0 < maxContext <= m.maxPositions && 0 < maxActive && 0 < prefillChunk && maxDraftTokens <= HARD_DRAFT_LIMIT
      && newState.len == newState.nextPosition == 0 && newState.maxContext == maxContext
      && newState.owner == m.owner && |newState.layers| == |m.blocks|
      && newMtp.sequence.maxContext == maxContext
    }
  }

  /** What a request on the text path has prefilled after `done` of its prompt: target state and logits
      are those of one call on `done`, and the draft state is one row behind. */
  ghost predicate Sound(m: Model, config: EngineConfig, mtp: Option<MtpModel>, done: seq<Network.Token>,
                        state: StateView, logits: Row, draft: Option<MtpView>)
  {
    && (if |done| == 0 then state == config.newState else PrefilledAt(m, config.newState, done, state, logits))
    && (draft.Some? && mtp.Some? ==>
          if |done| == 0 then Untouched(mtp.value, draft.value) && draft.value.sequence.maxContext == config.maxContext
          else InLockstep(mtp.value, state, draft.value))
  }

  predicate UsesMtp(config: EngineConfig, mtp: Option<MtpModel>, r: Request) {
    && config.maxDraftTokens > 0 && mtp.Some? && r.sampling.IsGreedy()
    && r.embeddings.None? && !r.Budgeted()
  }

  /** The model, configuration and draft model that all requests of one worker share. */
  datatype Engine = Engine(model: Model, config: EngineConfig, mtp: Option<MtpModel>) {
    ghost predicate Valid() {
      && model.Valid() && config.Valid(model)
      && (mtp.Some? ==>
            ValidMtp(mtp.value) && mtp.value.hidden == model.hidden && Untouched(mtp.value, config.newMtp))
    }
  }

  // ---------------------------------------------------------------- what a request has done so far

  /** The request ended by itself: no failure, no interrupt. */
  ghost predicate Completed(d: DecodeView) {
    && d.terminal && 0 < |d.log| && d.log[|d.log| - 1].Finished?
    && (d.log[|d.log| - 1].reason == Stop || d.log[|d.log| - 1].reason == Length)
  }

  ghost predicate PlainMove(m: Model, r: Request, d: DecodeView, d': DecodeView) {
    !d.terminal && d.generated <= r.maxNewTokens && PlainStep(m, r, d) == Some(d')
  }

  /** Decoding views one plain step apart. */
  ghost predicate PlainTrail(m: Model, r: Request, ds: seq<DecodeView>) {
    0 < |ds| && forall i | 0 <= i < |ds| - 1 :: PlainMove(m, r, ds[i], ds[i + 1])
  }

  /** The views since prefill: the first is that of the whole prompt prefilled in one call. */
  ghost predicate Trailed(e: Engine, r: Request, trail: seq<DecodeView>, speculative: bool) {
    && 0 < |trail| && Fresh(r, trail[0])
    && PrefilledAt(e.model, e.config.newState, r.prompt, trail[0].state, trail[0].logits)
    && if speculative then Equivalence.SpeculativeRun(e.model, r, trail) else PlainTrail(e.model, r, trail)
  }

  ghost predicate DraftFollows(e: Engine, d: DecodeView, draft: Option<MtpView>) {
    draft.Some? ==> e.mtp.Some? && InLockstep(e.mtp.value, d.state, draft.value)
  }

  /** A text request through its whole life: while it prefills, target and draft are those of the prompt
      so far; from then on `trail` leads step by step to where it is, with the draft in lockstep. */
  ghost predicate Promised(e: Engine, r: Request, prefetched: nat, trail: seq<DecodeView>, d: DecodeView,
      draft: Option<MtpView>)
  {
    r.embeddings.None? ==>
      && prefetched <= |r.prompt| && 0 < |r.prompt|
      && (draft.Some? <==> UsesMtp(e.config, e.mtp, r))
      && if prefetched < |r.prompt| then
           && trail == [] && !Completed(d)
           && (!d.terminal ==>
               Fresh(r, d) && Sound(e.model, e.config, e.mtp, r.prompt[..prefetched], d.state, d.logits, draft))
         else
           && Trailed(e, r, trail, draft.Some?)
           && (!d.terminal || Completed(d) ==> d == trail[|trail| - 1] && DraftFollows(e, d, draft))
  }

  /** A request that failed or was interrupted promises nothing new. */
  lemma PromisedEnds(e: Engine, r: Request, prefetched: nat, trail: seq<DecodeView>, d: DecodeView,
      draft: Option<MtpView>,
                     d': DecodeView, draft': Option<MtpView>)
    requires Promised(e, r, prefetched, trail, d, draft) && (draft.Some? <==> draft'.Some?)
    requires d'.terminal && !Completed(d')
    ensures Promised(e, r, prefetched, trail, d', draft')
  {
  }

  // ---------------------------------------------------------------- one chunk of the prompt

  /** The given embeddings of part of the prompt, at their own positions. */
  function RowsOf(e: seq<Input>, from: nat, end: nat): (r: seq<Row>)
    requires from <= end <= |e|
    ensures |r| == end - from && forall i | 0 <= i < |r| :: r[i] == e[from + i].row
  {
    Each((x: Input) => x.row, e[from..end])
  }

  function PositionsOf(e: seq<Input>, from: nat, end: nat): (r: seq<Pos>)
    requires from <= end <= |e|
    ensures |r| == end - from && forall i | 0 <= i < |r| :: r[i] == e[from + i].pos
  {
    Each((x: Input) => x.pos, e[from..end])
  }

  /** The target on a chunk of the prompt, by embeddings or by tokens; only the last row has logits. */
  function ChunkRun(m: Model, r: Request, from: nat, end: nat, v: StateView): (run: Option<(StateView, Output)>)
    requires from < end <= |r.prompt| && (r.embeddings.Some? ==> |r.embeddings.value| == |r.prompt|)
    ensures run.Some? ==> |run.value.1.logits| == 1
  {
    if r.embeddings.None? then ForwardTokens(m, v, r.prompt[from..end], false)
    else Forwarded(m, v, RowsOf(r.embeddings.value, from, end), PositionsOf(r.embeddings.value, from, end), false)
  }

  /** The draft on the same chunk, after the target. */
  function ChunkDrafted(m: Model, mtp: MtpModel, r: Request, from: nat, end: nat, out: Output, draft: MtpView)
    : Option<MtpView>
    requires from < end <= |r.prompt|
  {
    Prefilled(mtp, m, draft, r.prompt[from..end], out.hidden, TextPositions(from, end - from))
  }

  /** What prefilling up to `end` does to the target and, when there is one, to the draft. */
  ghost predicate Fed(m: Model, mtp: Option<MtpModel>, r: Request, from: nat, end: nat, v: StateView,
                      draft: Option<MtpView>, v': StateView, logits': Row, draft': Option<MtpView>)
    requires from < end <= |r.prompt| && (r.embeddings.Some? ==> |r.embeddings.value| == |r.prompt|)
  {
    var run := ChunkRun(m, r, from, end, v);
    && run.Some? && v' == run.value.0 && [logits'] == run.value.1.logits
    && (mtp.Some? && draft.Some? ==> ChunkDrafted(m, mtp.value, r, from, end, run.value.1, draft.value) == draft')
  }

  /** The chunk cannot be fed: the target fails on it or, after the target, the draft. */
  ghost predicate Refused(m: Model, mtp: Option<MtpModel>, r: Request, from: nat, end: nat, v: StateView,
                          draft: Option<MtpView>)
    requires from < end <= |r.prompt| && (r.embeddings.Some? ==> |r.embeddings.value| == |r.prompt|)
  {
    var run := ChunkRun(m, r, from, end, v);
    run.Some? ==>
      mtp.Some? && draft.Some? && ChunkDrafted(m, mtp.value, r, from, end, run.value.1, draft.value).None?
  }

  /** Where a request stands between two turns. */
  datatype Standing = Standing(prefetched: nat, d: DecodeView, draft: Option<MtpView>, policy: Policy)

  ghost predicate Stands(e: Engine, r: Request, s: Standing) {
    && s.prefetched <= |r.prompt| && (r.embeddings.Some? ==> |r.embeddings.value| == |r.prompt|)
    && s.d.generated <= r.maxNewTokens && 0 < e.config.prefillChunk
  }

  /** What one step does: one more chunk of the prompt, or one token, or one speculative round. */
  ghost predicate Moves(e: Engine, r: Request, activeCount: nat, s: Standing, s': Standing) {
    && Stands(e, r, s)
    && if s.prefetched < |r.prompt| then
         && s'.prefetched == Min(s.prefetched + e.config.prefillChunk, |r.prompt|) && s'.policy == s.policy
         && s'.d == s.d.(state := s'.d.state, logits := s'.d.logits)
         && Fed(e.model, e.mtp, r, s.prefetched, s'.prefetched, s.d.state, s.draft, s'.d.state, s'.d.logits, s'.draft)
       else if e.mtp.Some? && s.draft.Some? then
         s'.prefetched == s.prefetched && RoundMoves(e.model, e.mtp.value, r, activeCount, s, s')
       else
         s' == s.(d := s'.d) && PlainStep(e.model, r, s.d) == Some(s'.d)
  }

  /** One speculative round: its states, its published tokens and the new acceptance rate. */
  ghost predicate RoundMoves(m: Model, mtp: MtpModel, r: Request, activeCount: nat, s: Standing, s': Standing)
    requires s.draft.Some? && s.d.generated <= r.maxNewTokens
  {
    var run := RoundOf(m, mtp, s.d.state, s.draft.value, s.d.logits, r.maxNewTokens - s.d.generated, activeCount,
                       s.policy);
    && Equivalence.SpeculativeStep(m, r, s.d, s'.d)
    && run.Some?
    && s'.d == Equivalence.AfterRound(m, r, s.d, run.value.0, run.value.2) && s'.draft == Some(run.value.1)
    && s'.policy == Rated(s.policy, run.value.2.accepted, run.value.2.proposed)
  }

  /** The policy after a round. */
  function Rated(policy: Policy, accepted: nat, proposed: nat): Policy {
    if 1 <= accepted <= proposed && 1 < proposed then
      policy.(acceptanceRate := NextRate(policy.acceptanceRate, accepted, proposed))
    else policy
  }

  /** When it fails instead: the chunk is refused, or the round or the plain step has no outcome. */
  ghost predicate Fails(e: Engine, r: Request, activeCount: nat, s: Standing) {
    && Stands(e, r, s)
    && if s.prefetched < |r.prompt| then
         var end := Min(s.prefetched + e.config.prefillChunk, |r.prompt|);
         Refused(e.model, e.mtp, r, s.prefetched, end, s.d.state, s.draft)
       else if e.mtp.Some? && s.draft.Some? then
         RoundOf(e.model, e.mtp.value, s.d.state, s.draft.value, s.d.logits, r.maxNewTokens - s.d.generated,
                 activeCount, s.policy).None?
       else PlainStep(e.model, r, s.d).None?
  }

  class Active {
    const request: Request
    var state: SequenceState
    var logits: Row
    var history: seq<Network.Token>
    var thinking: ThinkingController?
    var forced: seq<Network.Token>
    var mtpState: MtpState?
    var policy: Policy
    var prefetched: nat
    var generated: nat
    var cached: nat
    var pending: seq<Event>
    var terminal: bool
    var interrupted: bool
    var stalledSince: Option<nat>
    ghost var log: seq<Event>
    ghost var delivered: seq<Event>
    ghost var trail: seq<DecodeView>
    ghost var turns: nat

    ghost function Repr(): set<object?>
      reads this, mtpState
    {
      {this, state, thinking, mtpState} + (if mtpState == null then {} else {mtpState.sequence})
    }

    ghost predicate Valid()
      reads this, thinking, mtpState
    {
      && generated <= request.maxNewTokens && prefetched <= |request.prompt|
      && (thinking == null <==> request.thinking.None?)
      && (thinking != null ==> thinking.spec == request.thinking.value)
      && (mtpState != null ==> mtpState.sequence != state)
    }

    ghost function View(): DecodeView
      reads this, state, thinking
    {
      DecodeView(state.View(), logits, history, if thinking == null then None else Some(thinking.View()),
                 forced, generated, cached, log, terminal)
    }

    ghost function Draft(): Option<MtpView>
      reads this, mtpState, if mtpState == null then {} else {mtpState.sequence}
    {
      if mtpState == null then None else Some(mtpState.View())
    }

    ghost function Stand(): Standing
      reads this, state, thinking, mtpState, if mtpState == null then {} else {mtpState.sequence}
    {
      Standing(prefetched, View(), Draft(), policy)
    }

    ghost predicate Kept(e: Engine)
      reads this, state, thinking, mtpState, if mtpState == null then {} else {mtpState.sequence}
    {
      Promised(e, request, prefetched, trail, View(), Draft())
    }

    /** `Active::new`: a request on the plain text path may start from a cached prefix. */
    constructor (config: EngineConfig, mtp: Option<MtpModel>, r: Request, saved: Option<Prefix>, ghost e: Engine)
      requires e.Valid() && e.config == config && e.mtp == mtp && 0 < |r.prompt|
      requires saved.Some? ==>
                 && saved.value.tokens <= r.prompt && !UsesMtp(config, mtp, r) && r.cachePrefix && r.embeddings.None?
                 && PrefilledAt(e.model, config.newState, saved.value.tokens, saved.value.state, saved.value.logits)
      ensures Valid() && request == r && pending == [] == delivered && !interrupted && stalledSince == None &&
              Fresh(r, View())
      ensures Kept(e)
      ensures fresh(state) && (thinking != null ==> fresh(thinking)) &&
              (mtpState != null ==> fresh(mtpState) && fresh(mtpState.sequence))
      ensures mtpState != null <==> UsesMtp(config, mtp, r)
      ensures policy == Policy(Max(config.maxDraftTokens, 1), 1.0, config.draftVocab, false)
      ensures mtpState != null ==> mtpState.View() == config.newMtp
      ensures if saved.None? then state.View() == config.newState && prefetched == cached == 0
              else
                && state.View() == saved.value.state && logits == saved.value.logits
                && prefetched == cached == |saved.value.tokens|
    {
      hide Promised, PrefilledAt, Initial;
      request := r;
      history, forced, pending, log := r.prompt, [], [], [];
      generated, terminal, interrupted, stalledSince, delivered := 0, false, false, None, [];
      policy := Policy(Max(config.maxDraftTokens, 1), 1.0, config.draftVocab, false);
      state := new SequenceState(if saved.Some? then saved.value.state else config.newState);
      logits := if saved.Some? then saved.value.logits else [];
      prefetched := if saved.Some? then |saved.value.tokens| else 0;
      cached := if saved.Some? then |saved.value.tokens| else 0;
      trail, turns := [], 0;
      if r.thinking.Some? {
        thinking := new ThinkingController(r.thinking.value);
      } else {
        thinking := null;
      }
      if UsesMtp(config, mtp, r) {
        mtpState := new MtpState(config.newMtp);
      } else {
        mtpState := null;
      }
      new;
      if prefetched == |request.prompt| {
        trail := [View()];
      }
      StartPromised(e, r, saved, View(), Draft());
    }

    method Push(event: Event)
      modifies this`pending, this`log
      ensures pending == old(pending) + [event] && log == old(log) + [event]
    {
      pending := pending + [event];
      log := log + [event];
    }

    /** `finish`: at most one terminal event. */
    method DoFinish(reason: Reason)
      modifies this`pending, this`log, this`terminal
      ensures View() == Finish(request, old(View()), reason)
      ensures old(log) <= log && pending == old(pending) + log[|old(log)|..]
    {
      if terminal {
        return;
      }
      Push(Finished(reason, |request.prompt|, generated, cached));
      terminal := true;
    }

    method PublishToken(token: Network.Token)
      modifies this`pending, this`log, this`history, this`generated
      ensures View() == Publish(old(View()), token)
      ensures old(log) <= log && pending == old(pending) + log[|old(log)|..]
    {
      history := history + [token];
      generated := generated + 1;
      Push(Event.Token(token, generated - 1));
    }

    // -------------------------------------------------------------- the plain path

    method DoQueueClose(remaining: nat)
      requires Valid()
      modifies this`forced, thinking
      ensures Valid() && View() == QueueClose(request, old(View()), remaining)
    {
      if |forced| == 0 && thinking != null {
        var spec := thinking.spec;
        if spec.budget.Some? && thinking.inThinking && remaining <= |spec.endTokens| {
          forced := spec.endTokens;
        } else {
          var tokens := thinking.TakeForceClose();
          if tokens.Some? {
            forced := forced + tokens.value;
          }
        }
      }
    }

    method DoObserve(token: Network.Token, wasForced: bool)
      requires Valid()
      modifies this`forced, thinking
      ensures Valid() && View() == Observe(request, old(View()), token, wasForced)
    {
      hide Observed;
      if thinking != null {
        var action := thinking.Observe(token);
        if action.ForceClose? && !wasForced && |forced| == 0 {
          forced := forced + action.endTokens;
        }
      }
    }

    method DoSettle(m: Model, token: Network.Token, wasForced: bool) returns (ok: bool)
      requires Valid() && generated < request.maxNewTokens
      modifies this`pending, this`log, this`terminal, this`history, this`generated, this`forced, this`logits, thinking,
          state
      ensures Valid()
      ensures match Settle(m, request, old(View()), token, wasForced)
              case Some(d) => ok && View() == d && old(log) <= log && pending == old(pending) + log[|old(log)|..]
              case None =>
                !ok && log == old(log) && pending == old(pending) && generated == old(generated) &&
                terminal == old(terminal)
    {
      hide ForwardTokens, Observe;
      if token in m.eos {
        DoFinish(Stop);
        return true;
      }
      var out := ForwardText(m, [token], state, false);
      if out.None? {
        return false;
      }
      logits := out.value.logits[0];
      PublishObserved(token, wasForced);
      ok := true;
    }

    /** The end of `step` once the target has run: observe, publish, and end at the token limit. */
    method PublishObserved(token: Network.Token, wasForced: bool)
      requires Valid() && generated < request.maxNewTokens
      modifies this`pending, this`log, this`terminal, this`history, this`generated, this`forced, thinking
      ensures Valid()
      ensures var published := Publish(Observe(request, old(View()), token, wasForced), token);
              View() == if published.generated == request.maxNewTokens then Finish(request, published, Length)
                  else published
      ensures old(log) <= log && pending == old(pending) + log[|old(log)|..]
    {
      hide Observe;
      DoObserve(token, wasForced);
      PublishToken(token);
      if generated == request.maxNewTokens {
        DoFinish(Length);
      }
    }

    /** One token on the plain path. */
    method StepPlain(m: Model) returns (ok: bool)
      requires Valid() && !terminal && generated < request.maxNewTokens
      modifies this`pending, this`log, this`terminal, this`history, this`generated, this`forced, this`logits, thinking,
          state
      ensures Valid()
      ensures match PlainStep(m, request, old(View()))
              case Some(d) => ok && View() == d && old(log) <= log && pending == old(pending) + log[|old(log)|..]
              case None =>
                !ok && log == old(log) && pending == old(pending) && generated == old(generated) &&
                terminal == old(terminal)
    {
      hide Settle, QueueClose;
      var remaining := request.maxNewTokens - generated;
      ghost var d := View();
      assert Unmoved(d, QueueClose(request, d, remaining)) by { QueueCloseOnly(request, d, remaining); }
      DoQueueClose(remaining);
      ghost var q := View();
      if |forced| > 0 {
        var token := forced[0];
        forced := forced[1..];
        ok := DoSettle(m, token, true);
        return;
      }
      var drawn := request.sampling.Sample(logits, history);
      if drawn.None? {
        return false;
      }
      var token := drawn.value;
      if thinking != null && thinking.spec.budget.Some? {
        var spec := thinking.spec;
        if !thinking.inThinking && |spec.startTokens| > 0 && spec.startTokens[0] == token
           && remaining < |spec.startTokens| + |spec.endTokens| {
          DoFinish(Length);
          return true;
        }
        if thinking.inThinking && token in m.eos {
          if |spec.endTokens| == 0 {
            return false;
          }
          forced := spec.endTokens[1..];
          ok := DoSettle(m, spec.endTokens[0], false);
          return;
        }
      }
      ok := DoSettle(m, token, false);
    }

    // -------------------------------------------------------------- the speculative path

    method PublishTokens(m: Model, tokens: seq<Network.Token>)
      requires !terminal
      modifies this`pending, this`log, this`terminal, this`history, this`generated
      ensures View() == Equivalence.PublishRound(m, request, old(View()), tokens)
      ensures old(log) <= log && pending == old(pending) + log[|old(log)|..]
    {
      for i := 0 to |tokens|
        invariant !terminal
        invariant Equivalence.PublishRound(m, request, old(View()), tokens) ==
                  Equivalence.PublishRound(m, request, View(), tokens[i..])
        invariant old(log) <= log && pending == old(pending) + log[|old(log)|..]
      {
        assert tokens[i..][0] == tokens[i] && tokens[i..][1..] == tokens[i + 1..];
        if tokens[i] in m.eos {
          DoFinish(Stop);
          return;
        }
        PublishToken(tokens[i]);
      }
    }

    /** One round of `decode_round` and its publication.  The new acceptance rate is again a rate. */
    method StepSpeculative(m: Model, mtp: MtpModel, activeCount: nat) returns (ok: bool)
      requires Valid() && !terminal && generated < request.maxNewTokens && mtpState != null
      modifies this`pending, this`log, this`terminal, this`history, this`generated, this`logits, this`policy, state,
          mtpState
      ensures mtpState.sequence != state && (fresh(mtpState.sequence) || mtpState.sequence == old(mtpState.sequence))
      ensures ok ==> Equivalence.SpeculativeStep(m, request, old(View()), View())
      ensures ok ==> old(log) <= log && pending == old(pending) + log[|old(log)|..]
      ensures !ok ==> View() == old(View()) && pending == old(pending) && mtpState.View() == old(mtpState.View())
      ensures if ok then RoundMoves(m, mtp, request, activeCount, old(Stand()), Stand())
              else RoundOf(m, mtp, old(state.View()), old(mtpState.View()), old(logits),
                           request.maxNewTokens - old(generated), activeCount, old(policy)).None?
      ensures old(policy.Validates(m.vocab)) ==> policy.Validates(m.vocab)
      ensures ok && ValidMtp(mtp) && InLockstep(mtp, old(state.View()), old(mtpState.View())) ==>
                InLockstep(mtp, state.View(), mtpState.View())
    {
      hide Commits, InLockstep, DraftReplays, RoundOf, ForwardTokens, Equivalence.SpeculativeStep,
          Equivalence.PublishEnd;
      ghost var d := View();
      var round := DecodeRound(m, mtp, state, mtpState, logits, request.maxNewTokens - generated, activeCount, policy);
      if round.None? {
        return false;
      }
      Equivalence.RoundSteps(m, request, d, state.View(), round.value);
      CommitsAccepted(m, d.state, d.logits, request.maxNewTokens - d.generated, state.View(), round.value);
      logits := round.value.logits;
      UpdateRate(round.value.accepted, round.value.proposed);
      PublishTokensAndEnd(m, round.value.tokens);
      ok := true;
    }

    method UpdateRate(accepted: nat, proposed: nat)
      requires 1 <= accepted <= proposed
      modifies this`policy
      ensures forall vocab: nat :: old(policy).Validates(vocab) ==> policy.Validates(vocab)
      ensures policy == Rated(old(policy), accepted, proposed)
    {
      if proposed > 1 {
        policy := policy.(acceptanceRate := NextRate(policy.acceptanceRate, accepted, proposed));
      }
    }

    method PublishTokensAndEnd(m: Model, tokens: seq<Network.Token>)
      requires !terminal
      modifies this`pending, this`log, this`terminal, this`history, this`generated
      ensures View() == Equivalence.PublishEnd(m, request, old(View()), tokens)
      ensures old(log) <= log && pending == old(pending) + log[|old(log)|..]
    {
      PublishTokens(m, tokens);
      if !terminal && generated == request.maxNewTokens {
        DoFinish(Length);
      }
    }

    // -------------------------------------------------------------- prefill

    /** The target on the next chunk of the prompt. */
    method ForwardChunk(m: Model, end: nat) returns (out: Option<Output>)
      requires prefetched < end <= |request.prompt|
      requires request.embeddings.Some? ==> |request.embeddings.value| == |request.prompt|
      modifies state
      ensures match ChunkRun(m, request, prefetched, end, old(state.View()))
              case None => out.None?
              case Some(x) => out == Some(x.1) && state.View() == x.0
    {
      hide ForwardTokens, Forwarded;
      if request.embeddings.Some? {
        var e := request.embeddings.value;
        out := ForwardEmbeddings(m, RowsOf(e, prefetched, end), PositionsOf(e, prefetched, end), state, false);
      } else {
        out := ForwardText(m, request.prompt[prefetched..end], state, false);
      }
    }

    /** The next chunk through the target and then through the draft. */
    method FeedChunk(m: Model, mtp: Option<MtpModel>, end: nat) returns (last: Option<Row>)
      requires Valid() && prefetched < end <= |request.prompt|
      requires request.embeddings.Some? ==> |request.embeddings.value| == |request.prompt|
      modifies state, mtpState
      ensures mtpState != null ==>
              mtpState.sequence != state && (fresh(mtpState.sequence) || mtpState.sequence == old(mtpState.sequence))
      ensures if last.None? then Refused(m, mtp, request, prefetched, end, old(state.View()), old(Draft()))
              else Fed(m, mtp, request, prefetched, end, old(state.View()), old(Draft()), state.View(), last.value,
                  Draft())
      ensures mtpState != null && mtp.None? ==> mtpState.View() == old(mtpState.View())
    {
      hide ChunkRun, Prefilled, TextPositions;
      var result := ForwardChunk(m, end);
      if result.None? {
        return None;
      }
      if mtp.Some? && mtpState != null {
        var fed := Prefill(mtp.value, m, request.prompt[prefetched..end], result.value.hidden,
            TextPositions(prefetched, end - prefetched), mtpState);
        if !fed {
          return None;
        }
      }
      last := Some(result.value.logits[0]);
      assert [last.value] == result.value.logits;
    }

    method StepPrefill(m: Model, config: EngineConfig, prefix: Cache, mtp: Option<MtpModel>) returns (ok: bool)
      requires Valid() && prefetched < |request.prompt| && 0 < config.prefillChunk
      requires request.embeddings.Some? ==> |request.embeddings.value| == |request.prompt|
      requires prefix.Valid()
      modifies this`prefetched, this`logits, state, mtpState, prefix
      ensures mtpState != null ==>
              mtpState.sequence != state && (fresh(mtpState.sequence) || mtpState.sequence == old(mtpState.sequence))
      ensures prefix.Valid() && old(prefetched) <= prefetched <= |request.prompt|
      ensures View() == old(View()).(state := state.View(), logits := logits)
      ensures !ok ==> prefetched == old(prefetched) && logits == old(logits)
      ensures ok ==> prefetched == Min(old(prefetched) + config.prefillChunk, |request.prompt|)
      ensures ok ==> Fed(m, mtp, request, old(prefetched), prefetched, old(state.View()), old(Draft()), state.View(),
                         logits, Draft())
      ensures !ok ==> Refused(m, mtp, request, prefetched, Min(prefetched + config.prefillChunk, |request.prompt|),
                              old(state.View()), old(Draft()))
      ensures mtpState != null && mtp.None? ==> mtpState.View() == old(mtpState.View())
      ensures if ok && prefetched == |request.prompt| && mtpState == null && request.cachePrefix &&
                 request.embeddings.None?
              then
                Inserted(old(prefix.entries), request.prompt, state.View(), logits, config.residentBytes(state.View()),
                         prefix.capacity, prefix.entries)
              else prefix.entries == old(prefix.entries)
      ensures forall e | e in prefix.entries ::
                e in old(prefix.entries) ||
                (ok && request.embeddings.None? && e.tokens == request.prompt[..prefetched] &&
                    e.state == state.View() && e.logits == logits)
    {
      hide Fed, Refused, Inserted;
      var total := |request.prompt|;
      var end := Min(prefetched + config.prefillChunk, total);
      var last := FeedChunk(m, mtp, end);
      if last.None? {
        return false;
      }
      prefetched := end;
      logits := last.value;
      StoreInCache(config, prefix);
      ok := true;
    }

    /** The prompt enters the cache once all of it is prefilled, on the plain text path only. */
    method StoreInCache(config: EngineConfig, prefix: Cache)
      requires prefetched <= |request.prompt| && prefix.Valid()
      modifies prefix
      ensures prefix.Valid()
      ensures if prefetched == |request.prompt| && mtpState == null && request.cachePrefix &&
              request.embeddings.None? then
                Inserted(old(prefix.entries), request.prompt, state.View(), logits, config.residentBytes(state.View()),
                         prefix.capacity, prefix.entries)
              else prefix.entries == old(prefix.entries)
      ensures forall e | e in prefix.entries ::
                e in old(prefix.entries) ||
                (request.embeddings.None? && e.tokens == request.prompt[..prefetched] && e.state == state.View() &&
                    e.logits == logits)
    {
      if prefetched == |request.prompt| && mtpState == null && request.cachePrefix && request.embeddings.None? {
        assert request.prompt[..prefetched] == request.prompt;
        prefix.Insert(request.prompt, state.View(), logits, config.residentBytes(state.View()));
      }
    }

    // -------------------------------------------------------------- one turn

    /** The prefill half of `step`. */
    method PrefillTurn(m: Model, config: EngineConfig, prefix: Cache, mtp: Option<MtpModel>, ghost activeCount: nat)
        returns (ok: bool)
      requires Valid() && !terminal && prefetched < |request.prompt| && 0 < config.prefillChunk
      requires request.embeddings.Some? ==> |request.embeddings.value| == |request.prompt|
      requires var e := Engine(m, config, mtp); e.Valid() && Kept(e)
      requires prefix.Valid() && prefix.Faithful(m, config.newState)
      modifies this`prefetched, this`trail, this`logits, state, mtpState, prefix
      ensures Valid() && prefix.Valid() && prefix.Faithful(m, config.newState)
      ensures mtpState != null ==> fresh(mtpState.sequence) || mtpState.sequence == old(mtpState.sequence)
      ensures View() == old(View()).(state := state.View(), logits := logits)
      ensures !ok ==> prefetched == old(prefetched) && trail == old(trail)
      ensures ok ==> Kept(Engine(m, config, mtp))
      ensures if ok then Moves(Engine(m, config, mtp), request, activeCount, old(Stand()), Stand())
              else Fails(Engine(m, config, mtp), request, activeCount, old(Stand()))
    {
      hide ForwardTokens, Prefilled, Promised, PrefilledAt, Fresh, TextPositions, Fed, Refused, RoundMoves, RoundOf,
          PlainStep;
      ghost var e, d, draft, done := Engine(m, config, mtp), View(), Draft(), prefetched;
      ok := StepPrefill(m, config, prefix, mtp);
      if ok {
        if prefetched == |request.prompt| {
          trail := [View()];
        }
        if request.embeddings.None? {
          FedText(m, mtp, request, done, prefetched, d.state, draft, state.View(), logits, Draft());
          PrefillPromised(e, request, old(trail), done, prefetched, d, draft, View(), Draft());
        } else {
          EmbeddedPromised(e, request, prefetched, trail, View(), Draft());
        }
      }
    }

    /** One token on the plain path or one speculative round. */
    method DecodeOnce(m: Model, config: EngineConfig, mtp: Option<MtpModel>, activeCount: nat) returns (ok: bool)
      requires Valid() && !terminal && prefetched == |request.prompt| && generated < request.maxNewTokens
      requires request.embeddings.Some? ==> |request.embeddings.value| == |request.prompt|
      requires 0 < config.prefillChunk
      modifies this`pending, this`log, this`terminal, this`history, this`generated, this`forced, this`logits,
          this`policy
      modifies thinking, state, mtpState
      ensures Valid()
      ensures mtpState != null ==> fresh(mtpState.sequence) || mtpState.sequence == old(mtpState.sequence)
      ensures old(log) <= log && pending == old(pending) + log[|old(log)|..]
      ensures !ok ==> log == old(log) && generated == old(generated) && terminal == old(terminal)
      ensures if ok then Moves(Engine(m, config, mtp), request, activeCount, old(Stand()), Stand())
              else Fails(Engine(m, config, mtp), request, activeCount, old(Stand()))
      ensures ok && (mtp.None? || mtpState == null) ==> PlainStep(m, request, old(View())) == Some(View())
      ensures ok && mtp.Some? && mtpState != null ==> Equivalence.SpeculativeStep(m, request, old(View()), View())
      ensures ok && mtp.Some? && mtpState != null && ValidMtp(mtp.value) &&
              InLockstep(mtp.value, old(state.View()), old(mtpState.View())) ==>
                InLockstep(mtp.value, state.View(), mtpState.View())
    {
      hide PlainStep, Equivalence.SpeculativeStep, InLockstep, RoundMoves, RoundOf;
      ghost var d := View();
      if mtp.Some? && mtpState != null {
        ok := StepSpeculative(m, mtp.value, activeCount);
        if ok {
          SpeculativeWithin(m, request, d, View());
        }
      } else {
        ok := StepPlain(m);
      }
    }

    /** The decoding half of `step`. */
    method DecodeTurn(m: Model, config: EngineConfig, mtp: Option<MtpModel>, activeCount: nat) returns (ok: bool)
      requires Valid() && !terminal && prefetched == |request.prompt| && generated < request.maxNewTokens
      requires request.embeddings.Some? ==> |request.embeddings.value| == |request.prompt|
      requires var e := Engine(m, config, mtp); e.Valid() && Kept(e) && 0 < config.prefillChunk
      modifies this`pending, this`log, this`terminal, this`history, this`generated, this`forced, this`logits,
          this`policy
      modifies this`trail, thinking, state, mtpState
      ensures Valid()
      ensures mtpState != null ==> fresh(mtpState.sequence) || mtpState.sequence == old(mtpState.sequence)
      ensures old(log) <= log && pending == old(pending) + log[|old(log)|..]
      ensures !ok ==> log == old(log) && generated == old(generated) && terminal == old(terminal) && trail == old(trail)
      ensures ok ==> Kept(Engine(m, config, mtp))
      ensures if ok then Moves(Engine(m, config, mtp), request, activeCount, old(Stand()), Stand())
              else Fails(Engine(m, config, mtp), request, activeCount, old(Stand()))
    {
      hide PlainStep, Equivalence.SpeculativeStep, InLockstep, Promised, Moves, Fails;
      ghost var e, d, draft := Engine(m, config, mtp), View(), Draft();
      ok := DecodeOnce(m, config, mtp, activeCount);
      if ok {
        DecodePromised(e, request, trail, d, draft, View(), Draft());
        trail := trail + [View()];
      }
    }

    /** `Active::step`.  A failed step has pushed nothing. */
    method Step(m: Model, config: EngineConfig, prefix: Cache, mtp: Option<MtpModel>, activeCount: nat)
        returns (ok: bool)
      requires Valid() && !terminal && generated < request.maxNewTokens && 0 < config.prefillChunk
      requires request.embeddings.Some? ==> |request.embeddings.value| == |request.prompt|
      requires var e := Engine(m, config, mtp); e.Valid() && Kept(e)
      requires prefix.Valid() && prefix.Faithful(m, config.newState)
      modifies this`pending, this`log, this`terminal, this`history, this`generated, this`forced, this`logits,
          this`policy
      modifies this`prefetched, this`trail, thinking, state, mtpState, prefix
      ensures prefix.Valid() && prefix.Faithful(m, config.newState) && Valid()
      ensures mtpState != null ==> fresh(mtpState.sequence) || mtpState.sequence == old(mtpState.sequence)
      ensures old(log) <= log && pending == old(pending) + log[|old(log)|..]
      ensures !ok ==> log == old(log) && generated == old(generated) && terminal == old(terminal)
      ensures !ok ==> prefetched == old(prefetched) && trail == old(trail)
      ensures ok ==> Kept(Engine(m, config, mtp))
      ensures if ok then Moves(Engine(m, config, mtp), request, activeCount, old(Stand()), Stand())
              else Fails(Engine(m, config, mtp), request, activeCount, old(Stand()))
    {
      hide PlainStep, Equivalence.SpeculativeStep, Promised, PrefilledAt, Moves, Fails;
      if prefetched < |request.prompt| {
        ok := PrefillTurn(m, config, prefix, mtp, activeCount);
      } else {
        ok := DecodeTurn(m, config, mtp, activeCount);
      }
    }
  }

  /** A text chunk, by its tokens. */
  lemma FedText(m: Model, mtp: Option<MtpModel>, r: Request, from: nat, end: nat, v: StateView, draft: Option<MtpView>,
      v': StateView, logits': Row, draft': Option<MtpView>)
    requires from < end <= |r.prompt| && r.embeddings.None?
    requires Fed(m, mtp, r, from, end, v, draft, v', logits', draft')
    ensures var run := ForwardTokens(m, v, r.prompt[from..end], false);
            && run.Some? && run.value.0 == v' && [logits'] == run.value.1.logits
            && (mtp.Some? && draft.Some? ==>
                  Prefilled(mtp.value, m, draft.value, r.prompt[from..end], run.value.1.hidden,
                            TextPositions(from, end - from)) == draft')
  {
    hide ForwardTokens, Prefilled, TextPositions;
  }

  ghost predicate Unmoved(d: DecodeView, q: DecodeView) {
    q.log == d.log && q.generated == d.generated && q.terminal == d.terminal && q.history == d.history &&
        q.logits == d.logits
  }

  lemma QueueCloseOnly(r: Request, d: DecodeView, remaining: nat)
    ensures Unmoved(d, QueueClose(r, d, remaining))
  {
  }

  /** The smoothed acceptance rate of the drafts beyond the target's own first token. */
  function NextRate(rate: real, accepted: nat, proposed: nat): (r: real)
    requires 1 <= accepted <= proposed && 1 < proposed
    ensures 0.0 <= rate <= 1.0 ==> 0.0 <= r <= 1.0
    ensures accepted == 1 ==> r == 0.8 * rate
    ensures accepted == proposed ==> 1.0 - r == 0.8 * (1.0 - rate)
  {
    var share := (accepted - 1) as real / (proposed - 1) as real;
    ShareIsRate(accepted - 1, proposed - 1);
    0.8 * rate + 0.2 * share
  }

  lemma ShareIsRate(part: nat, whole: nat)
    requires part <= whole && 0 < whole
    ensures 0.0 <= part as real / whole as real <= 1.0
    ensures part == 0 ==> part as real / whole as real == 0.0
    ensures part == whole ==> part as real / whole as real == 1.0
  {
    var w := whole as real;
    var share := part as real / w;
    assert share * w == part as real;
    if share < 0.0 {
      RealMonotone(share, 0.0, w);
    } else if 1.0 < share {
      RealMonotone(1.0, share, w);
    } else if part == whole && share < 1.0 {
      RealMonotone(share, 1.0, w);
    } else if part == 0 && 0.0 < share {
      RealMonotone(0.0, share, w);
    }
  }

  lemma RealMonotone(a: real, b: real, c: real)
    requires a < b && 0.0 < c
    ensures a * c < b * c
  {
  }

  lemma CommitsAccepted(m: Model, v: StateView, logits: Row, maxTokens: nat, v': StateView, round: Round)
    requires Commits(m, v, logits, maxTokens, v', round)
    ensures 1 <= round.accepted <= round.proposed
  {
  }

  lemma SpeculativeWithin(m: Model, r: Request, d: DecodeView, d': DecodeView)
    requires Equivalence.SpeculativeStep(m, r, d, d')
    ensures d'.generated <= r.maxNewTokens
  {
    hide Equivalence.Outcome, Equivalence.SpeculativeStep;
    Equivalence.StepsOn(m, r, d, d');
    var tokens := Equivalence.RoundFollows(m, r, d, d');
    if d'.terminal {
      Equivalence.OutcomeWithin(m, d.state, d.logits, r.maxNewTokens - d.generated);
    }
  }

  lemma HiddenWidth(m: Model, v: StateView, tokens: seq<Network.Token>)
    requires m.Valid() && ForwardTokens(m, v, tokens, false).Some?
    ensures forall h | h in ForwardTokens(m, v, tokens, false).value.1.hidden :: |h| == m.hidden
  {
  }

  /** One more prefill chunk, whatever its size, keeps the meaning of what is prefilled. */
  lemma PrefillKeepsSound(m: Model, config: EngineConfig, mtp: Option<MtpModel>, done: seq<Network.Token>,
      part: seq<Network.Token>,
                          v: StateView, logits: Row, draft: Option<MtpView>, v': StateView, logits': Row,
                              draft': Option<MtpView>)
    requires m.Valid() && config.Valid(m) && Sound(m, config, mtp, done, v, logits, draft)
    requires mtp.Some? ==> ValidMtp(mtp.value) && mtp.value.hidden == m.hidden
    requires ForwardTokens(m, v, part, false).Some?
    requires v' == ForwardTokens(m, v, part, false).value.0 &&
             [logits'] == ForwardTokens(m, v, part, false).value.1.logits
    requires draft.Some? <==> draft'.Some?
    requires draft.Some? && mtp.Some? ==>
               Prefilled(mtp.value, m, draft.value, part, ForwardTokens(m, v, part, false).value.1.hidden,
                   TextPositions(|done|, |part|)) == draft'
    ensures Sound(m, config, mtp, done + part, v', logits', draft')
  {
    hide ForwardTokens, Forwarded, Prefilled, RanRows;
    Chunks.TextAdvances(m, v, part, false);
    if |done| == 0 {
      assert done + part == part;
    } else {
      PrefillExtends(m, config.newState, done, v, logits, part);
      Chunks.TextAdvances(m, config.newState, done, false);
    }
    if draft.Some? && mtp.Some? {
      HiddenWidth(m, v, part);
      PrefillAligns(mtp.value, m, draft.value, part, ForwardTokens(m, v, part, false).value.1.hidden, |done|);
    }
  }

  /** A new request, perhaps with a cached prefix. */
  lemma StartPromised(e: Engine, r: Request, saved: Option<Prefix>, d: DecodeView, draft: Option<MtpView>)
    requires e.Valid() && 0 < |r.prompt| && Fresh(r, d)
    requires draft == if UsesMtp(e.config, e.mtp, r) then Some(e.config.newMtp) else None
    requires saved.Some? ==>
               && saved.value.tokens <= r.prompt && !UsesMtp(e.config, e.mtp, r)
               && PrefilledAt(e.model, e.config.newState, saved.value.tokens, saved.value.state, saved.value.logits)
               && d.state == saved.value.state && d.logits == saved.value.logits
    requires saved.None? ==> d.state == e.config.newState
    ensures var n := if saved.Some? then |saved.value.tokens| else 0;
            Promised(e, r, n, if n == |r.prompt| then [d] else [], d, draft)
  {
    hide ForwardTokens, Untouched;
    if saved.Some? {
      var n := |saved.value.tokens|;
      assert saved.value.tokens == r.prompt[..n];
      assert n == |r.prompt| ==> r.prompt[..n] == r.prompt;
      CachedNotEmpty(e.model, e.config.newState, saved.value);
    }
  }

  lemma CachedNotEmpty(m: Model, start: StateView, saved: Prefix)
    requires PrefilledAt(m, start, saved.tokens, saved.state, saved.logits)
    ensures 0 < |saved.tokens|
  {
  }

  /** A request with embeddings is not on the text path. */
  lemma EmbeddedPromised(e: Engine, r: Request, prefetched: nat, trail: seq<DecodeView>, d: DecodeView,
      draft: Option<MtpView>)
    requires r.embeddings.Some?
    ensures Promised(e, r, prefetched, trail, d, draft)
  {
  }

  /** One prefill chunk of a text request, whatever its size. */
  lemma PrefillPromised(e: Engine, r: Request, trail: seq<DecodeView>, done: nat, prefetched: nat, d: DecodeView,
      draft: Option<MtpView>,
                        d': DecodeView, draft': Option<MtpView>)
    requires e.Valid() && r.embeddings.None? && !d.terminal && done < prefetched <= |r.prompt|
    requires Promised(e, r, done, trail, d, draft) && (draft.Some? <==> draft'.Some?)
    requires d' == d.(state := d'.state, logits := d'.logits)
    requires var part := r.prompt[done..prefetched];
             ForwardTokens(e.model, d.state, part, false).Some? &&
             var (state, out) := ForwardTokens(e.model, d.state, part, false).value;
             && d'.state == state && [d'.logits] == out.logits
             && (draft.Some? && e.mtp.Some? ==>
                   Prefilled(e.mtp.value, e.model, draft.value, part, out.hidden,
                       TextPositions(done, prefetched - done)) == draft')
    ensures Promised(e, r, prefetched, if prefetched == |r.prompt| then [d'] else trail, d', draft')
    ensures PrefilledAt(e.model, e.config.newState, r.prompt[..prefetched], d'.state, d'.logits)
  {
    hide ForwardTokens, Prefilled, InLockstep, Untouched, PrefilledAt;
    var part := r.prompt[done..prefetched];
    assert |r.prompt[..done]| == done && |part| == prefetched - done;
    PrefillKeepsSound(e.model, e.config, e.mtp, r.prompt[..done], part, d.state, d.logits, draft, d'.state, d'.logits,
        draft');
    assert r.prompt[..done] + part == r.prompt[..prefetched];
    if prefetched == |r.prompt| {
      assert r.prompt[..prefetched] == r.prompt;
    }
  }

  /** One decoding step of a text request, plain or speculative. */
  lemma DecodePromised(e: Engine, r: Request, trail: seq<DecodeView>, d: DecodeView, draft: Option<MtpView>,
                       d': DecodeView, draft': Option<MtpView>)
    requires Promised(e, r, |r.prompt|, trail, d, draft) && !d.terminal && (draft.Some? <==> draft'.Some?)
    requires d.generated <= r.maxNewTokens
    requires if draft.Some? && e.mtp.Some? then Equivalence.SpeculativeStep(e.model, r, d, d')
             else PlainStep(e.model, r, d) == Some(d')
    requires draft.Some? && e.mtp.Some? && InLockstep(e.mtp.value, d.state, draft.value) ==>
               InLockstep(e.mtp.value, d'.state, draft'.value)
    ensures Promised(e, r, |r.prompt|, trail + [d'], d', draft')
  {
    hide PlainStep, Equivalence.SpeculativeStep, InLockstep, PrefilledAt;
    if r.embeddings.None? {
      var all := trail + [d'];
      assert all[0] == trail[0];
      forall i | 0 <= i < |all| - 1
        ensures if draft.Some? then Equivalence.SpeculativeStep(e.model, r, all[i], all[i + 1])
                else PlainMove(e.model, r, all[i], all[i + 1])
      {
        assert i < |trail| - 1 ==> all[i] == trail[i] && all[i + 1] == trail[i + 1];
      }
    }
  }

  // ---------------------------------------------------------------- two requests

  lemma {:induction false} TrailIsRun(m: Model, r: Request, ds: seq<DecodeView>, n: nat)
    requires PlainTrail(m, r, ds) && n < |ds|
    ensures Run(m, r, ds[0], n) == Some(ds[n])
    decreases n
  {
    hide PlainStep;
    if 0 < n {
      TrailIsRun(m, r, ds, n - 1);
      assert PlainMove(m, r, ds[n - 1], ds[n - 1 + 1]);
    }
  }

  /** A run that has ended stays where it is, and a run that succeeds succeeded before. */
  lemma {:induction false} RunOn(m: Model, r: Request, d: DecodeView, n: nat, more: nat)
    ensures Run(m, r, d, n).Some? && Run(m, r, d, n).value.terminal ==> Run(m, r, d, n + more) == Run(m, r, d, n)
    ensures Run(m, r, d, n + more).Some? ==> Run(m, r, d, n).Some?
    decreases more
  {
    hide PlainStep;
    if 0 < more {
      RunOn(m, r, d, n, more - 1);
    }
  }

  /** The complete log of a text request. */
  function TextLog(r: Request, tokens: seq<Network.Token>, reason: Reason, cached: nat): seq<Event> {
    Equivalence.TokenEvents(tokens, 0) + [Finished(reason, |r.prompt|, |tokens|, cached)]
  }

  /** From one prefilled view, a completed speculative trail and the plain run end alike. */
  lemma SpeculativeTrailEnds(e: Engine, r: Request, trail: seq<DecodeView>, plain: DecodeView)
    returns (tokens: seq<Network.Token>, reason: Reason)
    requires e.Valid() && UsesMtp(e.config, e.mtp, r) && 0 < r.maxNewTokens
    requires Trailed(e, r, trail, true) && trail[|trail| - 1].terminal
    requires Fresh(r, plain) && PrefilledAt(e.model, e.config.newState, r.prompt, plain.state, plain.logits)
    ensures reason == Stop || reason == Length
    ensures trail[|trail| - 1].history == r.prompt + tokens
    ensures trail[|trail| - 1].log == TextLog(r, tokens, reason, trail[0].cached)
    ensures var end := Run(e.model, r, plain, r.maxNewTokens);
            end.Some? && end.value.terminal && end.value.history == r.prompt + tokens &&
            end.value.log == TextLog(r, tokens, reason, plain.cached)
  {
    hide ForwardTokens, Run, Equivalence.SpeculativeRun;
    LogitsWidth(e.model, e.config.newState, r.prompt);
    tokens, reason := Equivalence.SpeculativeEqualsPlain(e.model, r, trail, plain);
    var events := Equivalence.TokenEvents(tokens, 0);
    assert [] + events == events;
  }

  /** Where a plain trail stands when the run it follows is known to end in `end`. */
  lemma PlainTrailFollows(m: Model, r: Request, ds: seq<DecodeView>, n: nat)
    requires PlainTrail(m, r, ds) && Run(m, r, ds[0], n).Some? && Run(m, r, ds[0], n).value.terminal
    ensures var d := ds[|ds| - 1];
            if d.terminal then d == Run(m, r, ds[0], n).value
            else d.generated <= r.maxNewTokens ==> PlainStep(m, r, d).Some?
  {
    hide PlainStep;
    var k := |ds| - 1;
    TrailIsRun(m, r, ds, k);
    if n <= k {
      RunOn(m, r, ds[0], n, k - n);
    } else {
      RunOn(m, r, ds[0], k, n - k);
      RunOn(m, r, ds[0], k + 1, n - k - 1);
    }
  }

  /** Two text requests alike, one admitted where it decodes speculatively and one where it decodes plainly,
      each prefilled with its own chunk sizes and the second possibly from a cached prefix.  Once the first
      has completed, the second can only publish the same tokens and end for the same reason: its steps
      cannot fail, and when it has completed both logs agree up to the count of cached tokens. */
  lemma MtpRequestEqualsPlainRequest(e: Engine, e': Engine, q: Active, q': Active)
    returns (tokens: seq<Network.Token>, reason: Reason)
    requires e.Valid() && e'.model == e.model && e'.config.newState == e.config.newState
    requires q.Valid() && q.Kept(e) && q'.Valid() && q'.Kept(e') && q.request == q'.request
    requires UsesMtp(e.config, e.mtp, q.request) && !UsesMtp(e'.config, e'.mtp, q.request) && 0 < q.request.maxNewTokens
    requires Completed(q.View()) && q'.prefetched == |q.request.prompt|
    ensures reason == Stop || reason == Length
    ensures q.history == q.request.prompt + tokens
    ensures 0 < |q.trail| && q.log == TextLog(q.request, tokens, reason, q.trail[0].cached)
    ensures Completed(q'.View()) ==>
              && q'.history == q.request.prompt + tokens
              && 0 < |q'.trail| && q'.log == TextLog(q.request, tokens, reason, q'.trail[0].cached)
    ensures !q'.terminal ==> PlainStep(e.model, q.request, q'.View()).Some?
  {
    hide PrefilledAt, Run, Equivalence.SpeculativeRun, PlainTrail, InLockstep, Sound, PlainStep;
    var r := q.request;
    tokens, reason := SpeculativeTrailEnds(e, r, q.trail, q'.trail[0]);
    PlainTrailFollows(e.model, r, q'.trail, r.maxNewTokens);
  }

  lemma LogitsWidth(m: Model, v: StateView, tokens: seq<Network.Token>)
    requires m.Valid()
    ensures ForwardTokens(m, v, tokens, false).Some? ==>
            |ForwardTokens(m, v, tokens, false).value.1.logits[0]| == m.vocab
  {
  }
}
