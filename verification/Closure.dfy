/** Thinking closure: with a thinking budget, whatever the sampler returns, no request ends by Stop
    or Length inside a thinking section, and every section is bounded. */
module Closure {
  import opened Wrappers
  import opened Network
  import opened Forward
  import opened Thinking
  import opened Decode
  import opened Overlap

  ghost predicate Markers(spec: ThinkingSpec) {
    && spec.Active() && spec.budget.Some? && 0 < |spec.startTokens| && 0 < |spec.endTokens| && !Overlap.Overlap(spec)
  }

  /** A budgeted request as `submit` accepts it, whose markers do not overlap. */
  ghost predicate Closable(m: Model, r: Request) {
    && r.Budgeted() && Markers(r.thinking.value)
    && (forall t | t in r.thinking.value.endTokens :: t !in m.eos)
    && r.thinking.value.budget.value + |r.thinking.value.endTokens| <= r.maxNewTokens
  }

  /** The unsent rest of a queued end marker. */
  ghost predicate EndQueued(spec: ThinkingSpec, queue: seq<Token>) {
    |queue| <= |spec.endTokens| && queue == spec.endTokens[|spec.endTokens| - |queue|..]
  }

  /** Enough room to finish a start marker whose rest is not checked, and to close again. */
  ghost predicate RoomToOpen(spec: ThinkingSpec, tokens: seq<Token>, remaining: int)
    requires 0 < |spec.startTokens|
  {
    forall j | 0 < j < |spec.startTokens| && Unchecked(spec.startTokens, j) &&
        EndsWith(tokens, spec.startTokens[..j]) ::
      remaining >= |spec.startTokens| - j + |spec.endTokens|
  }

  /** While an end marker is queued: it was queued in an open section, the text since then is what has
      been sent of it, and the rest still fits. */
  ghost predicate Closing(spec: ThinkingSpec, c: ControllerView, queue: seq<Token>, tokens: seq<Token>, remaining: int)
    requires spec.budget.Some?
  {
    var sent := |spec.endTokens| - |queue|;
    && |queue| <= remaining && 0 <= sent <= |tokens|
    && tokens[|tokens| - sent..] == spec.endTokens[..sent] && Open(spec, tokens[..|tokens| - sent])
    && (Open(spec, tokens) ==> c.used <= spec.budget.value + sent)
  }

  /** Closing; or open with budget and room left; or closed with room for what may open next. */
  ghost predicate Safe(spec: ThinkingSpec, c: ControllerView, queue: seq<Token>, tokens: seq<Token>, remaining: int)
    requires Markers(spec)
  {
    && EndQueued(spec, queue)
    && if |queue| > 0 then Closing(spec, c, queue, tokens, remaining)
       else if Open(spec, tokens) then
         !c.forced && (c.used < spec.budget.value || c.used == 0) && remaining >= |spec.endTokens|
       else RoomToOpen(spec, tokens, remaining)
  }

  ghost predicate Bounded(spec: ThinkingSpec, tokens: seq<Token>)
    requires spec.budget.Some?
  {
    forall k | 0 <= k <= |tokens| :: SinceOpen(spec, tokens[..k]) <= spec.budget.value + |spec.endTokens|
  }

  ghost predicate Invariant(r: Request, d: DecodeView)
    requires r.Budgeted() && Markers(r.thinking.value)
  {
    && |r.prompt| <= |d.history| && d.thinking.Some?
    && var spec, tokens := r.thinking.value, Published(r, d);
      && Tracks(spec, d.thinking.value, tokens) && Bounded(spec, tokens)
      && |tokens| == d.generated <= r.maxNewTokens
      && (d.terminal ==> !Open(spec, tokens))
      && (!d.terminal ==>
            d.generated < r.maxNewTokens && Safe(spec, d.thinking.value, d.forced, tokens,
                r.maxNewTokens - d.generated))
  }

  // ---------------------------------------------------------------- one observed token

  /** Controller and queue after the token, as `step` updates them. */
  function After(spec: ThinkingSpec, c: ControllerView, queue: seq<Token>, t: Token, wasForced: bool)
      : (ControllerView, seq<Token>)
  {
    var (c', action) := Observed(spec, c, t);
    (c', if action.ForceClose? && !wasForced && |queue| == 0 then action.endTokens else queue)
  }

  /** The text after a whole end marker is closed, with nothing begun unchecked. */
  lemma EndLeavesSafe(spec: ThinkingSpec, c: ControllerView, tokens: seq<Token>, remaining: int)
    requires Markers(spec) && EndsWith(tokens, spec.endTokens) && !Open(spec, tokens)
    ensures Safe(spec, c, [], tokens, remaining)
  {
    hide Open, EndsWith, Meets, Reopens, Twice;
    forall j | 0 < j < |spec.startTokens| && Unchecked(spec.startTokens, j) && EndsWith(tokens, spec.startTokens[..j])
      ensures false
    {
      EndBeginsNothing(spec, tokens, j);
    }
  }

  lemma TracksNext(spec: ThinkingSpec, c: ControllerView, tokens: seq<Token>, t: Token)
    requires spec.Active() && Tracks(spec, c, tokens)
    ensures Tracks(spec, Observed(spec, c, t).0, tokens + [t])
    ensures Observed(spec, c, t).0.inThinking == Open(spec, tokens + [t])
    ensures c.inThinking == Open(spec, tokens)
    ensures Open(spec, tokens + [t]) == if Open(spec, tokens) then !EndsWith(tokens + [t], spec.endTokens)
            else EndsWith(tokens + [t], spec.startTokens)
    ensures SinceOpen(spec, tokens + [t]) == if Open(spec, tokens) then SinceOpen(spec, tokens) + 1 else 0
  {
    ObserveTracks(spec, c, tokens, t);
    assert (tokens + [t])[..|tokens|] == tokens;
  }

  /** The head of a queued end marker is sent, whether its section is still open or not. */
  lemma SendEnd(spec: ThinkingSpec, c: ControllerView, queue: seq<Token>, tokens: seq<Token>, remaining: int,
      wasForced: bool)
    requires Markers(spec) && Tracks(spec, c, tokens) && 0 < |queue| && EndQueued(spec, queue)
    requires Closing(spec, c, queue, tokens, remaining)
    requires wasForced || |queue| == |spec.endTokens|
    ensures var (c', queue') := After(spec, c, queue[1..], queue[0], wasForced);
            Safe(spec, c', queue', tokens + [queue[0]], remaining - 1)
  {
    hide Tracks, SinceOpen, Open, EndsWith, Meets, Reopens, Twice, Suffix;
    var sent, t, rest := |spec.endTokens| - |queue|, queue[0], queue[1..];
    var tokens', c' := tokens + [t], Observed(spec, c, t).0;
    TracksNext(spec, c, tokens, t);
    SentNext(spec, queue, tokens);
    if |rest| == 0 {
      var before := tokens[..|tokens| - sent];
      assert tokens' == before + spec.endTokens;
      EndsWithItself(before, spec.endTokens);
      SentEndCloses(spec, before);
      ClosedQueuesNothing(spec, c, tokens, t);
      EndLeavesSafe(spec, c', tokens', remaining - 1);
      assert rest == [];
    } else if Open(spec, tokens') {
      UsedNext(spec, c, t);
    }
  }

  /** The text since the end marker was queued grows with what is sent. */
  lemma SentNext(spec: ThinkingSpec, queue: seq<Token>, tokens: seq<Token>)
    requires 0 < |queue| && EndQueued(spec, queue) && |spec.endTokens| - |queue| <= |tokens|
    requires tokens[|tokens| - (|spec.endTokens| - |queue|)..] == spec.endTokens[..|spec.endTokens| - |queue|]
    ensures EndQueued(spec, queue[1..])
    ensures var sent, tokens' := |spec.endTokens| - |queue|, tokens + [queue[0]];
            && tokens'[|tokens'| - (sent + 1)..] == spec.endTokens[..sent + 1]
            && tokens'[..|tokens'| - (sent + 1)] == tokens[..|tokens| - sent]
            && tokens' == tokens[..|tokens| - sent] + spec.endTokens[..sent + 1]
            && spec.endTokens[..|spec.endTokens|] == spec.endTokens
  {
    var sent := |spec.endTokens| - |queue|;
    assert queue[0] == spec.endTokens[sent];
    assert spec.endTokens[..sent + 1] == spec.endTokens[..sent] + [queue[0]];
    assert tokens == tokens[..|tokens| - sent] + tokens[|tokens| - sent..];
  }

  /** A token after which text is closed asks for no end marker. */
  lemma ClosedQueuesNothing(spec: ThinkingSpec, c: ControllerView, tokens: seq<Token>, t: Token)
    requires spec.Active() && !Observed(spec, c, t).0.inThinking
    ensures !Observed(spec, c, t).1.ForceClose?
  {
  }

  lemma UsedNext(spec: ThinkingSpec, c: ControllerView, t: Token)
    requires Markers(spec) && Observed(spec, c, t).0.inThinking
    ensures Observed(spec, c, t).0.used <= if c.inThinking then c.used + 1 else 0
  {
  }

  /** What observing a token does inside a section whose budget is not used up. */
  lemma ObservedInside(spec: ThinkingSpec, c: ControllerView, tokens: seq<Token>, t: Token)
    requires spec.Active() && spec.budget.Some? && Tracks(spec, c, tokens) && Open(spec, tokens)
    requires !c.forced && c.used < spec.budget.value
    ensures var (c', queue') := After(spec, c, [], t, false);
            if EndsWith(tokens + [t], spec.endTokens) then queue' == []
            else if c.used + 1 >= spec.budget.value then queue' == spec.endTokens && c'.used == c.used + 1
            else queue' == [] && !c'.forced && c'.used == c.used + 1
  {
    hide SinceOpen, EndsWith, Suffix;
    assert c.inThinking;
    ObservedEnds(spec, c, tokens, t);
  }

  lemma ObservedEnds(spec: ThinkingSpec, c: ControllerView, tokens: seq<Token>, t: Token)
    requires spec.Active() && Tracks(spec, c, tokens) && c.inThinking
    ensures EndsWith(Suffix(c.recent + [t], spec.Window()), spec.endTokens) <==> EndsWith(tokens + [t], spec.endTokens)
  {
    hide Open, SinceOpen, EndsWith;
    assert Suffix(c.recent + [t], spec.Window()) == Suffix(tokens + [t], spec.Window()) by {
      WindowSlides(tokens, spec.Window(), t);
    }
    WindowSuffices(tokens + [t], spec.Window(), spec.endTokens);
  }

  /** Any token drawn in an open section with nothing queued. */
  lemma DrawOpen(spec: ThinkingSpec, c: ControllerView, tokens: seq<Token>, t: Token, remaining: int)
    requires Markers(spec) && Tracks(spec, c, tokens) && Open(spec, tokens)
    requires !c.forced && c.used < spec.budget.value && remaining >= |spec.endTokens| + 1
    ensures var (c', queue') := After(spec, c, [], t, false);
            Safe(spec, c', queue', tokens + [t], remaining - 1)
  {
    hide Tracks, SinceOpen, Open, EndsWith, After, RoomToOpen, Meets, Reopens, Twice;
    TracksNext(spec, c, tokens, t);
    ObservedInside(spec, c, tokens, t);
    var tokens' := tokens + [t];
    assert tokens'[..|tokens'|] == tokens';
    if EndsWith(tokens', spec.endTokens) {
      EndLeavesSafe(spec, After(spec, c, [], t, false).0, tokens', remaining - 1);
    }
  }

  /** Any token drawn outside a section, unless a start marker would begin too late. */
  lemma DrawClosed(spec: ThinkingSpec, c: ControllerView, tokens: seq<Token>, t: Token, remaining: int)
    requires Markers(spec) && Tracks(spec, c, tokens) && !Open(spec, tokens)
    requires RoomToOpen(spec, tokens, remaining)
    requires t == spec.startTokens[0] ==> remaining >= |spec.startTokens| + |spec.endTokens|
    ensures var (c', queue') := After(spec, c, [], t, false);
            Safe(spec, c', queue', tokens + [t], remaining - 1)
  {
    hide Tracks, SinceOpen, Open, EndsWith, Meets, Reopens, Twice;
    TracksNext(spec, c, tokens, t);
    forall j | 0 < j <= |spec.startTokens| && Unchecked(spec.startTokens, j) &&
        EndsWith(tokens + [t], spec.startTokens[..j])
      ensures remaining - 1 >= |spec.startTokens| - j + |spec.endTokens|
    {
      EndsWithLast(tokens, t, spec.startTokens[..j]);
      assert spec.startTokens[..j][j - 1] == t;
      if 1 < j && t != spec.startTokens[0] {
        EndsWithShrinks(tokens, t, spec.startTokens, j);
        UncheckedBefore(spec.startTokens, j);
      }
    }
    assert spec.startTokens[..|spec.startTokens|] == spec.startTokens &&
        Unchecked(spec.startTokens, |spec.startTokens|);
  }

  lemma UncheckedBefore(start: seq<Token>, j: nat)
    requires 1 < j <= |start| && Unchecked(start, j) && start[j - 1] != start[0]
    ensures Unchecked(start, j - 1)
  {
    assert start[j - 1..] == [start[j - 1]] + start[j..];
  }

  // ---------------------------------------------------------------- one step

  ghost predicate Running(m: Model, r: Request, d: DecodeView) {
    && Closable(m, r) && !d.terminal && |r.prompt| <= |d.history| && d.thinking.Some?
    && Tracks(r.thinking.value, d.thinking.value, Published(r, d)) && Bounded(r.thinking.value, Published(r, d))
    && |Published(r, d)| == d.generated < r.maxNewTokens
  }

  lemma BoundedNext(spec: ThinkingSpec, c: ControllerView, tokens: seq<Token>, t: Token)
    requires Markers(spec) && Tracks(spec, c, tokens) && Bounded(spec, tokens)
    requires Open(spec, tokens) ==> c.used < spec.budget.value + |spec.endTokens|
    ensures Bounded(spec, tokens + [t])
  {
    TracksNext(spec, c, tokens, t);
    forall k | 0 <= k <= |tokens| + 1
      ensures SinceOpen(spec, (tokens + [t])[..k]) <= spec.budget.value + |spec.endTokens|
    {
      if k <= |tokens| {
        assert (tokens + [t])[..k] == tokens[..k];
      } else {
        assert (tokens + [t])[..k] == tokens + [t];
      }
    }
  }

  /** A published token that leaves the section safe keeps the invariant; and at the end of the
      budget a safe section is a closed one. */
  lemma SettleKeeps(m: Model, r: Request, q: DecodeView, t: Token, wasForced: bool)
    requires Running(m, r, q) && t !in m.eos && Settle(m, r, q, t, wasForced).Some?
    requires Open(r.thinking.value, Published(r, q)) ==>
               q.thinking.value.used < r.thinking.value.budget.value + |r.thinking.value.endTokens|
    requires var (c', queue') := After(r.thinking.value, q.thinking.value, q.forced, t, wasForced);
             Safe(r.thinking.value, c', queue', Published(r, q) + [t], r.maxNewTokens - q.generated - 1)
    ensures Invariant(r, Settle(m, r, q, t, wasForced).value)
  {
    hide ForwardTokens, Safe, Tracks, Bounded, Observed, Open;
    var spec, tokens := r.thinking.value, Published(r, q);
    var d' := Settle(m, r, q, t, wasForced).value;
    assert Published(r, d') == tokens + [t];
    BoundedNext(spec, q.thinking.value, tokens, t);
    assert Tracks(spec, d'.thinking.value, tokens + [t]) by { TracksNext(spec, q.thinking.value, tokens, t); }
    if d'.generated == r.maxNewTokens {
      assert !Open(spec, tokens + [t]) by { SafeAtEnd(spec, d'.thinking.value, d'.forced, tokens + [t]); }
    }
  }

  lemma SafeAtEnd(spec: ThinkingSpec, c: ControllerView, queue: seq<Token>, tokens: seq<Token>)
    requires Markers(spec) && Safe(spec, c, queue, tokens, 0)
    ensures !Open(spec, tokens)
  {
  }

  /** Sending the head of the queue. */
  lemma SendKeeps(m: Model, r: Request, q: DecodeView, wasForced: bool)
    requires Running(m, r, q) && 0 < |q.forced| && (wasForced || |q.forced| == |r.thinking.value.endTokens|)
    requires Safe(r.thinking.value, q.thinking.value, q.forced, Published(r, q), r.maxNewTokens - q.generated)
    requires Settle(m, r, q.(forced := q.forced[1..]), q.forced[0], wasForced).Some?
    ensures Invariant(r, Settle(m, r, q.(forced := q.forced[1..]), q.forced[0], wasForced).value)
  {
    hide Settle, Tracks, Bounded, Observed, SinceOpen, Overlap.Overlap;
    var spec, c, tokens := r.thinking.value, q.thinking.value, Published(r, q);
    assert q.forced[0] in spec.endTokens;
    assert c.inThinking == Open(spec, tokens) by { TracksNext(spec, c, tokens, q.forced[0]); }
    SendEnd(spec, c, q.forced, tokens, r.maxNewTokens - q.generated, wasForced);
    SettleKeeps(m, r, q.(forced := q.forced[1..]), q.forced[0], wasForced);
  }

  /** Drawing a token with nothing queued. */
  lemma DrawKeeps(m: Model, r: Request, q: DecodeView, token: Token)
    requires Running(m, r, q) && |q.forced| == 0
    requires Safe(r.thinking.value, q.thinking.value, [], Published(r, q), r.maxNewTokens - q.generated)
    requires Open(r.thinking.value, Published(r, q)) ==>
               q.thinking.value.used < r.thinking.value.budget.value &&
                   r.maxNewTokens - q.generated >= |r.thinking.value.endTokens| + 1
    requires !StartsTooLate(r, q, token, r.maxNewTokens - q.generated)
    ensures var end := r.thinking.value.endTokens;
            var next := if ClosesOnEos(m, r, q, token) then Settle(m, r, q.(forced := end[1..]), end[0], false)
                        else Settle(m, r, q, token, false);
            next.Some? ==> Invariant(r, next.value)
  {
    hide Tracks, Bounded, Observed, SinceOpen, ForwardTokens;
    var spec, c, tokens := r.thinking.value, q.thinking.value, Published(r, q);
    var remaining := r.maxNewTokens - q.generated;
    assert c.inThinking == Open(spec, tokens) by { TracksNext(spec, c, tokens, token); }
    if Open(spec, tokens) {
      if token in m.eos {
        var queued := q.(forced := spec.endTokens);
        assert Published(r, queued) == tokens && tokens[..|tokens|] == tokens;
        if Settle(m, r, queued.(forced := queued.forced[1..]), queued.forced[0], false).Some? {
          SendKeeps(m, r, queued, false);
        }
      } else {
        DrawOpen(spec, c, tokens, token, remaining);
        if Settle(m, r, q, token, false).Some? {
          assert q.forced == [];
          SettleKeeps(m, r, q, token, false);
        }
      }
    } else if token !in m.eos {
      DrawClosed(spec, c, tokens, token, remaining);
      if Settle(m, r, q, token, false).Some? {
        assert q.forced == [];
        SettleKeeps(m, r, q, token, false);
      }
    }
  }

  lemma QueueKeeps(m: Model, r: Request, d: DecodeView)
    requires Closable(m, r) && Invariant(r, d) && !d.terminal
    ensures var q, remaining := QueueClose(r, d, r.maxNewTokens - d.generated), r.maxNewTokens - d.generated;
            && Running(m, r, q) && q.history == d.history && q.generated == d.generated
            && Safe(r.thinking.value, q.thinking.value, q.forced, Published(r, q), remaining)
            && (|q.forced| == 0 && Open(r.thinking.value, Published(r, q)) ==>
                  q.thinking.value.used < r.thinking.value.budget.value &&
                      remaining >= |r.thinking.value.endTokens| + 1)
  {
    hide Bounded, SinceOpen, Open, EndsWith, Meets, Reopens, Twice;
    var spec := r.thinking.value;
    var tokens := Published(r, d);
    assert spec.endTokens == spec.endTokens[|spec.endTokens| - |spec.endTokens|..];
    assert tokens[..|tokens|] == tokens && tokens[|tokens|..] == spec.endTokens[..0];
  }

  /** Every step keeps the invariant. */
  lemma StepKeeps(m: Model, r: Request, d: DecodeView)
    requires Closable(m, r) && Invariant(r, d) && !d.terminal && PlainStep(m, r, d).Some?
    ensures Invariant(r, PlainStep(m, r, d).value)
  {
    hide Settle, Safe, Tracks, Bounded, SinceOpen;
    QueueKeeps(m, r, d);
    var q := QueueClose(r, d, r.maxNewTokens - d.generated);
    if |q.forced| > 0 {
      SendKeeps(m, r, q, true);
    } else {
      assert q.forced == [];
      var token := r.sampling.Sample(q.logits, q.history).value;
      if StartsTooLate(r, q, token, r.maxNewTokens - q.generated) {
        TracksNext(r.thinking.value, q.thinking.value, Published(r, q), token);
      } else {
        DrawKeeps(m, r, q, token);
      }
    }
  }

  /** Over any run of an accepted request whose markers do not overlap, whatever the sampler returns:
      the output never exceeds its budget, no section has more than budget plus end marker tokens
      after it opens, and a request that ended by Stop or Length is outside thinking. */
  lemma {:induction false} ThinkingAlwaysCloses(m: Model, maxContext: nat, r: Request, start: DecodeView, n: nat)
    requires Accepted(m, maxContext, r) && r.Budgeted() && !Overlap.Overlap(r.thinking.value)
    requires Fresh(r, start) && Run(m, r, start, n).Some?
    ensures var d := Run(m, r, start, n).value;
            && |r.prompt| <= |d.history|
            && |Published(r, d)| == d.generated <= r.maxNewTokens
            && (forall k | 0 <= k <= d.generated ::
                  SinceOpen(r.thinking.value, Published(r, d)[..k]) <=
                  r.thinking.value.budget.value + |r.thinking.value.endTokens|)
            && (d.terminal ==> !Open(r.thinking.value, Published(r, d)))
  {
    RunKeeps(m, r, start, n);
  }

  lemma {:induction false} RunKeeps(m: Model, r: Request, start: DecodeView, n: nat)
    requires Closable(m, r) && Fresh(r, start) && Run(m, r, start, n).Some?
    ensures Invariant(r, Run(m, r, start, n).value)
    decreases n
  {
    hide PlainStep;
    if n == 0 {
      FreshHolds(m, r, start);
    } else {
      RunKeeps(m, r, start, n - 1);
      var before := Run(m, r, start, n - 1).value;
      if !before.terminal {
        StepKeeps(m, r, before);
      }
    }
  }

  lemma FreshHolds(m: Model, r: Request, d: DecodeView)
    requires Closable(m, r) && Fresh(r, d)
    ensures Invariant(r, d)
  {
    assert Published(r, d) == [];
  }
}
