/** Delivery of a request's events (src/engine/scheduler.rs, `worker`): interrupts, back-pressure
    and the terminal event, under every pattern of channel answers and flags. */
module Delivery {
  import opened Wrappers
  import opened Network
  import opened Forward
  import opened Decode
  import opened Scheduler
  import opened PrefixCache
  import opened Mtp
  import Equivalence
  import Speculative

  // ---------------------------------------------------------------- the shape of an event trace

  /** Where a reader of the events stands: so many tokens, an error, one or two terminal events. */
  datatype Phase = Tokens(n: nat) | Failing | Ended(times: nat)

  predicate Interrupts(reason: Reason) {
    reason == Cancelled || reason == Deadline
  }

  /** Tokens come in index order; an error is followed only by a terminal event; Stop and Length
      report exactly the tokens delivered before them; a second terminal event is an interrupt. */
  function Next(p: Phase, e: Event): Option<Phase> {
    match (p, e)
    case (Tokens(n), Token(_, index)) => if index == n then Some(Tokens(n + 1)) else None
    case (Tokens(n), Error) => Some(Failing)
    case (Tokens(n), Finished(reason, _, completion, _)) =>
      if (reason == Stop || reason == Length) && completion != n then None
      else if reason == Failed then None else Some(Ended(1))
    case (Failing, Finished(reason, _, _, _)) => if reason == Failed || Interrupts(reason) then Some(Ended(1)) else None
    case (Ended(1), Finished(reason, _, _, _)) => if Interrupts(reason) then Some(Ended(2)) else None
    case _ => None
  }

  function Read(events: seq<Event>): Option<Phase> {
    if |events| == 0 then Some(Tokens(0))
    else
      var p :- Read(events[..|events| - 1]);
      Next(p, events[|events| - 1])
  }

  lemma ReadOne(events: seq<Event>, e: Event)
    ensures Read(events + [e]) == match Read(events) case None => None case Some(p) => Next(p, e)
  {
    assert (events + [e])[..|events|] == events;
  }

  lemma {:induction false} ReadPrefix(events: seq<Event>, more: seq<Event>)
    requires Read(events + more).Some?
    ensures Read(events).Some?
    decreases |more|
  {
    if |more| == 0 {
      assert events + more == events;
    } else {
      assert (events + more)[..|events + more| - 1] == events + more[..|more| - 1];
      ReadPrefix(events, more[..|more| - 1]);
    }
  }

  /** Consecutive tokens read as that many more tokens. */
  lemma {:induction false} ReadTokens(events: seq<Event>, tokens: seq<Network.Token>, n: nat)
    requires Read(events) == Some(Tokens(n))
    ensures Read(events + Equivalence.TokenEvents(tokens, n)) == Some(Tokens(n + |tokens|))
    decreases |tokens|
  {
    if |tokens| == 0 {
      assert events + Equivalence.TokenEvents(tokens, n) == events;
    } else {
      var k := |tokens| - 1;
      ReadTokens(events, tokens[..k], n);
      ReadOne(events + Equivalence.TokenEvents(tokens[..k], n), Event.Token(tokens[k], n + k));
      assert events + Equivalence.TokenEvents(tokens, n) ==
             (events + Equivalence.TokenEvents(tokens[..k], n)) + [Event.Token(tokens[k], n + k)];
    }
  }

  lemma ReadNothing()
    ensures Read([]) == Some(Tokens(0))
  {
  }

  /** What a readable trace looks like: tokens 0, 1, 2, ... first; then at most one error; then at most
      two terminal events; and a Stop or Length event counts exactly the tokens before it. */
  lemma {:induction false} ReadShape(events: seq<Event>)
    requires Read(events).Some?
    ensures forall i | 0 <= i < |events| && events[i].Token? :: events[i].index == i && forall j | 0 <= j < i ::
            events[j].Token?
    ensures forall i | 0 <= i < |events| && events[i].Error? :: (forall j | 0 <= j < i :: events[j].Token?) &&
              forall j | i < j < |events| :: events[j].Finished?
    ensures forall i | 0 <= i < |events| && events[i].Finished? :: |events| - 2 <= i && forall j | i < j < |events| ::
            events[j].Finished?
    ensures forall i | 0 <= i < |events| && events[i].Finished? &&
            (events[i].reason == Stop || events[i].reason == Length) ::
              events[i].completionTokens == i && forall j | 0 <= j < i :: events[j].Token?
    ensures forall i, j | 0 <= i < j < |events| && events[i].Finished? && events[j].Finished? ::
            Interrupts(events[j].reason)
  {
    ReadPhases(events);
  }

  lemma {:induction false} ReadPhases(events: seq<Event>)
    requires Read(events).Some?
    ensures var p, k := Read(events).value, |events|;
            match p
            case Tokens(n) => k == n && forall i | 0 <= i < k :: events[i].Token? && events[i].index == i
            case Failing => 0 < k && events[k - 1].Error? && forall i | 0 <= i < k - 1 ::
              events[i].Token? && events[i].index == i
            case Ended(times) =>
              1 <= times <= 2 && times <= k && FirstEnd(events[..k - times + 1]) &&
              (times == 2 ==> events[k - 1].Finished? && Interrupts(events[k - 1].reason))
    decreases |events|
  {
    if 0 < |events| {
      var front := events[..|events| - 1];
      ReadPhases(front);
      if Read(events).value.Ended? && Read(front).value.Ended? {
        assert events[..|events| - 1] == front[..|front| - 1 + 1];
      } else if Read(events).value.Ended? {
        assert events[..|events|] == events;
      }
    }
  }

  /** A trace up to and including its first terminal event. */
  ghost predicate FirstEnd(events: seq<Event>) {
    var k := |events|;
    0 < k && events[k - 1].Finished? &&
    (((forall i | 0 <= i < k - 1 :: events[i].Token? && events[i].index == i)
      && ((events[k - 1].reason == Stop || events[k - 1].reason == Length) ==> events[k - 1].completionTokens == k - 1))
     || (1 < k && events[k - 2].Error? && events[k - 1].reason != Stop && events[k - 1].reason != Length
         && forall i | 0 <= i < k - 2 :: events[i].Token? && events[i].index == i))
  }

  // ---------------------------------------------------------------- what steps push

  /** A decoding step publishes at least one token or ends the request; it pushes one event for each
      token and at most one more. */
  predicate GetsOn(r: Request, d: DecodeView, d': DecodeView) {
    && |d.log| <= |d'.log|
    && if d'.terminal then |d'.log| - |d.log| <= r.maxNewTokens - d.generated + 1
       else d.generated < d'.generated && |d'.log| - |d.log| == d'.generated - d.generated
  }

  /** A step extends a running trace by a token or ends it. */
  lemma PlainStepReads(m: Model, r: Request, d: DecodeView)
    requires !d.terminal && d.generated < r.maxNewTokens && Read(d.log) == Some(Tokens(d.generated))
    requires PlainStep(m, r, d).Some?
    ensures var d' := PlainStep(m, r, d).value;
            && d'.generated <= r.maxNewTokens
            && Read(d'.log) == Some(if d'.terminal then Ended(1) else Tokens(d'.generated))
            && (!d'.terminal ==> d'.generated < r.maxNewTokens)
            && GetsOn(r, d, d')
  {
    hide Settle, QueueClose, Read;
    var remaining := r.maxNewTokens - d.generated;
    QueueCloseOnly(r, d, remaining);
    var q := QueueClose(r, d, remaining);
    if |q.forced| > 0 {
      SettleReads(m, r, q.(forced := q.forced[1..]), q.forced[0], true);
    } else {
      var token := r.sampling.Sample(q.logits, q.history).value;
      if StartsTooLate(r, q, token, remaining) {
        ReadOne(d.log, Finished(Length, |r.prompt|, d.generated, q.cached));
      } else if ClosesOnEos(m, r, q, token) {
        var end := r.thinking.value.endTokens;
        SettleReads(m, r, q.(forced := end[1..]), end[0], false);
      } else {
        SettleReads(m, r, q, token, false);
      }
    }
  }

  lemma SettleReads(m: Model, r: Request, q: DecodeView, token: Network.Token, wasForced: bool)
    requires !q.terminal && q.generated < r.maxNewTokens && Read(q.log) == Some(Tokens(q.generated))
    requires Settle(m, r, q, token, wasForced).Some?
    ensures var d' := Settle(m, r, q, token, wasForced).value;
            && d'.generated <= r.maxNewTokens
            && Read(d'.log) == Some(if d'.terminal then Ended(1) else Tokens(d'.generated))
            && (!d'.terminal ==> d'.generated < r.maxNewTokens)
            && GetsOn(r, q, d')
  {
    hide Read, ForwardTokens, Observe;
    if token in m.eos {
      ReadOne(q.log, Finished(Stop, |r.prompt|, q.generated, q.cached));
    } else {
      var (state, out) := ForwardTokens(m, q.state, [token], false).value;
      ObserveOnly(r, q.(state := state, logits := out.logits[0]), token, wasForced);
      var log := q.log + [Event.Token(token, q.generated)];
      ReadOne(q.log, Event.Token(token, q.generated));
      ReadOne(log, Finished(Length, |r.prompt|, q.generated + 1, q.cached));
    }
  }

  lemma ObserveOnly(r: Request, d: DecodeView, token: Network.Token, wasForced: bool)
    ensures var o := Observe(r, d, token, wasForced);
            o.log == d.log && o.generated == d.generated && o.terminal == d.terminal && o.cached == d.cached
  {
  }

  lemma SpeculativeStepReads(m: Model, r: Request, d: DecodeView, d': DecodeView)
    requires Equivalence.SpeculativeStep(m, r, d, d') && Read(d.log) == Some(Tokens(d.generated))
    ensures d'.generated <= r.maxNewTokens
    ensures Read(d'.log) == Some(if d'.terminal then Ended(1) else Tokens(d'.generated))
    ensures !d'.terminal ==> d'.generated < r.maxNewTokens
    ensures GetsOn(r, d, d')
  {
    hide Equivalence.Outcome, Equivalence.SpeculativeStep, Read;
    Equivalence.StepsOn(m, r, d, d');
    var tokens := Equivalence.RoundFollows(m, r, d, d');
    if d'.terminal {
      var o := Equivalence.Outcome(m, d.state, d.logits, r.maxNewTokens - d.generated).value;
      Equivalence.OutcomeWithin(m, d.state, d.logits, r.maxNewTokens - d.generated);
      ReadTokens(d.log, o.0, d.generated);
      ReadOne(d.log + Equivalence.TokenEvents(o.0, d.generated),
          Finished(o.1, |r.prompt|, d.generated + |o.0|, d.cached));
    } else {
      ReadTokens(d.log, tokens, d.generated);
    }
  }

  // ---------------------------------------------------------------- the environment

  datatype Send = Sent | Full | Closed

  /** Flags and channel answers at each observation; anything may happen between two of them. */
  datatype World = World(
    cancelled: nat -> bool, expired: nat -> bool, closed: nat -> bool, send: nat -> Send,
        stalledTooLong: (nat, nat) -> bool)
  {
    predicate Raised(t: nat) {
      cancelled(t) || expired(t)
    }
  }

  // ---------------------------------------------------------------- the request's invariant

  ghost predicate Sound(q: Active)
    reads q, q.thinking, q.mtpState
  {
    && q.Valid()
    && (q.request.embeddings.Some? ==> |q.request.embeddings.value| == |q.request.prompt|)
    && (!q.terminal ==> q.generated < q.request.maxNewTokens)
    && Stream(q.log, q.delivered, q.pending, q.terminal, q.interrupted, q.generated)
  }

  /** Everything pushed is either sent or waiting, and reads as a trace that fits the flags. */
  ghost predicate Stream(log: seq<Event>, delivered: seq<Event>, pending: seq<Event>, terminal: bool, interrupted: bool,
      generated: nat)
  {
    && log == delivered + pending
    && (!terminal ==> !interrupted && Read(log) == Some(Tokens(generated)))
    && (terminal && !interrupted ==> Read(log) == Some(Ended(1)))
    && (interrupted ==> terminal && Read(log) in {Some(Ended(1)), Some(Ended(2))})
  }

  /** A request that still has something to do or to send. */
  ghost predicate Live(q: Active)
    reads q, q.thinking, q.mtpState
  {
    Sound(q) && !(q.terminal && q.pending == [])
  }

  /** A request in the queue between turns: and all it has prefilled and decoded means something. */
  ghost predicate Waiting(q: Active, e: Engine)
    reads q, q.Repr()
  {
    Live(q) && q.Kept(e)
  }

  /** The last event is an interrupt, so the request did not complete by itself. */
  ghost predicate Interrupted(log: seq<Event>) {
    0 < |log| && log[|log| - 1].Finished? && Interrupts(log[|log| - 1].reason)
  }

  /** Each event after the first terminal one is another terminal one, and there is at most one. */
  lemma {:induction false} NothingAfterEnd(events: seq<Event>, more: seq<Event>)
    requires Read(events).Some? && Read(events).value.Ended? && Read(events + more).Some?
    ensures Read(events + more) == Some(Ended(Read(events).value.times + |more|))
    ensures Read(events + more).value.times <= 2 || |more| == 0
    decreases |more|
  {
    if |more| == 0 {
      assert events + more == events;
    } else {
      var k := |more| - 1;
      ReadOne(events + more[..k], more[k]);
      assert events + more == (events + more[..k]) + [more[k]];
      NothingAfterEnd(events, more[..k]);
    }
  }

  /** While a terminal event waits to be sent, none has been. */
  lemma NotEndedYet(delivered: seq<Event>, pending: seq<Event>)
    requires Read(delivered + pending) == Some(Ended(1)) && 0 < |pending|
    ensures Read(delivered).Some? && !Read(delivered).value.Ended?
  {
    ReadPrefix(delivered, pending);
    if Read(delivered).value.Ended? {
      NothingAfterEnd(delivered, pending);
      EndedPositive(delivered);
    }
  }

  lemma {:induction false} EndedPositive(events: seq<Event>)
    requires Read(events).Some? && Read(events).value.Ended?
    ensures 1 <= Read(events).value.times <= 2
  {
  }

  /** What a request still has to do and to send.  Every step that succeeds or fails makes it smaller, so
      does every event sent and every interrupt. */
  ghost function Work(q: Active): int
    reads q
  {
    WorkOf(Left(q.request, q.prefetched, q.generated, q.terminal), |q.pending|, q.interrupted)
  }

  function WorkOf(left: int, waiting: nat, interrupted: bool): int {
    3 * left + waiting + if interrupted then 0 else 2
  }

  /** Prompt to be prefilled and tokens to be generated; none once the request has ended. */
  function Left(r: Request, prefetched: nat, generated: nat, terminal: bool): int {
    if terminal then 0 else |r.prompt| - prefetched + (r.maxNewTokens - generated)
  }

  /** A queued request always has something left. */
  lemma WorkRemains(q: Active)
    requires Live(q)
    ensures 0 < Work(q)
  {
    hide Read;
  }

  /** `interrupt_if_needed`: replaces whatever is still unsent by one interrupting terminal event. */
  method InterruptIfNeeded(q: Active, world: World, clock: nat)
    requires Sound(q)
    modifies q`interrupted, q`pending, q`terminal, q`log
    ensures Sound(q)
    ensures !old(q.interrupted) && world.Raised(clock) ==>
              q.interrupted && q.terminal && |q.pending| == 1 && Read(q.log) ==
                Some(if old(q.terminal) && old(q.pending) == [] then Ended(2) else Ended(1))
    ensures !old(q.interrupted) && world.Raised(clock) ==>
              Interrupted(q.log) && Work(q) < old(Work(q)) &&
                  q.pending == [Finished(if world.cancelled(clock) then Cancelled else Deadline,
                                                           |q.request.prompt|, q.generated, q.cached)]
    ensures Work(q) <= old(Work(q)) && (0 < |old(q.pending)| ==> 0 < |q.pending|)
    ensures old(q.interrupted) || !world.Raised(clock) ==>
              q.interrupted == old(q.interrupted) && q.pending == old(q.pending) && q.terminal == old(q.terminal) &&
                  q.log == old(q.log)
  {
    hide Read, Sound;
    if q.interrupted {
      return;
    }
    var reason: Option<Reason> := None;
    if world.cancelled(clock) {
      reason := Some(Cancelled);
    } else if world.expired(clock) {
      reason := Some(Deadline);
    }
    if reason.Some? {
      Interrupt(q, reason.value);
    }
  }

  method Interrupt(q: Active, reason: Reason)
    requires Sound(q) && !q.interrupted && Interrupts(reason)
    modifies q`interrupted, q`pending, q`terminal, q`log
    ensures Sound(q) && q.interrupted && q.terminal && Interrupted(q.log)
    ensures q.pending == [Finished(reason, |q.request.prompt|, q.generated, q.cached)] && Work(q) < old(Work(q))
    ensures Read(q.log) == Some(if old(q.terminal) && old(q.pending) == [] then Ended(2) else Ended(1))
  {
    hide Read;
    ghost var event := Finished(reason, |q.request.prompt|, q.generated, q.cached);
    InterruptReads(q.log, q.delivered, q.pending, q.terminal, q.generated, event);
    q.interrupted := true;
    q.pending := [];
    q.terminal := false;
    q.log := q.delivered;
    q.DoFinish(reason);
    assert q.log == q.delivered + [event] && q.pending == [event];
  }

  /** An interrupt in place of what is unsent: the only terminal event, unless one was already sent. */
  lemma InterruptReads(log: seq<Event>, delivered: seq<Event>, pending: seq<Event>, terminal: bool, generated: nat,
      event: Event)
    requires Stream(log, delivered, pending, terminal, false, generated) && event.Finished? && Interrupts(event.reason)
    ensures Read(delivered + [event]) == Some(Ended(if terminal && pending == [] then 2 else 1))
  {
    ReadPrefix(delivered, pending);
    ReadOne(delivered, event);
    if !terminal {
      RunningPrefix(delivered, pending);
    } else if 0 < |pending| {
      NotEndedYet(delivered, pending);
    } else {
      assert delivered + pending == delivered;
    }
  }

  lemma {:induction false} RunningPrefix(events: seq<Event>, more: seq<Event>)
    requires Read(events + more).Some? && Read(events + more).value.Tokens?
    ensures Read(events).Some? && Read(events).value.Tokens?
    decreases |more|
  {
    if |more| == 0 {
      assert events + more == events;
    } else {
      var k := |more| - 1;
      assert (events + more)[..|events + more| - 1] == events + more[..k];
      RunningPrefix(events, more[..k]);
    }
  }

  /** All `n` waiting events are sent while no flag is up, and one is up at the check after the last. */
  ghost predicate LateFlag(world: World, clock: nat, n: nat) {
    (forall k | 0 <= k < n :: Clear(world, clock + 2 * k)) && world.Raised(clock + 2 * n)
  }

  ghost predicate Overtaken(world: World, clock: nat) {
    exists n: nat :: 0 < n && LateFlag(world, clock, n)
  }

  /** A check that finds no flag up and a send that succeeds. */
  ghost predicate Clear(world: World, check: nat) {
    !world.Raised(check) && world.send(check + 1) == Sent
  }

  /** A flag that is raised once stays raised. */
  ghost predicate Persistent(flag: nat -> bool) {
    forall t, u | t <= u && flag(t) :: flag(u)
  }

  /** Such an environment exists however many events wait, with flags that stay up once they are up; so two
      terminal events can be delivered. */
  lemma LateFlagHappens(clock: nat, n: nat) returns (world: World)
    ensures Persistent(world.cancelled) && Persistent(world.expired) && LateFlag(world, clock, n)
  {
    world := World(t => t >= clock + 2 * n, t => false, t => false, t => Sent, (a, b) => false);
  }

  /** Hands the front event to the channel, which accepted it. */
  method Deliver(q: Active)
    requires Sound(q) && 0 < |q.pending|
    modifies q`pending, q`delivered, q`stalledSince
    ensures Sound(q) && q.delivered == old(q.delivered) + [old(q.pending)[0]] && q.pending == old(q.pending)[1..]
    ensures q.stalledSince == None && Work(q) == old(Work(q)) - 1
  {
    hide Read;
    q.delivered := q.delivered + [q.pending[0]];
    q.pending := q.pending[1..];
    q.stalledSince := None;
    assert q.delivered + q.pending == old(q.delivered) + old(q.pending);
  }

  /** How the send loop ends: nothing waits, or the last answer was not `Sent`; the request is dropped
      exactly when its channel has closed or has been full for too long. */
  ghost predicate SendEnds(q: Active, world: World, clock': nat, dropped: bool)
    requires 0 < clock'
    reads q
  {
    if q.pending == [] then !dropped
    else match world.send(clock' - 1)
      case Sent => false
      case Closed => dropped
      case Full => q.stalledSince.Some? && (dropped <==> world.stalledTooLong(q.stalledSince.value, clock'))
  }

  /** The stall runs from the first full channel since the last event sent. */
  ghost predicate StallFrom(before: Option<nat>, sent: bool, now: Option<nat>, clock': nat) {
    var still := if sent then None else before;
    now == still || (still.None? && now == Some(clock'))
  }

  ghost predicate Twice(q: Active)
    reads q
  {
    Read(q.log) == Some(Ended(2))
  }

  /** One round of the send loop: the flags are checked, and the front event, if any, is tried. */
  method SendNext(q: Active, world: World, clock: nat) returns (clock': nat, sent: bool, dropped: bool)
    requires Sound(q)
    modifies q`interrupted, q`pending, q`terminal, q`log, q`delivered, q`stalledSince
    ensures Sound(q) && Work(q) <= old(Work(q)) && (sent ==> Work(q) < old(Work(q)))
    ensures if sent then
              && clock' == clock + 2 && !dropped && q.stalledSince == None && world.send(clock + 1) == Sent
              && |q.delivered| == |old(q.delivered)| + 1 && old(q.delivered) <= q.delivered
            else
              && clock < clock' && SendEnds(q, world, clock', dropped) && q.delivered == old(q.delivered)
              && StallFrom(old(q.stalledSince), false, q.stalledSince, clock')
              && (0 < |old(q.pending)| ==> clock' == clock + 2 && world.send(clock + 1) != Sent)
    ensures if !old(q.interrupted) && world.Raised(clock) then
              && q.interrupted && q.terminal && Interrupted(q.log) && |q.pending| == (if sent then 0 else 1)
              && Read(q.log) == Some(if old(q.terminal) && old(q.pending) == [] then Ended(2) else Ended(1))
            else
              && q.interrupted == old(q.interrupted) && q.terminal == old(q.terminal) && q.log == old(q.log)
              && (sent ==> 0 < |old(q.pending)| && q.pending == old(q.pending)[1..])
              && (!sent ==> q.pending == old(q.pending))
  {
    hide Read, Sound, Work;
    InterruptIfNeeded(q, world, clock);
    dropped := false;
    sent := false;
    if q.pending == [] {
      return clock + 1, false, false;
    }
    var answer := world.send(clock + 1);
    clock' := clock + 2;
    if answer == Full {
      Stall(q, clock');
      dropped := world.stalledTooLong(q.stalledSince.value, clock');
    } else if answer == Closed {
      dropped := true;
    } else {
      Deliver(q);
      sent := true;
    }
  }

  /** The send loop: checks the flags before every event, and once more after the last one.  It leaves a
      second terminal event exactly when the first was waiting, everything waiting was sent with the flags
      down, and a flag was up at that last check. */
  method SendAll(q: Active, world: World, clock: nat) returns (clock': nat, dropped: bool)
    requires Live(q)
    modifies q`interrupted, q`pending, q`terminal, q`log, q`delivered, q`stalledSince
    ensures Sound(q) && clock < clock'
    ensures old(q.delivered) <= q.delivered
    ensures SendEnds(q, world, clock', dropped) && (old(q.interrupted) ==> q.interrupted)
    ensures StallFrom(old(q.stalledSince), q.delivered != old(q.delivered), q.stalledSince, clock')
    ensures Work(q) <= old(Work(q)) && (0 < |old(q.pending)| ==> clock + 2 <= clock')
    ensures 0 < |old(q.pending)| && world.send(clock + 1) == Sent ==> Work(q) < old(Work(q))
    ensures (q.log == old(q.log) && q.terminal == old(q.terminal)) || (q.terminal && Interrupted(q.log))
    ensures !dropped ==> Live(q) || (q.terminal && q.pending == [] && q.delivered == q.log)
    ensures Twice(q) <==>
            old(Twice(q)) || (old(q.terminal && !q.interrupted) && LateFlag(world, clock, |old(q.pending)|))
  {
    hide Read, Sound, LateFlag, SendEnds, Work;
    clock' := clock;
    dropped := false;
    ghost var n := |q.pending|;
    SoundMeans(q);
    var sent := true;
    while sent
      invariant Sound(q) && clock <= clock' && old(q.delivered) <= q.delivered
      invariant old(q.interrupted) ==> q.interrupted
      invariant Work(q) <= old(Work(q)) && (clock < clock' ==> 0 < |old(q.pending)| ==> clock + 2 <= clock')
      invariant clock == clock' ==> sent && q.pending == old(q.pending) && q.interrupted == old(q.interrupted)
      invariant clock < clock' && 0 < |old(q.pending)| && world.send(clock + 1) == Sent ==> Work(q) < old(Work(q))
      invariant sent ==> !dropped && q.stalledSince == if q.delivered == old(q.delivered) then old(q.stalledSince)
                  else None
      invariant !sent ==> clock < clock' && SendEnds(q, world, clock', dropped)
      invariant !sent ==> StallFrom(old(q.stalledSince), q.delivered != old(q.delivered), q.stalledSince, clock')
      invariant q.interrupted == old(q.interrupted) ==>
                  && q.terminal == old(q.terminal) && q.log == old(q.log) && |q.pending| <= n
                  && (sent ==> clock' == clock + 2 * (n - |q.pending|))
                  && (sent && !q.interrupted ==> forall k | 0 <= k < n - |q.pending| :: Clear(world, clock + 2 * k))
                  && (!sent && !q.interrupted ==> !LateFlag(world, clock, n))
      invariant q.interrupted != old(q.interrupted) ==> q.terminal && Interrupted(q.log)
      invariant q.interrupted != old(q.interrupted) ==> (Twice(q) <==> old(q.terminal) && LateFlag(world, clock, n))
      decreases sent, if q.interrupted then 0 else 1, |q.pending|
    {
      if !q.interrupted {
        LateFlagAt(world, clock, n, n - |q.pending|);
      }
      clock', sent, dropped := SendNext(q, world, clock');
      SoundMeans(q);
    }
    SoundMeans(q);
  }

  method Stall(q: Active, clock: nat)
    requires Sound(q)
    modifies q`stalledSince
    ensures Work(q) == old(Work(q))
    ensures Sound(q) && q.stalledSince == (if old(q.stalledSince).None? then Some(clock) else old(q.stalledSince))
  {
    if q.stalledSince.None? {
      q.stalledSince := Some(clock);
    }
  }

  lemma SoundMeans(q: Active)
    requires Sound(q)
    ensures q.log == q.delivered + q.pending && (!q.interrupted ==> !Twice(q)) && (q.interrupted ==> q.terminal)
    ensures q.pending == [] ==> q.log == q.delivered
  {
    hide Read;
  }

  /** What the check after `sent` events decides about the late flag. */
  lemma LateFlagAt(world: World, clock: nat, n: nat, sent: nat)
    requires sent <= n && forall k | 0 <= k < sent :: Clear(world, clock + 2 * k)
    ensures world.Raised(clock + 2 * sent) ==> (LateFlag(world, clock, n) <==> sent == n)
    ensures !world.Raised(clock + 2 * sent) && sent == n ==> !LateFlag(world, clock, n)
    ensures sent < n && world.send(clock + 2 * sent + 1) != Sent ==> !LateFlag(world, clock, n)
  {
    assert sent < n && LateFlag(world, clock, n) ==> Clear(world, clock + 2 * sent);
  }

  // ---------------------------------------------------------------- one turn, one pass

  /** What a step leaves: it has moved on, or its failure has been told. */
  ghost predicate Advances(e: Engine, r: Request, turns: nat, s: Standing, s': Standing) {
    || Scheduler.Moves(e, r, turns, s, s')
    || (Scheduler.Fails(e, r, turns, s) && s'.prefetched == s.prefetched && TellsFailure(r, s.d, s'.d))
  }

  predicate TellsFailure(r: Request, d: DecodeView, d': DecodeView) {
    && d'.log == d.log + [Error, Finished(Failed, |r.prompt|, d.generated, d.cached)]
    && d'.terminal && d'.generated == d.generated
  }

  lemma MoveReads(e: Engine, r: Request, turns: nat, s: Standing, s': Standing)
    requires !s.d.terminal && s.d.generated < r.maxNewTokens
    requires Read(s.d.log) == Some(Tokens(s.d.generated)) && Scheduler.Moves(e, r, turns, s, s')
    ensures Read(s'.d.log) == Some(if s'.d.terminal then Ended(1) else Tokens(s'.d.generated))
    ensures !s'.d.terminal ==> s'.d.generated < r.maxNewTokens
    ensures |s.d.log| <= |s'.d.log|
    ensures WorkOf(Left(r, s'.prefetched, s'.d.generated, s'.d.terminal), |s'.d.log| - |s.d.log|, false) <
            WorkOf(Left(r, s.prefetched, s.d.generated, false), 0, false)
  {
    hide Read, PlainStep, Equivalence.SpeculativeStep, Fed, Speculative.RoundOf, Equivalence.AfterRound;
    if s.prefetched == |r.prompt| {
      if e.mtp.Some? && s.draft.Some? {
        SpeculativeStepReads(e.model, r, s.d, s'.d);
      } else {
        PlainStepReads(e.model, r, s.d);
      }
    }
  }

  lemma FailureReads(log: seq<Event>, n: nat, e: Event)
    requires Read(log) == Some(Tokens(n)) && e.Finished? && e.reason == Failed
    ensures Read(log + [Error] + [e]) == Some(Ended(1))
  {
    ReadOne(log, Error);
    ReadOne(log + [Error], e);
  }

  /** The step alone, read as a trace. */
  method TryStep(q: Active, m: Model, config: EngineConfig, prefix: Cache, mtp: Option<MtpModel>, turns: nat)
      returns (ok: bool)
    requires Sound(q) && !q.terminal && q.pending == [] && 0 < config.prefillChunk && prefix.Valid()
    requires var e := Engine(m, config, mtp); e.Valid() && q.Kept(e) && prefix.Faithful(m, config.newState)
    modifies q`pending, q`log, q`terminal, q`history, q`generated, q`forced, q`logits, q`policy, q`prefetched, q`trail
    modifies q.thinking, q.state, q.mtpState, prefix
    ensures q.Valid() && prefix.Valid() && prefix.Faithful(m, config.newState)
    ensures q.mtpState != null ==> fresh(q.mtpState.sequence) || q.mtpState.sequence == old(q.mtpState.sequence)
    ensures ok ==> Live(q) && q.Kept(Engine(m, config, mtp))
    ensures ok ==> Read(q.log) == Some(if q.terminal then Ended(1) else Tokens(q.generated)) && !q.interrupted
    ensures ok ==> Work(q) < old(Work(q))
    ensures !ok ==> q.log == old(q.log) && q.generated == old(q.generated) && !q.terminal && q.pending == []
    ensures !ok ==> q.prefetched == old(q.prefetched) && q.trail == old(q.trail)
    ensures var e := Engine(m, config, mtp);
            if ok then Scheduler.Moves(e, q.request, turns, old(q.Stand()), q.Stand())
            else Scheduler.Fails(e, q.request, turns, old(q.Stand()))
  {
    hide Read, PlainStep, Equivalence.SpeculativeStep, Promised, Stream, Live, Active.Kept, Cache.Valid, Cache.Faithful,
        Engine.Valid, Scheduler.Moves, Scheduler.Fails;
    ghost var start := q.Stand();
    ghost var d := q.View();
    assert d.log == q.delivered && Read(d.log) == Some(Tokens(d.generated)) && !q.interrupted by { StreamIs(q); }
    ok := q.Step(m, config, prefix, mtp, turns);
    if ok {
      MoveReads(Engine(m, config, mtp), q.request, turns, start, q.Stand());
      assert q.log == d.log + q.pending;
      SteppedLive(q);
    }
  }

  /** A request whose step pushed its events is live. */
  lemma SteppedLive(q: Active)
    requires q.Valid() && !q.interrupted && q.log == q.delivered + q.pending
    requires q.request.embeddings.Some? ==> |q.request.embeddings.value| == |q.request.prompt|
    requires Read(q.log) == Some(if q.terminal then Ended(1) else Tokens(q.generated))
    requires !q.terminal ==> q.generated < q.request.maxNewTokens
    requires Read(q.delivered).Some? && Read(q.delivered).value.Tokens?
    ensures Live(q)
  {
    hide Read;
    if q.pending == [] {
      assert q.delivered + [] == q.delivered;
    }
  }

  /** The step of a turn, with a failure turned into an Error event and a terminal event. */
  method StepOrFail(q: Active, m: Model, config: EngineConfig, prefix: Cache, mtp: Option<MtpModel>, turns: nat)
    requires Sound(q) && !q.terminal && q.pending == [] && 0 < config.prefillChunk && prefix.Valid()
    requires var e := Engine(m, config, mtp); e.Valid() && q.Kept(e) && prefix.Faithful(m, config.newState)
    modifies q`pending, q`log, q`terminal, q`history, q`generated, q`forced, q`logits, q`policy, q`prefetched, q`trail
    modifies q.thinking, q.state, q.mtpState, prefix
    ensures Live(q) && q.Kept(Engine(m, config, mtp)) && !Twice(q)
    ensures prefix.Valid() && prefix.Faithful(m, config.newState)
    ensures q.mtpState != null ==> fresh(q.mtpState.sequence) || q.mtpState.sequence == old(q.mtpState.sequence)
    ensures Work(q) < old(Work(q))
    ensures Advances(Engine(m, config, mtp), q.request, turns, old(q.Stand()), q.Stand())
  {
    hide Read, Promised, Stream, Active.Kept, Engine.Valid, Cache.Faithful, Cache.Valid, Scheduler.Moves,
        Scheduler.Fails;
    ghost var e, d, draft := Engine(m, config, mtp), q.View(), q.Draft();
    assert Promised(e, q.request, q.prefetched, q.trail, d, draft) by { KeptIs(q, e); }
    assert Read(q.log) == Some(Tokens(q.generated)) && q.log == q.delivered && !q.interrupted by { StreamIs(q); }
    var ok := TryStep(q, m, config, prefix, mtp, turns);
    if !ok {
      Fail(q, e, d, draft);
    }
  }

  lemma KeptIs(q: Active, e: Engine)
    ensures q.Kept(e) == Promised(e, q.request, q.prefetched, q.trail, q.View(), q.Draft())
  {
  }

  lemma StreamIs(q: Active)
    requires Sound(q) && !q.terminal && q.pending == []
    ensures Read(q.log) == Some(Tokens(q.generated)) && q.log == q.delivered && !q.interrupted
  {
  }

  /** The Error event and the terminal event of a failed step. */
  method Fail(q: Active, ghost e: Engine, ghost d: DecodeView, ghost draft: Option<MtpView>)
    requires q.Valid() && !q.terminal && !q.interrupted && q.pending == [] && q.log == q.delivered
    requires Read(q.log) == Some(Tokens(q.generated))
    requires q.request.embeddings.Some? ==> |q.request.embeddings.value| == |q.request.prompt|
    requires Promised(e, q.request, q.prefetched, q.trail, d, draft) && (draft.Some? <==> q.mtpState != null)
    modifies q`pending, q`log, q`terminal
    ensures Live(q) && q.Kept(e) && Read(q.log) == Some(Ended(1)) && q.terminal
    ensures q.pending == [Error, Finished(Failed, |q.request.prompt|, q.generated, q.cached)]
    ensures q.log == old(q.log) + q.pending
  {
    hide Read, Promised;
    ghost var log := q.log;
    q.Push(Error);
    q.DoFinish(Failed);
    FailureReads(log, q.generated, q.pending[1]);
    assert q.log == log + [Error] + [q.pending[1]] == q.delivered + q.pending;
    PromisedEnds(e, q.request, q.prefetched, q.trail, d, draft, q.View(), q.Draft());
  }

  /** What sending and interrupting leave of what is promised. */
  lemma SendingKeeps(e: Engine, r: Request, prefetched: nat, trail: seq<DecodeView>, d: DecodeView,
      draft: Option<MtpView>, d': DecodeView)
    requires Promised(e, r, prefetched, trail, d, draft)
    requires d' == d || (d'.terminal && Interrupted(d'.log))
    ensures Promised(e, r, prefetched, trail, d', draft)
  {
    hide Promised;
    if d' != d {
      PromisedEnds(e, r, prefetched, trail, d, draft, d', draft);
    }
  }

  ghost method CountTurn(q: Active, e: Engine)
    requires Live(q) && q.Kept(e)
    modifies q`turns
    ensures Live(q) && q.Kept(e) && q.turns == old(q.turns) + 1 && Twice(q) == old(Twice(q))
    ensures Work(q) == old(Work(q)) && q.View() == old(q.View())
  {
    hide Read, Promised;
    q.turns := q.turns + 1;
  }

  /** An interrupt ends the events and changes nothing else. */
  ghost predicate CutOff(d: DecodeView, d': DecodeView) {
    d' == d.(log := d'.log, terminal := true) && Interrupted(d'.log)
  }

  /** Some answer of the channel was not `Sent`, or the channel was found closed. */
  ghost predicate Blocked(world: World, from: nat, to: nat) {
    exists t | from <= t < to :: world.closed(t) || world.send(t) != Sent
  }

  /** The request has ended and its client has received all its events, up to a terminal one. */
  ghost predicate Done(q: Active)
    reads q
  {
    && q.terminal && q.pending == [] && q.delivered == q.log
    && Read(q.log) in {Some(Ended(1)), Some(Ended(2))}
  }

  lemma DoneIs(q: Active)
    requires Sound(q) && q.terminal && q.pending == [] && q.delivered == q.log
    ensures Done(q)
  {
    hide Read;
  }

  /** Less is left of the request than before, unless its channel did not take an event. */
  ghost predicate Fared(q: Active, before: int, world: World, from: nat, to: nat)
    reads q
  {
    Work(q) <= before && (Work(q) < before || Blocked(world, from, to))
  }

  /** The log ends because the request completed by itself. */
  predicate EndsByItself(log: seq<Event>) {
    0 < |log| && log[|log| - 1].Finished? && (log[|log| - 1].reason == Stop || log[|log| - 1].reason == Length)
  }

  /** A text request that completed by itself has the log of the last view of its trail, which began at
      the whole prompt prefilled in one call and went on by plain steps or speculative rounds. */
  ghost predicate Answered(q: Active, e: Engine)
    reads q
  {
    q.request.embeddings.None? && q.terminal && EndsByItself(q.log) ==>
      && Trailed(e, q.request, q.trail, UsesMtp(e.config, e.mtp, q.request))
      && q.trail[|q.trail| - 1].terminal && q.trail[|q.trail| - 1].log == q.log
  }

  lemma KeptAnswers(q: Active, e: Engine)
    requires q.Kept(e)
    ensures Answered(q, e)
  {
    hide Trailed, DraftFollows, Sound;
  }

  /** A request that has left the queue: everything is done, or its channel did not take an event. */
  ghost predicate Gone(q: Active, e: Engine, owned: set<object?>, world: World, from: nat, to: nat)
    reads q
  {
    q !in owned && Answered(q, e) && (Done(q) || Blocked(world, from, to))
  }

  lemma BlockedWider(world: World, from: nat, to: nat, from': nat, to': nat)
    requires from' <= from && to <= to'
    ensures Blocked(world, from, to) ==> Blocked(world, from', to')
  {
  }

  /** In the queue with no more left than `left`, unless its channel did not take an event; or gone. */
  ghost predicate Awaits(q: Active, e: Engine, left: int, active: seq<Active>, owned: set<object?>, world: World,
                         from: nat, to: nat)
    reads q
  {
    (q in active && (Work(q) <= left || Blocked(world, from, to))) || Gone(q, e, owned, world, from, to)
  }

  /** The channel is open, and takes the first event that waits. */
  predicate Served(pending: seq<Event>, world: World, clock: nat) {
    !world.closed(clock) && (pending == [] || world.send(clock + 3) == Sent)
  }

  /** A turn steps its request: the channel is open, no flag is up, nothing waits and nothing has ended it. */
  predicate Steps(world: World, clock: nat, pending: seq<Event>, terminal: bool) {
    !world.closed(clock) && !world.Raised(clock + 1) && pending == [] && !terminal
  }

  /** `d` with at most an interrupt since. */
  ghost predicate Since(d: DecodeView, d': DecodeView) {
    d' == d || CutOff(d, d')
  }

  /** A step, and at most an interrupt since. */
  ghost predicate SteppedOnce(e: Engine, r: Request, turns: nat, s: Standing, s': Standing) {
    exists d {:trigger Since(d, s'.d)} :: Since(d, s'.d) && Advances(e, r, turns, s, s'.(d := d))
  }

  method InterruptKept(q: Active, world: World, clock: nat, ghost e: Engine)
    requires Live(q) && q.Kept(e)
    modifies q`interrupted, q`pending, q`terminal, q`log
    ensures Live(q) && q.Kept(e)
    ensures Twice(q) ==> old(Twice(q))
    ensures Work(q) <= old(Work(q)) && (0 < |old(q.pending)| ==> 0 < |q.pending|)
    ensures if !old(q.interrupted) && world.Raised(clock) then
              q.interrupted && 0 < |q.pending| && Work(q) < old(Work(q)) && CutOff(old(q.View()), q.View())
            else q.View() == old(q.View()) && q.interrupted == old(q.interrupted) && q.pending == old(q.pending)
  {
    hide Read, Promised;
    ghost var d := q.View();
    InterruptIfNeeded(q, world, clock);
    SendingKeeps(e, q.request, q.prefetched, q.trail, d, q.Draft(), q.View());
  }

  method SendKept(q: Active, world: World, clock: nat, ghost e: Engine) returns (clock': nat, dropped: bool)
    requires Live(q) && q.Kept(e)
    modifies q`interrupted, q`pending, q`terminal, q`log, q`delivered, q`stalledSince
    ensures Sound(q) && q.Kept(e) && clock < clock'
    ensures old(q.delivered) <= q.delivered
    ensures !dropped ==> Live(q) || (q.terminal && q.pending == [] && q.delivered == q.log)
    ensures Twice(q) ==> old(Twice(q)) || Overtaken(world, clock)
    ensures SendEnds(q, world, clock', dropped)
    ensures Work(q) <= old(Work(q)) && (0 < |old(q.pending)| ==> clock + 2 <= clock')
    ensures 0 < |old(q.pending)| && world.send(clock + 1) == Sent ==> Work(q) < old(Work(q))
    ensures Since(old(q.View()), q.View()) && (old(q.interrupted) ==> q.interrupted)
  {
    hide Read, Promised, SendEnds, Work;
    ghost var d := q.View();
    clock', dropped := SendAll(q, world, clock);
    SendingKeeps(e, q.request, q.prefetched, q.trail, d, q.Draft(), q.View());
  }

  /** The first half of a turn: the flags, and then the step of a request with nothing to send. */
  method InterruptOrStep(q: Active, m: Model, config: EngineConfig, prefix: Cache, mtp: Option<MtpModel>, turns: nat,
      world: World, clock: nat)
    requires var e := Engine(m, config, mtp); e.Valid() && Waiting(q, e)
    requires 0 < config.prefillChunk && prefix.Valid() && prefix.Faithful(m, config.newState)
    modifies q`pending, q`log, q`terminal, q`history, q`generated, q`forced, q`logits, q`policy, q`prefetched, q`trail
    modifies q`interrupted, q.thinking, q.state, q.mtpState, prefix
    ensures Live(q) && q.Kept(Engine(m, config, mtp)) && (Twice(q) ==> old(Twice(q)))
    ensures prefix.Valid() && prefix.Faithful(m, config.newState)
    ensures q.mtpState != null ==> fresh(q.mtpState.sequence) || q.mtpState.sequence == old(q.mtpState.sequence)
    ensures Work(q) <= old(Work(q)) && (if old(q.pending) == [] then Work(q) < old(Work(q)) else 0 < |q.pending|)
    ensures !world.Raised(clock) && old(q.pending) == [] && !old(q.terminal) ==>
              Advances(Engine(m, config, mtp), q.request, turns, old(q.Stand()), q.Stand())
    ensures world.Raised(clock) || old(q.pending) != [] ==>
              Since(old(q.View()), q.View()) && (world.Raised(clock) ==> q.interrupted)
  {
    hide Read, Promised, Stream, Active.Kept, Active.Valid, Engine.Valid, Cache.Faithful, Cache.Valid, Work, Advances;
    ghost var e := Engine(m, config, mtp);
    SoundMeans(q);
    InterruptKept(q, world, clock, e);
    if q.pending == [] && !q.terminal {
      StepOrFail(q, m, config, prefix, mtp, turns);
    }
  }

  /** A turn that has found the channel open. */
  method OpenTurn(q: Active, m: Model, config: EngineConfig, prefix: Cache, mtp: Option<MtpModel>, turns: nat,
      world: World, clock: nat)
    returns (clock': nat, keep: bool, dropped: bool)
    requires var e := Engine(m, config, mtp); e.Valid() && Waiting(q, e)
    requires 0 < config.prefillChunk && prefix.Valid() && prefix.Faithful(m, config.newState)
    modifies q`pending, q`log, q`terminal, q`history, q`generated, q`forced, q`logits, q`policy, q`prefetched, q`trail
    modifies q`interrupted, q`delivered, q`stalledSince, q.thinking, q.state, q.mtpState, prefix
    ensures Sound(q) && q.Kept(Engine(m, config, mtp))
    ensures prefix.Valid() && prefix.Faithful(m, config.newState) && clock < clock'
    ensures q.mtpState != null ==> fresh(q.mtpState.sequence) || q.mtpState.sequence == old(q.mtpState.sequence)
    ensures old(q.delivered) <= q.delivered
    ensures keep ==> Live(q) && !dropped
    ensures !keep && !dropped ==> q.terminal && q.pending == [] && q.delivered == q.log
    ensures Twice(q) ==> old(Twice(q)) || Overtaken(world, clock + 1)
    ensures SendEnds(q, world, clock', dropped) && (0 < |old(q.pending)| ==> clock + 3 <= clock')
    ensures Work(q) <= old(Work(q))
    ensures old(q.pending) == [] || world.send(clock + 2) == Sent ==> Work(q) < old(Work(q))
    ensures !world.Raised(clock) && old(q.pending) == [] && !old(q.terminal) ==>
              SteppedOnce(Engine(m, config, mtp), q.request, turns, old(q.Stand()), q.Stand())
    ensures world.Raised(clock) || old(q.pending) != [] ==>
              Since(old(q.View()), q.View()) && (world.Raised(clock) ==> q.interrupted)
  {
    hide Read, Promised, Stream, Active.Kept, Active.Valid, Overtaken, Engine.Valid, Cache.Faithful, Cache.Valid, Work,
        Advances, SendEnds, Since;
    ghost var start := q.View();
    InterruptOrStep(q, m, config, prefix, mtp, turns, world, clock);
    ghost var d := q.View();
    clock', dropped := SendKept(q, world, clock + 1, Engine(m, config, mtp));
    keep := !dropped && !(q.terminal && q.pending == []);
    assert Since(d, q.View());
    SinceTwice(start, d, q.View());
  }

  lemma SinceNothing(d: DecodeView)
    ensures Since(d, d)
  {
  }

  lemma SinceTwice(d: DecodeView, d1: DecodeView, d2: DecodeView)
    requires Since(d1, d2)
    ensures Since(d, d1) ==> Since(d, d2)
  {
  }

  /** One turn of the round robin.  `keep` says whether the request returns to the queue. */
  method Turn(q: Active, m: Model, config: EngineConfig, prefix: Cache, mtp: Option<MtpModel>, turns: nat, world: World,
      clock: nat)
    returns (clock': nat, keep: bool, dropped: bool)
    requires var e := Engine(m, config, mtp); e.Valid() && Waiting(q, e)
    requires 0 < config.prefillChunk && prefix.Valid() && prefix.Faithful(m, config.newState)
    modifies q`pending, q`log, q`terminal, q`history, q`generated, q`forced, q`logits, q`policy, q`prefetched, q`trail
    modifies q`interrupted, q`delivered, q`stalledSince, q`turns, q.thinking, q.state, q.mtpState, prefix
    ensures Sound(q) && q.Kept(Engine(m, config, mtp))
    ensures prefix.Valid() && prefix.Faithful(m, config.newState) && clock < clock'
    ensures q.mtpState != null ==> fresh(q.mtpState.sequence) || q.mtpState.sequence == old(q.mtpState.sequence)
    ensures old(q.delivered) <= q.delivered && q.turns == old(q.turns) + 1
    ensures keep ==> Live(q) && !dropped
    ensures !keep && !dropped ==> Done(q)
    ensures Twice(q) ==> old(Twice(q)) || Overtaken(world, clock + 2)
    ensures Work(q) <= old(Work(q)) && (dropped ==> Blocked(world, clock, clock'))
    ensures Served(old(q.pending), world, clock) ==> Work(q) < old(Work(q))
    ensures Blocked(world, clock, clock') || Served(old(q.pending), world, clock)
    ensures !Steps(world, clock, old(q.pending), old(q.terminal)) ==> Since(old(q.View()), q.View())
    ensures !world.closed(clock) && world.Raised(clock + 1) ==> q.interrupted
    ensures Steps(world, clock, old(q.pending), old(q.terminal)) ==>
              SteppedOnce(Engine(m, config, mtp), q.request, turns, old(q.Stand()), q.Stand())
  {
    hide Read, Promised, Stream, Active.Kept, Active.Valid, Overtaken, Engine.Valid, Cache.Faithful, Cache.Valid, Work,
        SendEnds, Since, Done, SteppedOnce;
    ghost var start := q.View();
    CountTurn(q, Engine(m, config, mtp));
    assert Since(start, q.View()) by { SinceNothing(start); }
    if world.closed(clock) {
      assert Blocked(world, clock, clock + 1);
      return clock + 1, false, true;
    }
    clock', keep, dropped := OpenTurn(q, m, config, prefix, mtp, turns, world, clock + 1);
    BlockedAt(q, world, clock, clock', dropped);
    if !keep && !dropped {
      DoneIs(q);
    }
  }

  lemma BlockedAt(q: Active, world: World, clock: nat, clock': nat, dropped: bool)
    requires 0 < clock' && SendEnds(q, world, clock', dropped) && clock < clock'
    ensures dropped ==> Blocked(world, clock, clock')
    ensures clock + 4 <= clock' && !Blocked(world, clock, clock') ==>
              !world.closed(clock) && world.send(clock + 3) == Sent
  {
    if dropped {
      assert world.send(clock' - 1) != Sent;
    }
  }

  /** `xs` is what remains of `ys` when some elements leave and the others keep their order. */
  ghost predicate Survivors<T>(xs: seq<T>, ys: seq<T>) {
    if |ys| == 0 then |xs| == 0
    else Survivors(xs, ys[..|ys| - 1]) ||
         (0 < |xs| && xs[|xs| - 1] == ys[|ys| - 1] && Survivors(xs[..|xs| - 1], ys[..|ys| - 1]))
  }

  /** Only a request on the plain text path that asks for it may use the prefix cache. */
  predicate MayResume(e: Engine, r: Request) {
    !UsesMtp(e.config, e.mtp, r) && r.cachePrefix && r.embeddings.None?
  }

  ghost predicate LongestMatch(entries: seq<Prefix>, prompt: seq<Network.Token>, saved: Prefix) {
    && saved in entries && Matches(saved, prompt)
    && forall e | e in entries && Matches(e, prompt) :: |e.tokens| <= |saved.tokens|
  }

  /** Where a new request starts: at a longest stored prefix of its prompt, if there is one and it may use
      the cache, and else from nothing. */
  ghost predicate Starts(e: Engine, entries: seq<Prefix>, r: Request, q: Active)
    reads q, q.state
  {
    && q.cached == q.prefetched && q.generated == 0 && !q.interrupted && q.delivered == []
    && if MayResume(e, r) && exists p :: p in entries && Matches(p, r.prompt) then
         exists saved :: LongestMatch(entries, r.prompt, saved) && q.prefetched == |saved.tokens| &&
             q.state.View() == saved.state && q.logits == saved.logits
       else q.prefetched == 0 && q.state.View() == e.config.newState
  }

  /** `Active::new` with its cache lookup. */
  method NewRequest(m: Model, config: EngineConfig, mtp: Option<MtpModel>, prefix: Cache, r: Request)
      returns (q: Active)
    requires Engine(m, config, mtp).Valid() && prefix.Valid() && prefix.Faithful(m, config.newState)
    requires 0 < r.maxNewTokens && 0 < |r.prompt| && (r.embeddings.Some? ==> |r.embeddings.value| == |r.prompt|)
    modifies prefix
    ensures prefix.Valid() && prefix.Faithful(m, config.newState)
    ensures Waiting(q, Engine(m, config, mtp)) && q.request == r && fresh(Mutable(q)) && fresh(q)
    ensures Starts(Engine(m, config, mtp), old(prefix.entries), r, q)
    ensures !q.terminal && q.pending == [] && q.log == []
  {
    hide Read, Promised, Active.Kept, Sound, Active.Valid, Engine.Valid, Fresh;
    var saved: Option<Prefix> := None;
    if !UsesMtp(config, mtp, r) && r.cachePrefix && r.embeddings.None? {
      saved := prefix.Lookup(r.prompt);
    }
    q := new Active(config, mtp, r, saved, Engine(m, config, mtp));
    NewLive(q);
  }

  /** Activation, and the deadline check of admission. */
  method Activate(m: Model, config: EngineConfig, mtp: Option<MtpModel>, prefix: Cache, r: Request, late: bool)
      returns (q: Active)
    requires Engine(m, config, mtp).Valid() && prefix.Valid() && prefix.Faithful(m, config.newState)
    requires 0 < r.maxNewTokens && 0 < |r.prompt| && (r.embeddings.Some? ==> |r.embeddings.value| == |r.prompt|)
    modifies prefix
    ensures prefix.Valid() && prefix.Faithful(m, config.newState)
    ensures Waiting(q, Engine(m, config, mtp)) && q.request == r && fresh(Mutable(q))
    ensures Starts(Engine(m, config, mtp), old(prefix.entries), r, q)
    ensures q.terminal == late
    ensures q.pending == if late then [Finished(Deadline, |r.prompt|, 0, q.cached)] else []
    ensures Work(q) <= 3 * (|r.prompt| + r.maxNewTokens) + 2
  {
    hide Read, Promised, Active.Kept, Sound, Active.Valid, Engine.Valid, Cache.Valid, Cache.Faithful;
    q := NewRequest(m, config, mtp, prefix, r);
    if late {
      FinishLate(q, Engine(m, config, mtp));
    }
  }

  lemma NewLive(q: Active)
    requires q.Valid() && Fresh(q.request, q.View()) && q.pending == [] == q.delivered && !q.interrupted
    requires 0 < q.request.maxNewTokens
    requires q.request.embeddings.Some? ==> |q.request.embeddings.value| == |q.request.prompt|
    ensures Live(q) && q.log == [] && !q.terminal && q.generated == 0
  {
    ReadNothing();
    assert [] + q.pending == q.pending;
  }

  method FinishLate(q: Active, ghost e: Engine)
    requires Live(q) && q.Kept(e) && q.log == [] && !q.terminal
    modifies q`pending, q`log, q`terminal
    ensures Live(q) && q.Kept(e) && q.terminal && q.delivered == old(q.delivered)
    ensures q.pending == [Finished(Deadline, |q.request.prompt|, q.generated, q.cached)]
  {
    hide Read, Promised;
    ghost var d := q.View();
    q.DoFinish(Deadline);
    ReadOne([], q.log[0]);
    ReadNothing();
    assert q.log == [] + [q.log[0]] == q.delivered + q.pending;
    SendingKeeps(e, q.request, q.prefetched, q.trail, d, q.Draft(), q.View());
  }

  /** A turn, and the objects the request owns after it. */
  method TurnOwned(q: Active, m: Model, config: EngineConfig, prefix: Cache, mtp: Option<MtpModel>, turns: nat,
      world: World, clock: nat)
    returns (clock': nat, keep: bool)
    requires var e := Engine(m, config, mtp); e.Valid() && Waiting(q, e)
    requires 0 < config.prefillChunk && prefix.Valid() && prefix.Faithful(m, config.newState)
    modifies Mutable(q), prefix
    ensures prefix.Valid() && prefix.Faithful(m, config.newState) && clock < clock'
    ensures fresh(Mutable(q) - old(Mutable(q))) && q.turns == old(q.turns) + 1
    ensures q.Kept(Engine(m, config, mtp)) && (keep ==> Waiting(q, Engine(m, config, mtp)))
    ensures Work(q) <= old(Work(q)) && (Work(q) < old(Work(q)) || Blocked(world, clock, clock'))
    ensures !keep ==> Done(q) || Blocked(world, clock, clock')
    ensures Steps(world, clock, old(q.pending), old(q.terminal)) ==>
              SteppedOnce(Engine(m, config, mtp), q.request, turns, old(q.Stand()), q.Stand())
  {
    hide Read, Promised, Stream, Active.Kept, Active.Valid, Sound, Work, Done, Blocked, Served, SteppedOnce, Since;
    var dropped;
    clock', keep, dropped := Turn(q, m, config, prefix, mtp, turns, world, clock);
  }

  class Worker {
    var active: seq<Active>
    var gauge: nat
    var clock: nat
    const model: Model
    const config: EngineConfig
    const prefix: Cache
    const mtp: Option<MtpModel>

    ghost function Shared(): Engine {
      Engine(model, config, mtp)
    }

    /** The worker between two of its operations: its own counters, its cache, and every request. */
    ghost predicate Runs(owned: set<object?>)
      reads this, prefix, owned
    {
      && gauge == |active| && Shared().Valid()
      && prefix.Valid() && prefix.Faithful(model, config.newState)
      && Fleet(active, owned, Shared()) && this !in owned && prefix !in owned && null in owned
    }

    constructor (model: Model, config: EngineConfig, prefix: Cache, mtp: Option<MtpModel>)
      requires Engine(model, config, mtp).Valid() && prefix.Valid() && prefix.entries == []
      ensures this.prefix == prefix && this.config == config && this.model == model && this.mtp == mtp
      ensures active == [] && Runs({null})
    {
      active, gauge, clock := [], 0, 0;
      this.model, this.config, this.prefix, this.mtp := model, config, prefix, mtp;
    }

    /** Admission: below the limit, possibly from a cached prefix, possibly already too late. */
    method Admit(r: Request, late: bool, ghost owned: set<object?>) returns (ghost owned': set<object?>)
      requires Runs(owned) && |active| < config.maxActive && 0 < r.maxNewTokens && 0 < |r.prompt|
      requires r.embeddings.Some? ==> |r.embeddings.value| == |r.prompt|
      modifies this`active, this`gauge, prefix
      ensures Runs(owned') && fresh(owned' - owned) && |active| <= config.maxActive
      ensures |active| == |old(active)| + 1 && active[..|active| - 1] == old(active) &&
              active[|active| - 1].request == r
      ensures var q := active[|active| - 1];
              && Starts(Shared(), old(prefix.entries), r, q) && q.terminal == late
              && q.pending == (if late then [Finished(Deadline, |r.prompt|, 0, q.cached)] else [])
              && Work(q) <= 3 * (|r.prompt| + r.maxNewTokens) + 2
    {
      hide Starts, Work, Waiting, Mutable, Engine.Valid, Cache.Valid, Cache.Faithful;
      var q := Activate(model, config, mtp, prefix, r, late);
      assert Fleet(active, owned, Shared());
      FleetBack(active, owned, q, Shared());
      owned' := owned + Mutable(q);
      active := active + [q];
      gauge := gauge + 1;
    }

    /** The front request goes to the back with what it owns now, or leaves. */
    method Requeue(keep: bool, clock': nat, ghost before: set<object?>, ghost owned: set<object?>)
      returns (ghost owned': set<object?>)
      requires 0 < |active| && gauge == |active| && Shared().Valid()
      requires prefix.Valid() && prefix.Faithful(model, config.newState)
      requires Fleet(active[1..], owned - before, Shared()) && null in owned - before
      requires this !in owned + Mutable(active[0]) && prefix !in owned + Mutable(active[0])
      requires Mutable(active[0]) !! owned - before && (keep ==> Waiting(active[0], Shared()))
      modifies this`active, this`gauge, this`clock
      ensures Runs(owned') && clock == clock'
      ensures owned' == owned - before + if keep then Mutable(old(active)[0]) else {}
      ensures active == old(active)[1..] + if keep then [old(active)[0]] else []
    {
      hide Waiting, Mutable, Engine.Valid, Cache.Faithful, Cache.Valid;
      var q, rest := active[0], active[1..];
      if keep {
        FleetBack(rest, owned - before, q, Shared());
        owned' := owned - before + Mutable(q);
        active := rest + [q];
      } else {
        owned' := owned - before;
        active := rest;
        gauge := gauge - 1;
      }
      clock := clock';
    }

    /** The front request takes its turn and goes to the back, or leaves; no other request is touched. */
    method FrontTurn(world: World, turns: nat, ghost owned: set<object?>) returns (ghost owned': set<object?>)
      requires Runs(owned) && 0 < |active| && 0 < config.prefillChunk
      modifies this`active, this`gauge, this`clock, prefix, Mutable(active[0])
      ensures Runs(owned') && fresh(owned' - owned) && old(clock) < clock &&
              old(active)[0].turns == old(active[0].turns) + 1
      ensures old(active)[0].Kept(Shared())
      ensures var q := old(active)[0];
              && Fared(q, old(Work(active[0])), world, old(clock), clock)
              && (q in active || Gone(q, Shared(), owned', world, old(clock), clock))
      ensures var q := old(active)[0];
              Steps(world, old(clock), old(active[0].pending), old(active[0].terminal)) ==>
                SteppedOnce(Shared(), q.request, turns, old(active[0].Stand()), q.Stand())
      ensures active == old(active)[1..] || active == old(active)[1..] + [old(active)[0]]
    {
      hide Waiting, Mutable, Active.Kept, Engine.Valid, Cache.Faithful, Cache.Valid, Work, Done, Blocked, SteppedOnce,
          Answered;
      var q := active[0];
      ghost var e, before := Shared(), Mutable(q);
      FleetFront(active, owned, e);
      var clock', keep := TurnOwned(q, model, config, prefix, mtp, turns, world, clock);
      KeptAnswers(q, e);
      owned' := Requeue(keep, clock', before, owned);
    }

    lemma RunsFront(owned: set<object?>)
      requires Runs(owned) && 0 < |active|
      ensures Mutable(active[0]) <= owned
    {
    }

    /** The front turn, seen from all requests of a pass. */
    method TurnAmong(world: World, turns: nat, ghost owned: set<object?>, ghost all: seq<Active>, ghost i: nat)
      returns (ghost owned': set<object?>)
      requires Runs(owned) && 0 < |active| && 0 < config.prefillChunk && i < |all| && active[0] == all[i]
      requires forall j, k | 0 <= j < k < |all| :: all[j] != all[k]
      modifies this`active, this`gauge, this`clock, prefix, Mutable(active[0])
      ensures Runs(owned') && fresh(owned' - owned) && old(clock) < clock
      ensures active == old(active)[1..] || active == old(active)[1..] + [all[i]]
      ensures forall j | 0 <= j < |all| :: all[j].turns == old(all[j].turns) + if j == i then 1 else 0
      ensures Fared(all[i], old(Work(all[i])), world, old(clock), clock)
      ensures all[i] in active || Gone(all[i], Shared(), owned', world, old(clock), clock)
      ensures forall j | 0 <= j < |all| && j != i ::
                && Work(all[j]) == old(Work(all[j])) && Done(all[j]) == old(Done(all[j]))
                && Answered(all[j], Shared()) == old(Answered(all[j], Shared()))
    {
      hide Runs, Mutable, Fared, Gone, Blocked, Work, Done, Answered;
      OnlyItself(all[i]);
      owned' := FrontTurn(world, turns, owned);
    }

    /** One pass of the round robin: every request queued at its start gets exactly one turn; those that
        remain keep their order, the gauge is the queue length, and no request appears from nowhere.  While
        the channels take events, every request gets on, and only one that is done leaves. */
    method Pass(world: World, ghost owned: set<object?>) returns (ghost owned': set<object?>)
      requires Runs(owned) && 0 < config.prefillChunk
      modifies this`active, this`gauge, this`clock, prefix, owned
      ensures Runs(owned') && fresh(owned' - owned) && |active| <= |old(active)| && old(clock) <= clock
      ensures forall q | q in old(active) :: q.turns == old(q.turns) + 1
      ensures forall q | q in old(active) :: Fared(q, old(Work(q)), world, old(clock), clock)
      ensures forall q | q in old(active) :: q in active || Gone(q, Shared(), owned', world, old(clock), clock)
      ensures Survivors(active, old(active))
    {
      hide Runs, Mutable, Survivors, Blocked, Work, Done, Answered;
      owned' := owned;
      ghost var all, start := active, clock;
      var turns := |active|;
      ghost var kept: seq<Active> := [];
      RunsDistinct(owned);
      assert kept == all[..0] && all[0..] + kept == all && Survivors(kept, all[..0]) by { NoSurvivors(all[..0]); }
      for i := 0 to turns
        invariant turns == |all| && Runs(owned') && fresh(owned' - owned) && start <= clock
        invariant active == all[i..] + kept && Survivors(kept, all[..i]) && |kept| <= i
        invariant forall j | 0 <= j < |all| :: all[j].turns == old(all[j].turns) + if j < i then 1 else 0
        invariant forall j | i <= j < |all| :: Work(all[j]) == old(Work(all[j]))
        invariant forall j | 0 <= j < i :: Fared(all[j], old(Work(all[j])), world, start, clock)
        invariant forall j | 0 <= j < i :: all[j] in kept || Gone(all[j], Shared(), owned', world, start, clock)
      {
        ghost var from := clock;
        RunsFront(owned');
        QueueFront(all, i, kept);
        owned' := TurnAmong(world, turns, owned', all, i);
        ghost var stays := active != all[i + 1..] + kept;
        BlockedWider(world, start, from, start, clock);
        BlockedWider(world, from, clock, start, clock);
        SurvivorsGrow(kept, all, i, stays);
        QueueBack(all, i, kept);
        kept := if stays then kept + [all[i]] else kept;
      }
      assert all[turns..] + kept == kept && all[..turns] == all;
    }

    /** The worker's loop while no new job arrives: pass after pass.  If every channel takes every event,
        each request gets on in every pass; and once there have been as many passes as any request had
        left to do, the queue is empty and every client has received all events of its request. */
    method Serve(world: World, passes: nat, ghost owned: set<object?>) returns (ghost owned': set<object?>)
      requires Runs(owned) && 0 < config.prefillChunk
      modifies this`active, this`gauge, this`clock, prefix, owned
      ensures Runs(owned') && fresh(owned' - owned)
      ensures forall q | q in active :: q in old(active)
      ensures forall q | q in old(active) :: q in active || Gone(q, Shared(), owned', world, old(clock), clock)
      ensures !Blocked(world, old(clock), clock) ==>
                forall q | q in old(active) :: Done(q) || Work(q) + passes <= old(Work(q))
      ensures !Blocked(world, old(clock), clock) && (forall q | q in old(active) :: old(Work(q)) <= passes) ==>
                active == [] && forall q | q in old(active) :: Done(q) && Answered(q, Shared())
    {
      hide Runs, Survivors, Blocked, Work, Done, Answered;
      owned' := owned;
      ghost var all, start := active, clock;
      for i := 0 to passes
        invariant Runs(owned') && fresh(owned' - owned) && start <= clock
        invariant forall q | q in active :: q in all
        invariant forall q | q in all :: Awaits(q, Shared(), old(Work(q)) - i, active, owned', world, start, clock)
      {
        ghost var from, before, held := clock, active, owned';
        label Before:
        owned' := Pass(world, owned');
        SurvivorsWithin(active, before);
        BlockedWider(world, start, from, start, clock);
        BlockedWider(world, from, clock, start, clock);
        forall q | q in all ensures Awaits(q, Shared(), old(Work(q)) - (i + 1), active, owned', world, start, clock) {
          if q in before {
            assert Fared(q, old@Before(Work(q)), world, from, clock);
          }
        }
      }
      RunsLive(owned');
      forall q | q in active ensures 0 < Work(q) {
        WorkRemains(q);
      }
      assert active != [] ==> active[0] in active;
    }

    lemma RunsLive(owned: set<object?>)
      requires Runs(owned)
      ensures forall q | q in active :: Live(q) && q in owned
    {
      FleetLive(active, owned, Shared());
      FleetDistinct(active, owned, Shared());
    }

    lemma RunsDistinct(owned: set<object?>)
      requires Runs(owned)
      ensures forall i, j | 0 <= i < j < |active| :: active[i] != active[j]
    {
      FleetDistinct(active, owned, Shared());
    }
  }

  /** The queue within a pass: those still to be served, then those kept. */
  lemma QueueFront<T>(all: seq<T>, i: nat, kept: seq<T>)
    requires i < |all|
    ensures (all[i..] + kept)[0] == all[i] && (all[i..] + kept)[1..] == all[i + 1..] + kept
  {
  }

  lemma QueueBack<T>(all: seq<T>, i: nat, kept: seq<T>)
    requires i < |all|
    ensures (all[i + 1..] + kept) + [all[i]] == all[i + 1..] + (kept + [all[i]])
  {
  }

  lemma NoSurvivors<T>(ys: seq<T>)
    requires ys == []
    ensures Survivors([], ys)
  {
  }

  lemma {:induction false} SurvivorsWithin<T>(xs: seq<T>, ys: seq<T>)
    requires Survivors(xs, ys)
    ensures forall x | x in xs :: x in ys
    decreases |ys|
  {
    if 0 < |ys| {
      var front := ys[..|ys| - 1];
      if Survivors(xs, front) {
        SurvivorsWithin(xs, front);
      } else {
        SurvivorsWithin(xs[..|xs| - 1], front);
        assert xs == xs[..|xs| - 1] + [ys[|ys| - 1]];
      }
    }
  }

  lemma SurvivorsGrow<T>(kept: seq<T>, all: seq<T>, i: nat, stays: bool)
    requires i < |all| && Survivors(kept, all[..i])
    ensures Survivors(if stays then kept + [all[i]] else kept, all[..i + 1])
  {
    var ys := all[..i + 1];
    assert ys[..i] == all[..i] && (kept + [all[i]])[..|kept|] == kept;
  }

  /** Among requests, a request owns only itself. */
  lemma OnlyItself(q: Active)
    ensures forall p: Active :: p in Mutable(q) ==> p == q
  {
  }

  lemma {:induction false} FleetDistinct(active: seq<Active>, owned: set<object?>, e: Engine)
    requires Fleet(active, owned, e)
    ensures forall i | 0 <= i < |active| :: active[i] in owned
    ensures forall i, j | 0 <= i < j < |active| :: active[i] != active[j]
    decreases |active|
  {
    hide Waiting;
    if 0 < |active| {
      FleetDistinct(active[1..], owned - Mutable(active[0]), e);
      assert forall i | 0 < i < |active| :: active[i] == active[1..][i - 1];
    }
  }

  lemma {:induction false} FleetLive(active: seq<Active>, owned: set<object?>, e: Engine)
    requires Fleet(active, owned, e)
    ensures forall q | q in active :: Live(q)
    decreases |active|
  {
    hide Live, Active.Kept;
    if 0 < |active| {
      FleetLive(active[1..], owned - Mutable(active[0]), e);
      forall q | q in active ensures Live(q) {
        assert q == active[0] || q in active[1..];
      }
    }
  }

  /** Requests own their state: each sits inside `owned`, and no two share an object. */
  ghost predicate Fleet(active: seq<Active>, owned: set<object?>, e: Engine)
    reads owned
    decreases |active|
  {
    |active| == 0 ||
    (var q := active[0];
     q in owned && q.thinking in owned && q.mtpState in owned && q.Repr() <= owned && Waiting(q, e) &&
     Fleet(active[1..], owned - Mutable(q), e))
  }

  /** The objects of a request, the absent ones left out. */
  ghost function Mutable(q: Active): set<object?>
    reads q, q.mtpState
  {
    q.Repr() - {null}
  }

  lemma FleetFront(active: seq<Active>, owned: set<object?>, e: Engine)
    requires Fleet(active, owned, e) && 0 < |active|
    ensures Waiting(active[0], e) && Mutable(active[0]) <= owned && null !in Mutable(active[0])
    ensures Fleet(active[1..], owned - Mutable(active[0]), e)
  {
    hide Waiting;
  }

  lemma {:induction false} FleetBack(active: seq<Active>, owned: set<object?>, q: Active, e: Engine)
    requires Fleet(active, owned, e) && Waiting(q, e) && Mutable(q) !! owned && null in owned
    ensures Fleet(active + [q], owned + Mutable(q), e)
    decreases |active|
  {
    hide Waiting;
    var all := owned + Mutable(q);
    if |active| == 0 {
      assert active + [q] == [q] && [q][1..] == [];
    } else {
      var front := active[0];
      assert (active + [q])[0] == front && (active + [q])[1..] == active[1..] + [q];
      FleetBack(active[1..], owned - Mutable(front), q, e);
      assert all - Mutable(front) == (owned - Mutable(front)) + Mutable(q);
    }
  }

  /** What two clients receive for the same text request, one served where it decodes speculatively and one
      where it decodes plainly, whatever the other requests, the chunk sizes, the cache and the environment:
      once both have completed by themselves, the same tokens and the same reason. */
  lemma ClientsAgree(e: Engine, e': Engine, q: Active, q': Active)
    returns (tokens: seq<Network.Token>, reason: Reason)
    requires e.Valid() && e'.model == e.model && e'.config.newState == e.config.newState
    requires q.request == q'.request && 0 < q.request.maxNewTokens
    requires UsesMtp(e.config, e.mtp, q.request) && !UsesMtp(e'.config, e'.mtp, q.request)
    requires Done(q) && Answered(q, e) && EndsByItself(q.log)
    requires Done(q') && Answered(q', e') && EndsByItself(q'.log)
    ensures 0 < |q.trail| && q.delivered == TextLog(q.request, tokens, reason, q.trail[0].cached)
    ensures 0 < |q'.trail| && q'.delivered == TextLog(q.request, tokens, reason, q'.trail[0].cached)
  {
    hide PrefilledAt, Run, Equivalence.SpeculativeRun, PlainTrail, PlainStep, Read;
    tokens, reason := SpeculativeTrailEnds(e, q.request, q.trail, q'.trail[0]);
    PlainTrailFollows(e.model, q.request, q'.trail, q.request.maxNewTokens);
  }
}
