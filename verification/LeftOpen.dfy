/** The other half of thinking closure: from overlapping markers, a request that `submit` accepts and
    a run of it that ends by Length inside thinking; and so the exact condition on the markers. */
module LeftOpen {
  import opened Wrappers
  import opened Network
  import opened Forward
  import opened Thinking
  import opened Decode
  import opened Overlap
  import Closure
  import Fold
  import PrefixCache

  // ---------------------------------------------------------------- the request

  /** What is to be published: `before`, then the end marker, then `after`. */
  datatype Plan = Plan(before: seq<Token>, after: seq<Token>, start: seq<Token>, end: seq<Token>) {
    function Text(): seq<Token> {
      before + end + after
    }

    function Spec(): ThinkingSpec {
      ThinkingSpec(true, true, Some(|before|), start, end, true)
    }

    /** Every token of the plan and of the markers lies in the vocabulary. */
    function Vocab(): (r: nat)
      ensures forall t | t in Text() + start + end :: t < r
    {
      Above(Text() + start + end)
    }

    function Job(): Decode.Request {
      Decode.Request([0], None, |Text()|, Sampling(1.0, 1.0, (logits, history) => Planned(history)), false,
          Some(Spec()))
    }

    function Planned(history: seq<Token>): Option<Token> {
      if 0 < |history| <= |Text()| then Some(Text()[|history| - 1]) else None
    }

    /** A network without layers. */
    function Net(): Network.Model {
      Network.Model(0, t => [], [], x => Some([]), x => Some(Zeros(Vocab() + 1)), Vocab() + 1, 0, |Text()| + 2, {})
    }

    function State(n: nat): StateView {
      StateView(0, [], n + 1, n + 1, [], |Text()| + 1)
    }

    /** The plan is meant to end inside thinking. */
    ghost predicate Works() {
      && 0 < |start| && 0 < |end|
      && (forall k | 0 < k <= |before| :: !EndsWith(before[..k], end))
      && start[0] !in after
      && (forall k | |before| + |end| <= k < |Text()| :: !Open(Spec(), Text()[..k]))
      && Open(Spec(), Text())
    }
  }

  function Zeros(n: nat): (r: Row)
    ensures |r| == n
  {
    seq(n, i => 0.0)
  }

  function Above(tokens: seq<Token>): (r: nat)
    ensures forall t | t in tokens :: t < r
  {
    if |tokens| == 0 then 0
    else
      var rest := Above(tokens[1..]);
      assert tokens == [tokens[0]] + tokens[1..];
      if tokens[0] < rest then rest else tokens[0] + 1
  }

  lemma ForwardsOne(p: Plan, v: StateView, t: Token)
    requires v.owner == 0 && v.layers == [] && v.len < v.maxContext && v.nextPosition < |p.Text()| + 2 && t <= p.Vocab()
    ensures ForwardTokens(p.Net(), v, [t], false) ==
            Some((v.(len := v.len + 1, nextPosition := v.nextPosition + 1, lastHidden := []),
                  Output([Zeros(p.Vocab() + 1)], [[]])))
  {
    hide Plan.Text, Plan.Vocab, HiddenRows, Fold.MapRows, NextPosition, Zeros;
    var m, here := p.Net(), Pos(v.nextPosition, v.nextPosition, v.nextPosition);
    assert Embed(m, [t]) == [[]] && TextPositions(v.nextPosition, 1) == [here];
    assert Inputs([[]], [here]) == [Input([], here)];
    OneRow(m, Input([], here));
    OneHead(m, Zeros(p.Vocab() + 1));
    OnePosition(v.nextPosition, here);
    assert v.(layers := []) == v;
  }

  lemma OnePosition(prior: nat, here: Pos)
    requires here == Pos(prior, prior, prior)
    ensures NextPosition(prior, [here]) == prior + 1
  {
    assert [here][..0] == [];
  }

  lemma OneHead(m: Network.Model, logits: Row)
    requires m.head([]) == Some(logits)
    ensures Fold.MapRows(m.head, [[]]) == Some([logits])
  {
    var rows: seq<Row> := [[]];
    assert rows[..0] == [] && Fold.MapRows(m.head, rows[..0]) == Some([]);
    assert Fold.MapRows(m.head, rows) == Some([] + [logits]);
    assert [] + [logits] == [logits];
  }

  lemma OneRow(m: Network.Model, x: Input)
    requires m.blocks == [] && x.row == [] && m.norm([]) == Some([])
    ensures HiddenRows(m, [], [x]) == Some(([], [[]]))
  {
    var row: Row := [];
    assert [row][..0] == [] && [] + [x] == [x];
    Fold.Snoc(StackStep(m.blocks), [], [], x);
  }

  // ---------------------------------------------------------------- the run

  /** Decoding after `n` tokens of the plan. */
  ghost predicate At(p: Plan, d: DecodeView, n: nat)
    requires n <= |p.Text()|
  {
    && d.state == p.State(n) && d.logits == Zeros(p.Vocab() + 1) && d.history == [0] + p.Text()[..n]
    && d.generated == n && d.terminal == (n == |p.Text()|) && d.thinking.Some?
    && Tracks(p.Spec(), d.thinking.value, p.Text()[..n])
    && Waits(p, d.thinking.value, d.forced, n)
  }

  /** Before the end marker is queued, and what is queued afterwards. */
  ghost predicate Waits(p: Plan, c: ControllerView, forced: seq<Token>, n: nat) {
    var b := |p.before|;
    if n < b || n == 0 then forced == [] && !c.forced && c.used == n && c.inThinking
    else if n <= b + |p.end| then forced == p.end[n - b..]
    else forced == []
  }

  /** A token that settles: forwarded, observed and published. */
  lemma Settles(p: Plan, q: DecodeView, n: nat, t: Token, wasForced: bool)
    requires n < |p.Text()| && q.state == p.State(n) && t == p.Text()[n] && q.history == [0] + p.Text()[..n]
    requires q.generated == n && !q.terminal && q.thinking.Some? && Tracks(p.Spec(), q.thinking.value, p.Text()[..n])
    requires var (c', forced') := Closure.After(p.Spec(), q.thinking.value, q.forced, t, wasForced);
             Waits(p, c', forced', n + 1)
    ensures Settle(p.Net(), p.Job(), q, t, wasForced).Some?
    ensures At(p, Settle(p.Net(), p.Job(), q, t, wasForced).value, n + 1)
  {
    hide Plan.Text, Plan.Vocab, Plan.Net, Plan.Job, Zeros, ForwardTokens, Tracks, Waits, Settle, Closure.After;
    InVocab(p, n);
    JobIs(p);
    ForwardsOne(p, q.state, t);
    SettledView(p.Net(), p.Job(), q, t, wasForced, p.State(n + 1), Zeros(p.Vocab() + 1));
    TextNext(p.Text(), n);
    AfterTracks(p.Spec(), q.thinking.value, q.forced, p.Text()[..n], t, wasForced);
  }

  lemma TextNext(text: seq<Token>, n: nat)
    requires n < |text|
    ensures text[..n] + [text[n]] == text[..n + 1] && ([0] + text[..n]) + [text[n]] == [0] + text[..n + 1]
  {
  }

  lemma AfterTracks(spec: ThinkingSpec, c: ControllerView, queue: seq<Token>, tokens: seq<Token>, t: Token,
      wasForced: bool)
    requires spec.Active() && Tracks(spec, c, tokens)
    ensures Tracks(spec, Closure.After(spec, c, queue, t, wasForced).0, tokens + [t])
  {
    hide Tracks, Observed;
    Closure.TracksNext(spec, c, tokens, t);
  }

  /** The fields of the view after a token that is not EOS. */
  lemma SettledView(m: Network.Model, r: Request, q: DecodeView, t: Token, wasForced: bool, state: StateView,
      logits: Row)
    requires t !in m.eos && r.thinking.Some? && q.thinking.Some? && !q.terminal
    requires ForwardTokens(m, q.state, [t], false).Some?
    requires ForwardTokens(m, q.state, [t], false).value.0 == state
    requires ForwardTokens(m, q.state, [t], false).value.1.logits == [logits]
    ensures Settle(m, r, q, t, wasForced).Some?
    ensures var d := Settle(m, r, q, t, wasForced).value;
            && d.state == state && d.logits == logits && d.history == q.history + [t] && d.generated == q.generated + 1
            && d.terminal == (q.generated + 1 == r.maxNewTokens) && d.thinking.Some?
            && (d.thinking.value, d.forced) == Closure.After(r.thinking.value, q.thinking.value, q.forced, t, wasForced)
  {
    hide ForwardTokens, Observed;
  }

  lemma JobIs(p: Plan)
    ensures p.Net().eos == {} && p.Job().thinking == Some(p.Spec()) && p.Job().maxNewTokens == |p.Text()|
  {
  }

  lemma InVocab(p: Plan, n: nat)
    requires n < |p.Text()|
    ensures p.Text()[n] < p.Vocab()
  {
    var all := p.Text() + p.start + p.end;
    assert all[n] == p.Text()[n] && all[n] in all;
  }

  /** Tokens drawn inside the section, up to its budget. */
  lemma DrawsBefore(p: Plan, d: DecodeView, n: nat)
    requires p.Works() && n < |p.before| && At(p, d, n)
    ensures PlainStep(p.Net(), p.Job(), d).Some? && At(p, PlainStep(p.Net(), p.Job(), d).value, n + 1)
  {
    hide Plan.Vocab, Plan.Text, Zeros, Settle, Tracks, QueueClose, EndsWith, Plan.Works, Plan.Planned, PlainStep;
    BeforeClean(p, n);
    var t := p.Text()[n];
    QueuesNothing(p, d, n);
    Draws(p, d, n);
    DrawnInside(p, d, n);
    PlainDraws(p.Net(), p.Job(), d, t);
    Settles(p, d, n, t, false);
  }

  /** Inside the section, and the queue after the token. */
  lemma DrawnInside(p: Plan, d: DecodeView, n: nat)
    requires n < |p.before| && n < |p.Text()| && At(p, d, n)
    requires p.Text()[..n] + [p.Text()[n]] == p.Text()[..n + 1] && !EndsWith(p.Text()[..n + 1], p.end)
    ensures d.thinking.value.inThinking
    ensures var (c', forced') := Closure.After(p.Spec(), d.thinking.value, d.forced, p.Text()[n], false);
            Waits(p, c', forced', n + 1)
  {
    hide Plan.Vocab, Plan.Text, Zeros, Observed, EndsWith, Tracks;
    var spec, text, c, t := p.Spec(), p.Text(), d.thinking.value, p.Text()[n];
    Closure.TracksNext(spec, c, text[..n], t);
    Closure.ObservedInside(spec, c, text[..n], t);
    assert p.end[0..] == p.end;
  }

  /** A step with nothing queued that neither refuses the token nor replaces it. */
  lemma PlainDraws(m: Network.Model, r: Request, d: DecodeView, t: Token)
    requires d.generated <= r.maxNewTokens && QueueClose(r, d, r.maxNewTokens - d.generated) == d && |d.forced| == 0
    requires r.sampling.Sample(d.logits, d.history) == Some(t)
    requires !StartsTooLate(r, d, t, r.maxNewTokens - d.generated) && !ClosesOnEos(m, r, d, t)
    ensures PlainStep(m, r, d) == Settle(m, r, d, t, false)
  {
    hide QueueClose, Settle;
  }

  lemma BeforeClean(p: Plan, n: nat)
    requires p.Works() && n < |p.before|
    ensures n + |p.end| < |p.Text()| && p.Text()[..n] + [p.Text()[n]] == p.Text()[..n + 1]
    ensures !EndsWith(p.Text()[..n + 1], p.end)
  {
    hide EndsWith, Open;
    assert p.Text()[..n + 1] == p.before[..n + 1];
  }

  lemma QueuesNothing(p: Plan, d: DecodeView, n: nat)
    requires n < |p.before| && n + |p.end| < |p.Text()| && At(p, d, n)
    ensures QueueClose(p.Job(), d, |p.Text()| - n) == d
  {
    hide Plan.Vocab, Plan.Text, Zeros, Tracks;
  }

  /** The next token of the plan is what the sampler returns. */
  lemma Draws(p: Plan, d: DecodeView, n: nat)
    requires n < |p.Text()| && At(p, d, n)
    ensures p.Job().sampling.Sample(d.logits, d.history) == Some(p.Text()[n])
  {
    hide Plan.Vocab, Plan.Text, Tracks, Waits;
  }

  /** The end marker, queued or about to be. */
  lemma Sends(p: Plan, d: DecodeView, n: nat)
    requires p.Works() && |p.before| <= n < |p.before| + |p.end| && At(p, d, n)
    ensures PlainStep(p.Net(), p.Job(), d).Some? && At(p, PlainStep(p.Net(), p.Job(), d).value, n + 1)
  {
    hide Plan.Vocab, Zeros, Settle, Observed, Tracks, Open, EndsWith;
    var q := QueueClose(p.Job(), d, |p.Text()| - n);
    assert p.end[0..] == p.end;
    assert q.forced == p.end[n - |p.before|..];
    assert Tracks(p.Spec(), q.thinking.value, p.Text()[..n]) by {
      Retracks(p.Spec(), d.thinking.value, q.thinking.value, p.Text()[..n]);
    }
    assert p.end[n - |p.before|..][1..] == p.end[n + 1 - |p.before|..];
    Settles(p, q.(forced := q.forced[1..]), n, q.forced[0], true);
  }

  lemma Retracks(spec: ThinkingSpec, c: ControllerView, c': ControllerView, tokens: seq<Token>)
    requires Tracks(spec, c, tokens) && c' == c.(forced := c'.forced)
    ensures Tracks(spec, c', tokens)
  {
  }

  /** Tokens drawn outside thinking, none of them the first of a start marker. */
  lemma DrawsAfter(p: Plan, d: DecodeView, n: nat)
    requires p.Works() && |p.before| + |p.end| <= n < |p.Text()| && At(p, d, n)
    ensures PlainStep(p.Net(), p.Job(), d).Some? && At(p, PlainStep(p.Net(), p.Job(), d).value, n + 1)
  {
    hide Plan.Vocab, Zeros, Settle, Open, EndsWith, Plan.Planned, PlainStep;
    var t := p.Text()[n];
    assert t == p.after[n - |p.before| - |p.end|];
    Draws(p, d, n);
    PlainDraws(p.Net(), p.Job(), d, t);
    Settles(p, d, n, t, false);
  }

  /** The run publishes the plan. */
  lemma {:induction false} RunsPlan(p: Plan, d: DecodeView, n: nat)
    requires p.Works() && At(p, d, 0) && n <= |p.Text()|
    ensures Run(p.Net(), p.Job(), d, n).Some? && At(p, Run(p.Net(), p.Job(), d, n).value, n)
    decreases n
  {
    hide PlainStep, Waits, Tracks, Plan.Works, Plan.Text;
    if 0 < n {
      RunsPlan(p, d, n - 1);
      var before := Run(p.Net(), p.Job(), d, n - 1).value;
      if n - 1 < |p.before| {
        DrawsBefore(p, before, n - 1);
      } else if n - 1 < |p.before| + |p.end| {
        Sends(p, before, n - 1);
      } else {
        DrawsAfter(p, before, n - 1);
      }
    }
  }

  // ---------------------------------------------------------------- requests that end open

  /** An accepted text request with a budget, prefilled from an empty state, that ends inside thinking
      after `n` steps. */
  ghost predicate EndsOpen(m: Network.Model, empty: StateView, r: Request, d: DecodeView, n: nat) {
    && m.Valid() && Accepted(m, empty.maxContext, r) && r.Budgeted() && r.embeddings.None? && empty.len == 0
    && Fresh(r, d) && PrefixCache.PrefilledAt(m, empty, r.prompt, d.state, d.logits)
    && Run(m, r, d, n).Some?
    && var end := Run(m, r, d, n).value;
      end.terminal && |r.prompt| <= |end.history| && Open(r.thinking.value, Published(r, end))
  }

  predicate HasMarkers(r: Request, start: seq<Token>, end: seq<Token>) {
    r.thinking.Some? && r.thinking.value.startTokens == start && r.thinking.value.endTokens == end
  }

  ghost predicate AlwaysCloses(start: seq<Token>, end: seq<Token>) {
    forall m, empty, r, d, n | HasMarkers(r, start, end) :: !EndsOpen(m, empty, r, d, n)
  }

  function EmptyState(p: Plan): StateView {
    StateView(0, [], 0, 0, [], |p.Text()| + 1)
  }

  function FirstView(p: Plan): DecodeView {
    DecodeView(p.State(0), Zeros(p.Vocab() + 1), [0], Some(Initial(p.Spec())), [], 0, 0, [], false)
  }

  lemma WorkingPlanEndsOpen(p: Plan)
    requires p.Works()
    ensures EndsOpen(p.Net(), EmptyState(p), p.Job(), FirstView(p), |p.Text()|)
  {
    hide Run, Plan.Vocab, Plan.Works, Zeros, Accepted, ForwardTokens, At, Plan.Text;
    var m, r, d := p.Net(), p.Job(), FirstView(p);
    ForwardsOne(p, EmptyState(p), 0);
    FirstAt(p);
    RunsPlan(p, d, |p.Text()|);
    PlanAccepted(p);
    LastAt(p, Run(m, r, d, |p.Text()|).value);
  }

  lemma FirstAt(p: Plan)
    requires p.Works()
    ensures At(p, FirstView(p), 0)
  {
    hide Plan.Vocab, Zeros;
    assert p.Text()[..0] == [];
  }

  lemma LastAt(p: Plan, d: DecodeView)
    requires p.Works() && At(p, d, |p.Text()|)
    ensures d.terminal && |d.history| == 1 + |p.Text()| && Published(p.Job(), d) == p.Text() && Open(p.Spec(), p.Text())
  {
    hide Plan.Vocab, Zeros;
    assert p.Text()[..|p.Text()|] == p.Text();
  }

  lemma PlanAccepted(p: Plan)
    requires p.Works()
    ensures p.Net().Valid() && Accepted(p.Net(), |p.Text()| + 1, p.Job())
  {
    forall t | t in p.start + p.end ensures t < p.Vocab() {
      var all := p.Text() + p.start + p.end;
      assert t in all;
    }
  }

  // ---------------------------------------------------------------- a plan for every overlap

  /** The first token of the start marker occurs nowhere else in it, or the end marker ends in it at
      most once. */
  predicate Plain(spec: ThinkingSpec)
    requires 0 < |spec.startTokens|
  {
    || Unchecked(spec.startTokens, 1)
    || forall a, b | 0 < a < b <= |spec.startTokens| ::
         !(EndsWith(spec.startTokens[..a], spec.endTokens) && EndsWith(spec.startTokens[..b], spec.endTokens))
  }

  lemma {:induction false} OpenSame(spec: ThinkingSpec, spec': ThinkingSpec, tokens: seq<Token>)
    requires spec' == spec.(budget := spec'.budget, supported := spec'.supported, enabled := spec'.enabled)
    ensures Open(spec, tokens) == Open(spec', tokens)
    decreases |tokens|
  {
    if 0 < |tokens| {
      OpenSame(spec, spec', tokens[..|tokens| - 1]);
    }
  }

  /** No end marker ends within these tokens. */
  ghost predicate Clean(tokens: seq<Token>, end: seq<Token>) {
    forall k | 0 < k <= |tokens| :: !EndsWith(tokens[..k], end)
  }

  /** The shortest continuation that completes a marker. */
  lemma {:induction false} Completes(tokens: seq<Token>, rest: seq<Token>, marker: seq<Token>) returns (n: nat)
    requires 0 < |rest| && EndsWith(tokens + rest, marker)
    ensures 0 < n <= |rest| && EndsWith(tokens + rest[..n], marker)
    ensures forall k | 0 < k < n :: !EndsWith(tokens + rest[..k], marker)
  {
    n := 1;
    assert rest[..|rest|] == rest;
    while n < |rest| && !EndsWith(tokens + rest[..n], marker)
      invariant 0 < n <= |rest|
      invariant forall k | 0 < k < n :: !EndsWith(tokens + rest[..k], marker)
    {
      n := n + 1;
    }
  }

  /** A start marker begun by the end of `before + end`, whose rest is not checked. */
  lemma PlanFor(before: seq<Token>, start: seq<Token>, end: seq<Token>, j: nat) returns (p: Plan)
    requires 0 < |end| && Clean(before, end) && 0 < j < |start| && Unchecked(start, j)
    requires EndsWith(before + end, start[..j])
    ensures p.Works() && p.start == start && p.end == end
  {
    hide Open, EndsWith;
    var text, rest := before + end, start[j..];
    p := Plan(before, [], start, end);
    if Open(p.Spec(), text) {
      assert p.Text()[..|p.Text()|] == p.Text() == text;
    } else {
      RestCompletes(text, start, j);
      var n := Completes(text, rest, start);
      var spec := p.Spec();
      p := Plan(before, rest[..n], start, end);
      forall k | 0 < k < n ensures !EndsWith(text + rest[..n][..k], start) {
        assert rest[..n][..k] == rest[..k];
      }
      ClosedThenOpen(spec, text, rest[..n]);
      assert p.Text() == text + rest[..n];
    }
  }

  lemma RestCompletes(text: seq<Token>, start: seq<Token>, j: nat)
    requires j < |start| && EndsWith(text, start[..j])
    ensures EndsWith(text + start[j..], start)
  {
    var all := text + start[j..];
    assert start == start[..j] + start[j..];
    assert all[|all| - |start|..] == text[|text| - j..] + start[j..];
  }

  lemma ClosedThenOpen(spec: ThinkingSpec, text: seq<Token>, rest: seq<Token>)
    requires !Open(spec, text) && 0 < |rest| && EndsWith(text + rest, spec.startTokens)
    requires forall k | 0 < k < |rest| :: !EndsWith(text + rest[..k], spec.startTokens)
    ensures forall k | |text| <= k < |text + rest| :: !Open(spec, (text + rest)[..k])
    ensures Open(spec, text + rest)
  {
    hide Open, EndsWith;
    var all := text + rest;
    assert all[..|text|] == text && all[..|all|] == all;
    forall k | |text| < k < |all| ensures !EndsWith(all[..k], spec.startTokens) {
      assert all[..k] == text + rest[..k - |text|];
    }
    StaysClosed(spec, all, |text|, |all| - 1);
    OpenNext(spec, all, |all|);
  }

  /** Where the end marker first ends in the start marker. */
  lemma FirstEnd(start: seq<Token>, end: seq<Token>, j: nat) returns (i: nat)
    requires 0 < j <= |start| && EndsWith(start[..j], end)
    ensures 0 < i <= j && EndsWith(start[..i], end)
    ensures forall k | 0 < k < i :: !EndsWith(start[..k], end)
  {
    i := 1;
    while !EndsWith(start[..i], end)
      invariant 0 < i <= j
      invariant forall k | 0 < k < i :: !EndsWith(start[..k], end)
      decreases j - i
    {
      i := i + 1;
    }
  }

  /** The end marker ends in the start marker, nowhere before `j`. */
  lemma PlanThroughStart(start: seq<Token>, end: seq<Token>, j: nat) returns (p: Plan)
    requires 0 < j < |start| && Unchecked(start, j) && EndsWith(start[..j], end)
    requires forall k | 0 < k < j :: !EndsWith(start[..k], end)
    ensures p.Works() && p.start == start && p.end == end
  {
    var before := start[..j - |end|];
    assert start[..j] == before + end by { assert start[..j][j - |end|..] == end; }
    forall k | 0 < k <= |before| ensures !EndsWith(before[..k], end) {
      assert before[..k] == start[..k];
    }
    assert before + end == start[..j] && EndsWith(start[..j], start[..j]);
    p := PlanFor(before, start, end, j);
  }

  lemma UncheckedLater(start: seq<Token>, i: nat, j: nat)
    requires 0 < |start| && i <= j <= |start| && Unchecked(start, i)
    ensures Unchecked(start, j)
  {
    assert start[j..] == start[i..][j - i..];
  }

  /** From the end marker's end in the start marker at `j`, an earlier or the same one that serves. */
  lemma PlanFromEnd(spec: ThinkingSpec, j: nat) returns (p: Plan)
    requires 0 < |spec.startTokens| && Plain(spec)
    requires 0 < j < |spec.startTokens| && EndsWith(spec.startTokens[..j], spec.endTokens)
    requires Unchecked(spec.startTokens, j) || Unchecked(spec.startTokens, 1)
    ensures p.Works() && p.start == spec.startTokens && p.end == spec.endTokens
  {
    hide EndsWith, Plan.Works;
    var i := FirstEnd(spec.startTokens, spec.endTokens, j);
    if Unchecked(spec.startTokens, 1) {
      UncheckedLater(spec.startTokens, 1, i);
    } else {
      assert i == j;
    }
    p := PlanThroughStart(spec.startTokens, spec.endTokens, i);
  }

  lemma PlanFromReopen(spec: ThinkingSpec, n: nat) returns (p: Plan)
    requires 0 < |spec.startTokens| && 0 < n < |spec.endTokens| && ReopensAt(spec, n)
    ensures p.Works() && p.start == spec.startTokens && p.end == spec.endTokens
  {
    p := Plan(spec.endTokens[..n], [], spec.startTokens, spec.endTokens);
    assert p.Text() == spec.endTokens[..n] + spec.endTokens;
    assert p.Text()[..|p.Text()|] == p.Text();
    OpenSame(spec.(initiallyInThinking := true), p.Spec(), p.Text());
  }

  lemma OverlapHasPlan(spec: ThinkingSpec) returns (p: Plan)
    requires 0 < |spec.startTokens| && 0 < |spec.endTokens| && Plain(spec) && Overlap.Overlap(spec)
    ensures p.Works() && p.start == spec.startTokens && p.end == spec.endTokens
  {
    hide EndsWith, Plan.Works, Open, ReopensAt;
    if Meets(spec) {
      var j :| 0 < j < |spec.startTokens| && Unchecked(spec.startTokens, j) && MeetsAt(spec, j);
      if EndsWith(spec.endTokens, spec.startTokens[..j]) {
        assert [] + spec.endTokens == spec.endTokens;
        p := PlanFor([], spec.startTokens, spec.endTokens, j);
      } else {
        p := PlanFromEnd(spec, j);
      }
    } else if Reopens(spec) {
      var n :| 0 < n < |spec.endTokens| && ReopensAt(spec, n);
      p := PlanFromReopen(spec, n);
    } else {
      var c :| |spec.endTokens| <= c < |spec.startTokens| && |spec.startTokens| < c + |spec.endTokens|
               && EndsWith(spec.startTokens[..c], spec.endTokens);
      assert spec.startTokens[..|spec.startTokens|] == spec.startTokens;
      p := PlanFromEnd(spec, c);
    }
  }

  // ---------------------------------------------------------------- the exact condition

  function MarkersOf(start: seq<Token>, end: seq<Token>): ThinkingSpec {
    ThinkingSpec(true, true, None, start, end, true)
  }

  /** Every accepted request with these markers closes its thinking sections, whatever the network, the
      sampler and the budgets, if and only if the markers do not overlap. */
  lemma ClosesExactly(start: seq<Token>, end: seq<Token>)
    requires 0 < |start| && 0 < |end| && Plain(MarkersOf(start, end))
    ensures AlwaysCloses(start, end) <==> !Overlap.Overlap(MarkersOf(start, end))
  {
    hide Overlap.Overlap, EndsOpen, Plain;
    var spec := MarkersOf(start, end);
    if Overlap.Overlap(spec) {
      var p := OverlapHasPlan(spec);
      WorkingPlanEndsOpen(p);
      assert HasMarkers(p.Job(), start, end);
    } else {
      forall m, empty, r, d, n | HasMarkers(r, start, end) ensures !EndsOpen(m, empty, r, d, n) {
        NeverEndsOpen(m, empty, r, d, n, start, end);
      }
    }
  }

  /** The direction that needs nothing of the markers but that they do not overlap. */
  lemma NeverEndsOpen(m: Network.Model, empty: StateView, r: Request, d: DecodeView, n: nat, start: seq<Token>,
      end: seq<Token>)
    requires HasMarkers(r, start, end) && !Overlap.Overlap(MarkersOf(start, end))
    ensures !EndsOpen(m, empty, r, d, n)
  {
    hide Overlap.Overlap, Run, Open;
    if EndsOpen(m, empty, r, d, n) {
      OverlapSame(MarkersOf(start, end), r.thinking.value);
      Closure.ThinkingAlwaysCloses(m, empty.maxContext, r, d, n);
    }
  }

  /** Overlap is about the two token lists only. */
  lemma OverlapSame(spec: ThinkingSpec, spec': ThinkingSpec)
    requires spec.startTokens == spec'.startTokens && spec.endTokens == spec'.endTokens
    ensures Overlap.Overlap(spec) == Overlap.Overlap(spec')
  {
    forall n | 0 < n < |spec.endTokens| ensures ReopensAt(spec, n) == ReopensAt(spec', n) {
      OpenSame(spec.(initiallyInThinking := true), spec'.(initiallyInThinking := true), spec.endTokens[..n] +
          spec.endTokens);
    }
  }

  /** The condition for the markers of practice: a start marker that does not repeat its first token, an
      end marker that does not overlap itself. */
  lemma SimpleCondition(start: seq<Token>, end: seq<Token>)
    requires 0 < |start| && 0 < |end| && start[0] !in start[1..] && Unbordered(end)
    ensures AlwaysCloses(start, end) <==>
            forall j | 0 < j < |start| :: !EndsWith(end, start[..j]) && !EndsWith(start[..j], end)
  {
    hide AlwaysCloses, EndsWith, Reopens, Twice;
    var spec := MarkersOf(start, end);
    assert Unchecked(start, 1);
    ClosesExactly(start, end);
    UnborderedMeets(spec);
    forall j | 0 < j < |start| ensures Unchecked(start, j) {
      UncheckedLater(start, 1, j);
    }
    if !Meets(spec) {
      forall j | 0 < j < |start| ensures !EndsWith(end, start[..j]) && !EndsWith(start[..j], end) {
        assert Unchecked(spec.startTokens, j) && !MeetsAt(spec, j);
      }
    }
  }

  /** Start marker 2 3, end marker 1 2: closing has already begun the next section, and three tokens
      are enough. */
  lemma SharedTokenLeavesOpen()
    ensures var p := Plan([], [3], [2, 3], [1, 2]);
            p.Text() == [1, 2, 3] && EndsOpen(p.Net(), EmptyState(p), p.Job(), FirstView(p), 3)
  {
    var p := Plan([], [3], [2, 3], [1, 2]);
    var text := p.Text();
    assert text == [1, 2, 3] && text[..3] == text && text[..2] == [1, 2] && text[..1] == [1] && text[..0] == [];
    assert [1, 2, 3][1..] == [2, 3] && [1, 2][0..] == [1, 2];
    OpenNext(p.Spec(), text, 1);
    OpenNext(p.Spec(), text, 2);
    OpenNext(p.Spec(), text, 3);
    WorkingPlanEndsOpen(p);
  }
}
