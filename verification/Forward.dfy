/** Chunked execution of the network: `Block::forward`, `Attention::forward`, `Gdn::forward` and
    `NativeModel::forward_embeddings` as the engine runs them, against a row-by-row specification. */
module Forward {
  import opened Wrappers
  import opened Network
  import Fold

  /** The request state; `checkpoint` copies it and a successful call replaces it. */
  class SequenceState {
    var owner: nat
    var layers: seq<LayerState>
    var len: nat
    var nextPosition: nat
    var lastHidden: Row
    var maxContext: nat

    function View(): StateView
      reads this
    {
      StateView(owner, layers, len, nextPosition, lastHidden, maxContext)
    }

    constructor (v: StateView)
      ensures View() == v
    {
      owner, layers, len := v.owner, v.layers, v.len;
      nextPosition, lastHidden, maxContext := v.nextPosition, v.lastHidden, v.maxContext;
    }

    method Checkpoint() returns (copy: SequenceState)
      ensures fresh(copy) && copy.View() == View()
    {
      copy := new SequenceState(View());
    }

    /** `*state = candidate`. */
    method Become(candidate: SequenceState)
      modifies this
      ensures View() == old(candidate.View())
    {
      owner, layers, len := candidate.owner, candidate.layers, candidate.len;
      nextPosition, lastHidden, maxContext := candidate.nextPosition, candidate.lastHidden, candidate.maxContext;
    }
  }

  // ---------------------------------------------------------------- specification

  function Max(a: nat, b: nat): nat {
    if a < b then b else a
  }

  function Reach(p: Pos): nat {
    Max(p.t, Max(p.h, p.w))
  }

  /** The first position after every row seen so far. */
  function NextPosition(prior: nat, positions: seq<Pos>): nat {
    if |positions| == 0 then prior
    else Max(NextPosition(prior, positions[..|positions| - 1]), Reach(positions[|positions| - 1]) + 1)
  }

  predicate Admits(m: Model, v: StateView, positions: seq<Pos>) {
    && 0 < |positions| && v.len + |positions| <= v.maxContext
    && v.owner == m.owner && |v.layers| == |m.blocks|
    && (forall p | p in positions :: Reach(p) < m.maxPositions)
  }

  /** One call on one chunk, row by row. */
  function Forwarded(m: Model, v: StateView, rows: seq<Row>, positions: seq<Pos>, allLogits: bool)
    : (r: Option<(StateView, Output)>)
    requires |rows| == |positions|
    ensures r.Some? ==> |r.value.1.hidden| == |rows| && 0 < |r.value.1.logits|
    ensures r.Some? && allLogits ==> |r.value.1.logits| == |rows|
  {
    if !Admits(m, v, positions) then None
    else
      var (layers, hidden) :- HiddenRows(m, v.layers, Inputs(rows, positions));
      var logits :- Fold.MapRows(m.head, if allLogits then hidden else [hidden[|hidden| - 1]]);
      Some((Advanced(v, layers, hidden, positions), Output(logits, hidden)))
  }

  /** Final hidden rows, row by row, with the layer states they leave. */
  function HiddenRows(m: Model, layers: seq<LayerState>, xs: seq<Input>): (r: Option<(seq<LayerState>, seq<Row>)>)
    requires |layers| == |m.blocks|
    ensures r.Some? ==> |r.value.1| == |xs|
  {
    var (after, raw) :- Fold.Run(StackStep(m.blocks), layers, xs);
    var hidden :- Fold.MapRows(m.norm, raw);
    Some((after, hidden))
  }

  function Advanced(v: StateView, layers: seq<LayerState>, hidden: seq<Row>, positions: seq<Pos>): StateView
    requires 0 < |hidden|
  {
    v.(layers := layers, len := v.len + |hidden|, lastHidden := hidden[|hidden| - 1],
       nextPosition := NextPosition(v.nextPosition, positions))
  }

  function TextPositions(first: nat, n: nat): (r: seq<Pos>)
    ensures |r| == n
  {
    seq(n, i requires 0 <= i < n => Pos(first + i, first + i, first + i))
  }

  function Embed(m: Model, tokens: seq<Token>): (r: seq<Row>)
    ensures |r| == |tokens|
  {
    seq(|tokens|, i requires 0 <= i < |tokens| => m.embedding(tokens[i]))
  }

  function ForwardTokens(m: Model, v: StateView, tokens: seq<Token>, allLogits: bool)
    : (r: Option<(StateView, Output)>)
    ensures r.Some? ==> |r.value.1.hidden| == |tokens| && 0 < |r.value.1.logits|
    ensures r.Some? && allLogits ==> |r.value.1.logits| == |tokens|
  {
    if exists t | t in tokens :: t >= m.vocab then None
    else Forwarded(m, v, Embed(m, tokens), TextPositions(v.nextPosition, |tokens|), allLogits)
  }

  // ---------------------------------------------------------------- the block, stage by stage

  function FinishStep(b: Block): ((Row, Row)) -> Option<Row> {
    (p: (Row, Row)) => b.finish(p.0, p.1)
  }

  function Pairs<A, B>(xs: seq<A>, ys: seq<B>): (r: seq<(A, B)>)
    requires |xs| == |ys|
    ensures |r| == |xs|
  {
    seq(|xs|, i requires 0 <= i < |xs| => (xs[i], ys[i]))
  }

  function Each<I, O>(f: I -> O, xs: seq<I>): (r: seq<O>)
    ensures |r| == |xs|
  {
    seq(|xs|, i requires 0 <= i < |xs| => f(xs[i]))
  }

  /** Norm of every row, then the mixer over every row, then residual and MLP of every row. */
  function Staged(b: Block, st: LayerState, rows: seq<Row>, positions: seq<Pos>): Option<(LayerState, seq<Row>)>
    requires |rows| == |positions|
  {
    var normed :- Fold.MapRows(b.inputNorm, rows);
    var (st', mixed) :- Fold.Run(MixStep(b.mixer), st, Inputs(normed, positions));
    var ys :- Fold.MapRows(FinishStep(b), Pairs(rows, mixed));
    Some((st', ys))
  }

  lemma MapSnoc<I, O>(f: I -> Option<O>, xs: seq<I>, x: I)
    ensures Fold.MapRows(f, xs + [x]) ==
            match Fold.MapRows(f, xs)
            case None => None
            case Some(ys) => match f(x) case None => None case Some(y) => Some(ys + [y])
  {
    var all := xs + [x];
    assert all[..|all| - 1] == xs;
  }

  lemma StagedSnoc(b: Block, st: LayerState, rows: seq<Row>, positions: seq<Pos>, x: Row, p: Pos)
    requires |rows| == |positions|
    ensures Staged(b, st, rows + [x], positions + [p]) ==
            match Staged(b, st, rows, positions)
            case None => None
            case Some(a) =>
              match BlockRow(b, a.0, Input(x, p))
              case None => None
              case Some(q) => Some((q.0, a.1 + [q.1]))
  {
    MapSnoc(b.inputNorm, rows, x);
    match Fold.MapRows(b.inputNorm, rows) {
      case None =>
      case Some(normed) =>
        match b.inputNorm(x) {
          case None =>
          case Some(n) =>
            InputsSnoc(normed, positions, n, p);
            Fold.Snoc(MixStep(b.mixer), st, Inputs(normed, positions), Input(n, p));
            match Fold.Run(MixStep(b.mixer), st, Inputs(normed, positions)) {
              case None =>
              case Some(a) =>
                match MixRow(b.mixer, a.0, n, p) {
                  case None =>
                  case Some(q) =>
                    assert Pairs(rows + [x], a.1 + [q.1]) == Pairs(rows, a.1) + [(x, q.1)];
                    MapSnoc(FinishStep(b), Pairs(rows, a.1), (x, q.1));
                }
            }
        }
    }
  }

  /** Doing each stage for the whole chunk is doing all stages row by row. */
  lemma {:induction false} StagedIsRowwise(b: Block, st: LayerState, rows: seq<Row>, positions: seq<Pos>)
    requires |rows| == |positions|
    ensures Staged(b, st, rows, positions) == Fold.Run(BlockStep(b), st, Inputs(rows, positions))
    decreases |rows|
  {
    if |rows| > 0 {
      var n := |rows| - 1;
      assert rows == rows[..n] + [rows[n]] && positions == positions[..n] + [positions[n]];
      StagedIsRowwise(b, st, rows[..n], positions[..n]);
      StagedSnoc(b, st, rows[..n], positions[..n], rows[n], positions[n]);
      InputsSnoc(rows[..n], positions[..n], rows[n], positions[n]);
      Fold.Snoc(BlockStep(b), st, Inputs(rows[..n], positions[..n]), Input(rows[n], positions[n]));
    }
  }

  // ---------------------------------------------------------------- what a mixer computes, without the fold

  /** Every key of the chunk can be placed. */
  predicate Places(m: Mixer, xs: seq<Input>)
    requires m.Attention?
  {
    forall i | 0 <= i < |xs| :: m.placeKey(m.key(xs[i].row), xs[i].pos).Some?
  }

  /** One cache row per input row. */
  function Appended(m: Mixer, xs: seq<Input>): (r: seq<KvRow>)
    requires m.Attention? && Places(m, xs)
    ensures |r| == |xs|
  {
    seq(|xs|, i requires 0 <= i < |xs| =>
        KvRow(m.placeKey(m.key(xs[i].row), xs[i].pos).value, m.value(xs[i].row)))
  }

  /** Row `i` sees the cache, the rows of the chunk before it and itself. */
  function Attended(m: Mixer, cache: seq<KvRow>, xs: seq<Input>, i: nat): Option<Row>
    requires m.Attention? && Places(m, xs) && i < |xs|
  {
    m.attend(m.query(xs[i].row), xs[i].pos, cache + Appended(m, xs)[..i + 1])
  }

  /** The chunk fits the cache, every key is placed and every row's attention succeeds. */
  predicate Attends(m: Mixer, st: LayerState, xs: seq<Input>)
    requires m.Attention? && st.AttentionState?
  {
    && (0 < |xs| ==> |st.rows| + |xs| <= st.maxTokens)
    && Places(m, xs)
    && forall i | 0 <= i < |xs| :: Attended(m, st.rows, xs, i).Some?
  }

  predicate AttentionRows(m: Mixer, st: LayerState, xs: seq<Input>, st': LayerState, ys: seq<Row>)
    requires m.Attention? && st.AttentionState?
  {
    && Attends(m, st, xs)
    && st' == AttentionState(st.rows + Appended(m, xs), st.maxTokens)
    && |ys| == |xs|
    && forall i | 0 <= i < |xs| :: ys[i] == m.output(Attended(m, st.rows, xs, i).value)
  }

  predicate RecurrentRow(m: Mixer, before: (Row, Row), x: Input, after: (Row, Row), y: Row)
    requires m.Gdn?
  {
    var next := m.recur(m.project(x.row), before.0, before.1);
    next.Some? && after == (next.value.0, next.value.1) && y == m.output(next.value.2)
  }

  /** Matrix and convolution history go through the rows one after the other. */
  predicate RecurrentRows(m: Mixer, st: LayerState, xs: seq<Input>, st': LayerState, ys: seq<Row>,
                          states: seq<(Row, Row)>)
    requires m.Gdn? && st.RecurrentState?
  {
    && |states| == |xs| + 1 && |ys| == |xs|
    && states[0] == (st.matrix, st.convolution)
    && st' == RecurrentState(states[|xs|].0, states[|xs|].1)
    && forall i | 0 <= i < |xs| :: RecurrentRow(m, states[i], xs[i], states[i + 1], ys[i])
  }

  ghost predicate MixedRows(m: Mixer, st: LayerState, xs: seq<Input>, st': LayerState, ys: seq<Row>) {
    match (m, st)
    case (Attention(_, _, _, _, _, _), AttentionState(_, _)) => AttentionRows(m, st, xs, st', ys)
    case (Gdn(_, _, _), RecurrentState(_, _)) => exists states :: RecurrentRows(m, st, xs, st', ys, states)
    case _ => xs == [] && ys == [] && st' == st
  }

  lemma AppendedSnoc(m: Mixer, xs: seq<Input>, x: Input)
    requires m.Attention? && Places(m, xs) && m.placeKey(m.key(x.row), x.pos).Some?
    ensures Places(m, xs + [x])
    ensures Appended(m, xs + [x]) ==
            Appended(m, xs) + [KvRow(m.placeKey(m.key(x.row), x.pos).value, m.value(x.row))]
  {
    var all := xs + [x];
    forall i | 0 <= i < |all| ensures m.placeKey(m.key(all[i].row), all[i].pos).Some? {
      assert i < |xs| ==> all[i] == xs[i];
    }
  }

  lemma PlacesFront(m: Mixer, xs: seq<Input>, x: Input)
    requires m.Attention? && Places(m, xs + [x])
    ensures Places(m, xs) && m.placeKey(m.key(x.row), x.pos).Some?
  {
    var all := xs + [x];
    assert all[|xs|] == x;
    forall i | 0 <= i < |xs| ensures m.placeKey(m.key(xs[i].row), xs[i].pos).Some? {
      assert all[i] == xs[i];
    }
  }

  /** One more row changes nothing the rows before it see. */
  lemma AttendedSnoc(m: Mixer, cache: seq<KvRow>, xs: seq<Input>, x: Input, i: nat)
    requires m.Attention? && Places(m, xs + [x]) && Places(m, xs) && i <= |xs|
    ensures i < |xs| ==> Attended(m, cache, xs + [x], i) == Attended(m, cache, xs, i)
    ensures Attended(m, cache, xs + [x], |xs|) == m.attend(m.query(x.row), x.pos, cache + Appended(m, xs + [x]))
  {
    PlacesFront(m, xs, x);
    AppendedSnoc(m, xs, x);
    var all := Appended(m, xs + [x]);
    assert all[..|xs| + 1] == all;
    if i < |xs| {
      assert all[..i + 1] == Appended(m, xs)[..i + 1];
    }
  }

  /** The step at `x` after the rows `xs`, in closed form. */
  lemma AttentionStep(m: Mixer, st: LayerState, xs: seq<Input>, x: Input)
    requires m.Attention? && st.AttentionState? && Attends(m, st, xs)
    ensures var step := MixRow(m, AttentionState(st.rows + Appended(m, xs), st.maxTokens), x.row, x.pos);
            && (step.Some? <==> Attends(m, st, xs + [x]))
            && (step.Some? ==>
                  && step.value.0 == AttentionState(st.rows + Appended(m, xs + [x]), st.maxTokens)
                  && step.value.1 == m.output(Attended(m, st.rows, xs + [x], |xs|).value))
  {
    var all := xs + [x];
    if m.placeKey(m.key(x.row), x.pos).None? {
      if Places(m, all) {
        PlacesFront(m, xs, x);
      }
    } else {
      AppendedSnoc(m, xs, x);
      var added := KvRow(m.placeKey(m.key(x.row), x.pos).value, m.value(x.row));
      assert (st.rows + Appended(m, xs)) + [added] == st.rows + Appended(m, all);
      forall i | 0 <= i < |all| ensures i < |xs| ==> Attended(m, st.rows, all, i).Some? {
        AttendedSnoc(m, st.rows, xs, x, i);
      }
      AttendedSnoc(m, st.rows, xs, x, |xs|);
    }
  }

  /** An attention layer over a chunk: it succeeds exactly when `Attends` says so, and then every
      row has seen the cache, the rows before it and itself. */
  lemma {:induction false} AttentionClosedForm(m: Mixer, st: LayerState, xs: seq<Input>)
    requires m.Attention? && st.AttentionState?
    ensures Fold.Run(MixStep(m), st, xs).Some? <==> Attends(m, st, xs)
    ensures Attends(m, st, xs) ==>
              var r := Fold.Run(MixStep(m), st, xs).value; AttentionRows(m, st, xs, r.0, r.1)
    decreases |xs|
  {
    if |xs| == 0 {
      assert Places(m, xs);
      assert st.rows + Appended(m, xs) == st.rows;
    } else {
      var front, x := xs[..|xs| - 1], xs[|xs| - 1];
      assert xs == front + [x];
      AttentionClosedForm(m, st, front);
      Fold.Snoc(MixStep(m), st, front, x);
      if Attends(m, st, front) {
        AttentionStep(m, st, front, x);
        if Attends(m, st, xs) {
          forall i | 0 <= i < |front| ensures Attended(m, st.rows, xs, i) == Attended(m, st.rows, front, i) {
            AttendedSnoc(m, st.rows, front, x, i);
          }
        }
      } else if Attends(m, st, xs) {
        PlacesFront(m, front, x);
        forall i | 0 <= i < |front| ensures Attended(m, st.rows, front, i).Some? {
          AttendedSnoc(m, st.rows, front, x, i);
        }
      }
    }
  }

  lemma {:induction false} RecurrentClosedForm(m: Mixer, st: LayerState, xs: seq<Input>)
    requires m.Gdn? && st.RecurrentState? && Fold.Run(MixStep(m), st, xs).Some?
    ensures var r := Fold.Run(MixStep(m), st, xs).value;
            exists states :: RecurrentRows(m, st, xs, r.0, r.1, states)
    decreases |xs|
  {
    var r := Fold.Run(MixStep(m), st, xs).value;
    if |xs| == 0 {
      assert RecurrentRows(m, st, xs, r.0, r.1, [(st.matrix, st.convolution)]);
    } else {
      var front, x := xs[..|xs| - 1], xs[|xs| - 1];
      assert xs == front + [x];
      Fold.Snoc(MixStep(m), st, front, x);
      RecurrentClosedForm(m, st, front);
      var before := Fold.Run(MixStep(m), st, front).value;
      var states: seq<(Row, Row)> :| RecurrentRows(m, st, front, before.0, before.1, states);
      RecurrentSnoc(m, st, front, x, before.0, before.1, states, r.0, r.1[|front|]);
    }
  }

  lemma RecurrentSnoc(m: Mixer, st: LayerState, xs: seq<Input>, x: Input, st': LayerState, ys: seq<Row>,
      states: seq<(Row, Row)>, end: LayerState, y: Row)
    requires m.Gdn? && st.RecurrentState? && end.RecurrentState? && RecurrentRows(m, st, xs, st', ys, states)
    requires RecurrentRow(m, states[|xs|], x, (end.matrix, end.convolution), y)
    ensures RecurrentRows(m, st, xs + [x], end, ys + [y], states + [(end.matrix, end.convolution)])
  {
    hide RecurrentRow;
    var all, outs, inputs := states + [(end.matrix, end.convolution)], ys + [y], xs + [x];
    forall i | 0 <= i < |inputs| ensures RecurrentRow(m, all[i], inputs[i], all[i + 1], outs[i]) {
      assert i < |xs| ==> RecurrentRow(m, states[i], xs[i], states[i + 1], ys[i]);
    }
  }

  // ---------------------------------------------------------------- the engine's loops

  lemma MixPrefix(m: Mixer, st: LayerState, normed: seq<Row>, positions: seq<Pos>, i: nat)
    requires |normed| == |positions| && i < |normed|
    ensures Inputs(normed[..i + 1], positions[..i + 1]) == Inputs(normed[..i], positions[..i]) +
            [Input(normed[i], positions[i])]
    ensures var before, after := Fold.Run(MixStep(m), st, Inputs(normed[..i], positions[..i])),
                                 Fold.Run(MixStep(m), st, Inputs(normed[..i + 1], positions[..i + 1]));
            after == match before
                     case None => None
                     case Some(a) =>
                       match MixRow(m, a.0, normed[i], positions[i])
                       case None => None
                       case Some(q) => Some((q.0, a.1 + [q.1]))
    ensures Fold.Run(MixStep(m), st, Inputs(normed[..i + 1], positions[..i + 1])).None? ==>
              Fold.Run(MixStep(m), st, Inputs(normed, positions)).None?
  {
    assert normed[..i + 1] == normed[..i] + [normed[i]] && positions[..i + 1] == positions[..i] + [positions[i]];
    InputsSnoc(normed[..i], positions[..i], normed[i], positions[i]);
    Fold.Snoc(MixStep(m), st, Inputs(normed[..i], positions[..i]), Input(normed[i], positions[i]));
    if Fold.Run(MixStep(m), st, Inputs(normed[..i + 1], positions[..i + 1])).None? {
      assert Inputs(normed, positions)[..i + 1] == Inputs(normed[..i + 1], positions[..i + 1]);
      Fold.PrefixFails(MixStep(m), st, Inputs(normed, positions), i + 1);
    }
  }

  method AttentionForward(m: Mixer, normed: seq<Row>, positions: seq<Pos>, st: LayerState)
    returns (r: Option<(LayerState, seq<Row>)>)
    requires m.Attention? && st.AttentionState? && |normed| == |positions|
    ensures r == Fold.Run(MixStep(m), st, Inputs(normed, positions))
    ensures r.Some? <==> Attends(m, st, Inputs(normed, positions))
    ensures r.Some? ==> AttentionRows(m, st, Inputs(normed, positions), r.value.0, r.value.1)
  {
    AttentionClosedForm(m, st, Inputs(normed, positions));
    var queries, keys, values := Each(m.query, normed), Each(m.key, normed), Each(m.value, normed);
    var cache: seq<KvRow> := st.rows;
    var attended: seq<Row> := [];
    for i := 0 to |normed|
      invariant |attended| == i
      invariant Fold.Run(MixStep(m), st, Inputs(normed[..i], positions[..i])) ==
                Some((AttentionState(cache, st.maxTokens), Each(m.output, attended)))
    {
      MixPrefix(m, st, normed, positions, i);
      var key :- m.placeKey(keys[i], positions[i]);
      if |cache| >= st.maxTokens {
        return None;
      }
      cache := cache + [KvRow(key, values[i])];
      var y :- m.attend(queries[i], positions[i], cache);
      assert Each(m.output, attended + [y]) == Each(m.output, attended) + [m.output(y)];
      attended := attended + [y];
    }
    assert normed[..|normed|] == normed && positions[..|normed|] == positions;
    r := Some((AttentionState(cache, st.maxTokens), Each(m.output, attended)));
  }

  method GdnForward(m: Mixer, normed: seq<Row>, positions: seq<Pos>, st: LayerState)
    returns (r: Option<(LayerState, seq<Row>)>)
    requires m.Gdn? && st.RecurrentState? && |normed| == |positions|
    ensures r == Fold.Run(MixStep(m), st, Inputs(normed, positions))
    ensures r.Some? ==> exists states ::
              RecurrentRows(m, st, Inputs(normed, positions), r.value.0, r.value.1, states)
  {
    var controls := Each(m.project, normed);
    var matrix, convolution := st.matrix, st.convolution;
    var mixed: seq<Row> := [];
    for i := 0 to |normed|
      invariant |mixed| == i
      invariant Fold.Run(MixStep(m), st, Inputs(normed[..i], positions[..i])) ==
                Some((RecurrentState(matrix, convolution), Each(m.output, mixed)))
    {
      MixPrefix(m, st, normed, positions, i);
      var next :- m.recur(controls[i], matrix, convolution);
      matrix, convolution := next.0, next.1;
      assert Each(m.output, mixed + [next.2]) == Each(m.output, mixed) + [m.output(next.2)];
      mixed := mixed + [next.2];
    }
    assert normed[..|normed|] == normed && positions[..|normed|] == positions;
    RecurrentClosedForm(m, st, Inputs(normed, positions));
    r := Some((RecurrentState(matrix, convolution), Each(m.output, mixed)));
  }

  /** A layer whose kind and state disagree fails on any row. */
  lemma MismatchFails(m: Mixer, st: LayerState, normed: seq<Row>, positions: seq<Pos>)
    requires 0 < |normed| == |positions|
    requires (m.Attention? && st.RecurrentState?) || (m.Gdn? && st.AttentionState?)
    ensures Fold.Run(MixStep(m), st, Inputs(normed, positions)).None?
  {
    MixPrefix(m, st, normed, positions, 0);
    assert normed[..0] == [] && positions[..0] == [] && Inputs(normed[..0], positions[..0]) == [];
    assert MixRow(m, st, normed[0], positions[0]).None?;
  }

  /** Norm, mixer and residual of every row, from the values in between. */
  ghost predicate BlockTrace(b: Block, st: LayerState, rows: seq<Row>, positions: seq<Pos>, st': LayerState,
                             ys: seq<Row>, normed: seq<Row>, mixed: seq<Row>)
    requires |rows| == |positions|
  {
    && |normed| == |mixed| == |ys| == |rows|
    && (forall i | 0 <= i < |rows| :: b.inputNorm(rows[i]) == Some(normed[i]))
    && MixedRows(b.mixer, st, Inputs(normed, positions), st', mixed)
    && (forall i | 0 <= i < |rows| :: b.finish(rows[i], mixed[i]) == Some(ys[i]))
  }

  ghost predicate BlockRows(b: Block, st: LayerState, rows: seq<Row>, positions: seq<Pos>, st': LayerState,
                            ys: seq<Row>)
    requires |rows| == |positions|
  {
    exists normed, mixed :: BlockTrace(b, st, rows, positions, st', ys, normed, mixed)
  }

  lemma FinishedRows(b: Block, rows: seq<Row>, mixed: seq<Row>, ys: seq<Row>)
    requires |rows| == |mixed| && Fold.MapRows(FinishStep(b), Pairs(rows, mixed)) == Some(ys)
    ensures |ys| == |rows| && forall i | 0 <= i < |rows| :: b.finish(rows[i], mixed[i]) == Some(ys[i])
  {
    forall i | 0 <= i < |rows| ensures b.finish(rows[i], mixed[i]) == Some(ys[i]) {
      assert FinishStep(b)(Pairs(rows, mixed)[i]) == Some(ys[i]);
    }
  }

  lemma BlockClosedForm(b: Block, st: LayerState, rows: seq<Row>, positions: seq<Pos>)
    requires 0 < |rows| == |positions| && Fold.Run(BlockStep(b), st, Inputs(rows, positions)).Some?
    ensures var r := Fold.Run(BlockStep(b), st, Inputs(rows, positions)).value;
            BlockRows(b, st, rows, positions, r.0, r.1)
  {
    hide Fold.Run, Attends, RecurrentRows;
    StagedIsRowwise(b, st, rows, positions);
    var r := Staged(b, st, rows, positions).value;
    var normed := Fold.MapRows(b.inputNorm, rows).value;
    var xs := Inputs(normed, positions);
    var mixed := Fold.Run(MixStep(b.mixer), st, xs).value.1;
    FinishedRows(b, rows, mixed, r.1);
    if b.mixer.Attention? && st.AttentionState? {
      AttentionClosedForm(b.mixer, st, xs);
    } else if b.mixer.Gdn? && st.RecurrentState? {
      RecurrentClosedForm(b.mixer, st, xs);
    } else {
      MismatchFails(b.mixer, st, normed, positions);
    }
    assert BlockTrace(b, st, rows, positions, r.0, r.1, normed, mixed);
  }

  method BlockForward(b: Block, rows: seq<Row>, positions: seq<Pos>, st: LayerState)
    returns (r: Option<(LayerState, seq<Row>)>)
    requires 0 < |rows| == |positions|
    ensures r == Fold.Run(BlockStep(b), st, Inputs(rows, positions))
    ensures r.Some? ==> BlockRows(b, st, rows, positions, r.value.0, r.value.1)
  {
    hide BlockRows, BlockTrace, MixedRows;
    StagedIsRowwise(b, st, rows, positions);
    var normed :- Fold.EachRow(b.inputNorm, rows);
    var run;
    if b.mixer.Attention? && st.AttentionState? {
      run := AttentionForward(b.mixer, normed, positions, st);
    } else if b.mixer.Gdn? && st.RecurrentState? {
      run := GdnForward(b.mixer, normed, positions, st);
    } else {
      MismatchFails(b.mixer, st, normed, positions);
      return None;
    }
    var staged :- run;
    var ys :- Fold.EachRow(FinishStep(b), Pairs(rows, staged.1));
    r := Some((staged.0, ys));
    BlockClosedForm(b, st, rows, positions);
  }

  /** The blocks from `k` on, applied to what the first `k` blocks left. */
  ghost function Finished(blocks: seq<Block>, layers: seq<LayerState>, hidden: seq<Row>, positions: seq<Pos>, k: nat)
    : Option<(seq<LayerState>, seq<Row>)>
    requires k <= |blocks| == |layers| && |hidden| == |positions|
  {
    var rest :- Layerwise(blocks[k..], layers[k..], hidden, positions);
    Some((layers[..k] + rest.0, rest.1))
  }

  lemma FinishedStep(blocks: seq<Block>, layers: seq<LayerState>, hidden: seq<Row>, positions: seq<Pos>, k: nat)
    requires k < |blocks| == |layers| && |hidden| == |positions|
    ensures Finished(blocks, layers, hidden, positions, k) ==
            match Fold.Run(BlockStep(blocks[k]), layers[k], Inputs(hidden, positions))
            case None => None
            case Some(a) => Finished(blocks, layers[k := a.0], a.1, positions, k + 1)
  {
    assert blocks[k..][0] == blocks[k] && blocks[k..][1..] == blocks[k + 1..];
    assert layers[k..][0] == layers[k] && layers[k..][1..] == layers[k + 1..];
    match Fold.Run(BlockStep(blocks[k]), layers[k], Inputs(hidden, positions)) {
      case None =>
      case Some(a) =>
        assert layers[k := a.0][k + 1..] == layers[k + 1..];
        match Layerwise(blocks[k + 1..], layers[k + 1..], a.1, positions) {
          case None =>
          case Some(rest) =>
            assert layers[k := a.0][..k + 1] == layers[..k] + [a.0];
            assert layers[..k] + ([a.0] + rest.0) == (layers[..k] + [a.0]) + rest.0;
        }
    }
  }

  lemma FinishedNone(blocks: seq<Block>, layers: seq<LayerState>, hidden: seq<Row>, positions: seq<Pos>)
    requires |blocks| == |layers| && |hidden| == |positions|
    ensures Finished(blocks, layers, hidden, positions, 0) == Layerwise(blocks, layers, hidden, positions)
  {
    hide Layerwise;
    assert layers[..0] == [] && layers[0..] == layers && blocks[0..] == blocks;
    if Layerwise(blocks, layers, hidden, positions).Some? {
      var rest := Layerwise(blocks, layers, hidden, positions).value;
      assert [] + rest.0 == rest.0;
    }
  }

  lemma FinishedAll(blocks: seq<Block>, layers: seq<LayerState>, hidden: seq<Row>, positions: seq<Pos>)
    requires |blocks| == |layers| && |hidden| == |positions|
    ensures Finished(blocks, layers, hidden, positions, |blocks|) == Some((layers, hidden))
  {
    assert layers[..|blocks|] + [] == layers;
  }

  /** The layer loop, on the candidate state only. */
  method RunLayers(m: Model, embeddings: seq<Row>, positions: seq<Pos>, candidate: SequenceState)
    returns (r: Option<seq<Row>>)
    requires 0 < |embeddings| == |positions| && |candidate.layers| == |m.blocks|
    modifies candidate
    ensures match Fold.Run(StackStep(m.blocks), old(candidate.layers), Inputs(embeddings, positions))
            case None => r.None?
            case Some(a) => r == Some(a.1) && candidate.View() == old(candidate.View()).(layers := a.0)
  {
    hide Finished, Fold.Run, Layerwise;
    ghost var start := candidate.layers;
    LayerwiseIsRowwise(m.blocks, start, embeddings, positions);
    FinishedNone(m.blocks, start, embeddings, positions);
    var hidden := embeddings;
    for k := 0 to |m.blocks|
      invariant |candidate.layers| == |m.blocks| && |hidden| == |positions|
      invariant candidate.View() == old(candidate.View()).(layers := candidate.layers)
      invariant Finished(m.blocks, start, embeddings, positions, 0) ==
                Finished(m.blocks, candidate.layers, hidden, positions, k)
    {
      FinishedStep(m.blocks, candidate.layers, hidden, positions, k);
      var next :- BlockForward(m.blocks[k], hidden, positions, candidate.layers[k]);
      candidate.layers := candidate.layers[k := next.0];
      hidden := next.1;
    }
    FinishedAll(m.blocks, candidate.layers, hidden, positions);
    r := Some(hidden);
  }

  method HighestPosition(prior: nat, positions: seq<Pos>) returns (r: nat)
    ensures r == NextPosition(prior, positions)
  {
    r := prior;
    for i := 0 to |positions|
      invariant r == NextPosition(prior, positions[..i])
    {
      assert positions[..i + 1][..i] == positions[..i];
      r := Max(r, Reach(positions[i]) + 1);
    }
    assert positions[..|positions|] == positions;
  }

  /** `NativeModel::forward_embeddings`: commits the candidate only after everything succeeded. */
  method ForwardEmbeddings(m: Model, embeddings: seq<Row>, positions: seq<Pos>, state: SequenceState, allLogits: bool)
    returns (r: Option<Output>)
    requires |embeddings| == |positions|
    modifies state
    ensures match Forwarded(m, old(state.View()), embeddings, positions, allLogits)
            case None => r.None? && state.View() == old(state.View())
            case Some(a) => r == Some(a.1) && state.View() == a.0
  {
    hide Fold.Run, Fold.MapRows, NextPosition, Inputs, StackStep;
    if !Admits(m, state.View(), positions) {
      return None;
    }
    var candidate := state.Checkpoint();
    var raw :- RunLayers(m, embeddings, positions, candidate);
    var hidden :- Fold.EachRow(m.norm, raw);
    var last := hidden[|hidden| - 1];
    var logits :- Fold.EachRow(m.head, if allLogits then hidden else [last]);
    candidate.len := candidate.len + |positions|;
    candidate.nextPosition := HighestPosition(candidate.nextPosition, positions);
    candidate.lastHidden := last;
    state.Become(candidate);
    r := Some(Output(logits, hidden));
  }

  /** `NativeModel::forward`: embeds text tokens at the next positions. */
  method ForwardText(m: Model, tokens: seq<Token>, state: SequenceState, allLogits: bool)
    returns (r: Option<Output>)
    modifies state
    ensures match ForwardTokens(m, old(state.View()), tokens, allLogits)
            case None => r.None? && state.View() == old(state.View())
            case Some(a) => r == Some(a.1) && state.View() == a.0
  {
    if exists t | t in tokens :: t >= m.vocab {
      return None;
    }
    r := ForwardEmbeddings(m, Embed(m, tokens), TextPositions(state.nextPosition, |tokens|), state, allLogits);
  }

  // ---------------------------------------------------------------- a whole call, from its intermediate rows

  /** `acts[k]` are the rows that enter block `k`. */
  ghost predicate LayerTrace(blocks: seq<Block>, before: seq<LayerState>, positions: seq<Pos>,
                             after: seq<LayerState>, acts: seq<seq<Row>>)
  {
    && |before| == |after| == |blocks| && |acts| == |blocks| + 1
    && (forall k | 0 <= k < |acts| :: |acts[k]| == |positions|)
    && forall k | 0 <= k < |blocks| :: BlockRows(blocks[k], before[k], acts[k], positions, after[k], acts[k + 1])
  }

  lemma {:induction false} LayerwiseTrace(blocks: seq<Block>, layers: seq<LayerState>, rows: seq<Row>,
      positions: seq<Pos>) returns (acts: seq<seq<Row>>)
    requires |blocks| == |layers| && 0 < |rows| == |positions|
    requires Layerwise(blocks, layers, rows, positions).Some?
    ensures |acts| == |blocks| + 1
    ensures var r := Layerwise(blocks, layers, rows, positions).value;
            LayerTrace(blocks, layers, positions, r.0, acts) && acts[0] == rows && acts[|blocks|] == r.1
    decreases |blocks|
  {
    hide Fold.Run, BlockRows;
    if |blocks| == 0 {
      acts := [rows];
    } else {
      BlockClosedForm(blocks[0], layers[0], rows, positions);
      var first := Fold.Run(BlockStep(blocks[0]), layers[0], Inputs(rows, positions)).value;
      var rest := LayerwiseTrace(blocks[1..], layers[1..], first.1, positions);
      acts := [rows] + rest;
      var after := Layerwise(blocks, layers, rows, positions).value.0;
      forall k | 0 <= k < |blocks|
        ensures BlockRows(blocks[k], layers[k], acts[k], positions, after[k], acts[k + 1])
      {
        assert acts[k + 1] == rest[k];
        if k > 0 {
          assert blocks[1..][k - 1] == blocks[k] && layers[1..][k - 1] == layers[k] && after[k] == after[1..][k - 1];
          assert acts[k] == rest[k - 1];
        }
      }
    }
  }

  /** The rows between the blocks, the final norm and the head, and what a call commits. */
  ghost predicate ForwardTrace(m: Model, v: StateView, rows: seq<Row>, positions: seq<Pos>, allLogits: bool,
                               v': StateView, out: Output, acts: seq<seq<Row>>)
    requires 0 < |rows| == |positions|
  {
    && LayerTrace(m.blocks, v.layers, positions, v'.layers, acts) && acts[0] == rows
    && Headed(m, acts[|m.blocks|], allLogits, out)
    && Committed(m, v, positions, v', out)
  }

  /** The final norm of every row, and the head on every row or only the last. */
  ghost predicate Headed(m: Model, raw: seq<Row>, allLogits: bool, out: Output) {
    var n := |raw|;
    && 0 < n == |out.hidden|
    && (forall i | 0 <= i < n :: m.norm(raw[i]) == Some(out.hidden[i]))
    && if allLogits then |out.logits| == n && forall i | 0 <= i < n :: m.head(out.hidden[i]) == Some(out.logits[i])
       else |out.logits| == 1 && m.head(out.hidden[n - 1]) == Some(out.logits[0])
  }

  /** Everything a call changes besides the layer states. */
  ghost predicate Committed(m: Model, v: StateView, positions: seq<Pos>, v': StateView, out: Output) {
    var n := |positions|;
    && 0 < n == |out.hidden|
    && v'.owner == v.owner == m.owner && v'.maxContext == v.maxContext
    && v'.len == v.len + n <= v.maxContext && v'.lastHidden == out.hidden[n - 1]
    && v.nextPosition <= v'.nextPosition <= Max(v.nextPosition, m.maxPositions)
    && (forall i | 0 <= i < n :: Reach(positions[i]) < v'.nextPosition)
    && (v'.nextPosition == v.nextPosition || exists i | 0 <= i < n :: v'.nextPosition == Reach(positions[i]) + 1)
  }

  /** The next position is the least one after every row so far. */
  lemma {:induction false} NextPositionLeast(prior: nat, positions: seq<Pos>)
    ensures prior <= NextPosition(prior, positions)
    ensures forall i | 0 <= i < |positions| :: Reach(positions[i]) < NextPosition(prior, positions)
    ensures NextPosition(prior, positions) == prior ||
            exists i | 0 <= i < |positions| :: NextPosition(prior, positions) == Reach(positions[i]) + 1
    decreases |positions|
  {
    if |positions| > 0 {
      var front := positions[..|positions| - 1];
      NextPositionLeast(prior, front);
      forall i | 0 <= i < |positions| ensures Reach(positions[i]) < NextPosition(prior, positions) {
        assert i < |front| ==> positions[i] == front[i];
      }
      var next := NextPosition(prior, front);
      if next != prior {
        var i :| 0 <= i < |front| && next == Reach(front[i]) + 1;
        assert positions[i] == front[i];
      }
      assert NextPosition(prior, positions) == next ||
             NextPosition(prior, positions) == Reach(positions[|positions| - 1]) + 1;
    }
  }

  /** A successful call is a run of every row through every block in order, then the norm and the
      head, and it commits the layer states, the length, the last hidden row and the next position. */
  lemma ForwardedTrace(m: Model, v: StateView, rows: seq<Row>, positions: seq<Pos>, allLogits: bool)
    requires |rows| == |positions| && Forwarded(m, v, rows, positions, allLogits).Some?
    ensures 0 < |rows|
    ensures var r := Forwarded(m, v, rows, positions, allLogits).value;
            exists acts :: ForwardTrace(m, v, rows, positions, allLogits, r.0, r.1, acts)
  {
    hide Fold.Run, LayerTrace, Layerwise, Headed, Committed, NextPosition;
    LayerwiseIsRowwise(m.blocks, v.layers, rows, positions);
    var acts := LayerwiseTrace(m.blocks, v.layers, rows, positions);
    var r := Forwarded(m, v, rows, positions, allLogits).value;
    HeadedBy(m, acts[|m.blocks|], allLogits, r.1);
    CommittedBy(m, v, r.0.layers, positions, r.1);
    assert ForwardTrace(m, v, rows, positions, allLogits, r.0, r.1, acts);
  }

  lemma HeadedBy(m: Model, raw: seq<Row>, allLogits: bool, out: Output)
    requires 0 < |raw| && Fold.MapRows(m.norm, raw) == Some(out.hidden)
    requires Fold.MapRows(m.head, if allLogits then out.hidden else [out.hidden[|raw| - 1]]) == Some(out.logits)
    ensures Headed(m, raw, allLogits, out)
  {
    hide Fold.MapRows;
    if !allLogits {
      assert [out.hidden[|raw| - 1]][0] == out.hidden[|raw| - 1];
    }
  }

  lemma CommittedBy(m: Model, v: StateView, layers: seq<LayerState>, positions: seq<Pos>, out: Output)
    requires Admits(m, v, positions) && |out.hidden| == |positions|
    ensures Committed(m, v, positions, Advanced(v, layers, out.hidden, positions), out)
  {
    hide NextPosition;
    NextPositionLeast(v.nextPosition, positions);
  }
}
