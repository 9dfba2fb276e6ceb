/** The one-layer draft model (src/model/mtp.rs) and its right-shifted alignment with the target.
    Row `i` of the draft layer pairs token `i` with the hidden row of token `i - 1`; the hidden row
    still waiting for its token is the tail. */
module Mtp {
  import opened Wrappers
  import opened Network
  import opened Forward
  import Chunks
  import Fold

  /** `stem` normalises one embedding and one hidden row and projects their concatenation. */
  datatype MtpModel = MtpModel(
    owner: nat, targetOwner: nat, stem: (Row, Row) -> Option<Row>, layer: Block, norm: Row -> Option<Row>,
    vocab: nat, hidden: nat, maxPositions: nat)

  datatype MtpView = MtpView(sequence: StateView, tailHidden: Option<Row>, tailPosition: Option<Pos>, lastLogits: Row)

  /** What one draft row consumes. */
  datatype MtpRow = MtpRow(token: Token, hidden: Row, pos: Pos)

  class MtpState {
    var sequence: SequenceState
    var tailHidden: Option<Row>
    var tailPosition: Option<Pos>
    var lastLogits: Row

    function View(): MtpView
      reads this, sequence
    {
      MtpView(sequence.View(), tailHidden, tailPosition, lastLogits)
    }

    constructor (v: MtpView)
      ensures View() == v && fresh(sequence)
    {
      sequence := new SequenceState(v.sequence);
      tailHidden, tailPosition, lastLogits := v.tailHidden, v.tailPosition, v.lastLogits;
    }

    method Checkpoint() returns (copy: MtpState)
      ensures fresh(copy) && fresh(copy.sequence) && copy.View() == View()
    {
      copy := new MtpState(View());
    }
  }

  // ---------------------------------------------------------------- running rows

  /** The draft layer with the target's head, as a network of one block. */
  function AsModel(mtp: MtpModel, target: Model): Model {
    Model(mtp.owner, target.embedding, [mtp.layer], mtp.norm, target.head, mtp.vocab, mtp.hidden, mtp.maxPositions, {})
  }

  function StemStep(mtp: MtpModel, target: Model): MtpRow -> Option<Row> {
    (r: MtpRow) => mtp.stem(target.embedding(r.token), r.hidden)
  }

  function Positions(rows: seq<MtpRow>): (r: seq<Pos>)
    ensures |r| == |rows|
  {
    seq(|rows|, i requires 0 <= i < |rows| => rows[i].pos)
  }

  predicate OwnState(mtp: MtpModel, v: MtpView) {
    v.sequence.owner == mtp.owner && |v.sequence.layers| == 1 && v.sequence.layers[0].AttentionState?
  }

  /** `run_rows`: the rows go through stem, layer, norm and head; only the last row has logits. */
  function RanRows(mtp: MtpModel, target: Model, v: MtpView, rows: seq<MtpRow>): Option<MtpView> {
    if !OwnState(mtp, v) || |rows| == 0 then None
    else
      var stems :- Fold.MapRows(StemStep(mtp, target), rows);
      var (sequence, out) :- Forwarded(AsModel(mtp, target), v.sequence, stems, Positions(rows), false);
      Some(v.(sequence := sequence, lastLogits := out.logits[0]))
  }

  lemma OneBlock(m: Model, layers: seq<LayerState>, rows: seq<Row>, positions: seq<Pos>)
    requires |m.blocks| == |layers| == 1 && |rows| == |positions|
    ensures Fold.Run(StackStep(m.blocks), layers, Inputs(rows, positions)) ==
            match Fold.Run(BlockStep(m.blocks[0]), layers[0], Inputs(rows, positions))
            case None => None
            case Some(a) => Some(([a.0], a.1))
  {
    LayerwiseIsRowwise(m.blocks, layers, rows, positions);
    if Fold.Run(BlockStep(m.blocks[0]), layers[0], Inputs(rows, positions)).Some? {
      var a := Fold.Run(BlockStep(m.blocks[0]), layers[0], Inputs(rows, positions)).value;
      assert Layerwise(m.blocks[1..], layers[1..], a.1, positions) == Some(([], a.1));
      assert [a.0] + [] == [a.0];
    }
  }

  /** The stages of `run_rows` on the layer's state, in the order the engine performs them: the state after
      them, the hidden rows and the last row's logits. */
  function LayerStages(mtp: MtpModel, target: Model, layer: LayerState, rows: seq<MtpRow>)
    : (r: Option<(LayerState, seq<Row>, Row)>)
    requires 0 < |rows|
    ensures r.Some? ==> |r.value.1| == |rows|
  {
    var stems :- Fold.MapRows(StemStep(mtp, target), rows);
    var (after, mixed) :- Fold.Run(BlockStep(mtp.layer), layer, Inputs(stems, Positions(rows)));
    var output :- Fold.MapRows(mtp.norm, mixed);
    var logits :- Fold.MapRows(target.head, [output[|output| - 1]]);
    Some((after, output, logits[0]))
  }

  function RowStages(mtp: MtpModel, target: Model, v: MtpView, rows: seq<MtpRow>): Option<MtpView>
    requires OwnState(mtp, v) && Admits(AsModel(mtp, target), v.sequence, Positions(rows))
  {
    var (layer, output, logits) :- LayerStages(mtp, target, v.sequence.layers[0], rows);
    Some(v.(sequence := Advanced(v.sequence, [layer], output, Positions(rows)), lastLogits := logits))
  }

  lemma StagesAreRanRows(mtp: MtpModel, target: Model, v: MtpView, rows: seq<MtpRow>)
    requires OwnState(mtp, v)
    ensures RanRows(mtp, target, v, rows) ==
            if Admits(AsModel(mtp, target), v.sequence, Positions(rows)) then RowStages(mtp, target, v, rows) else None
  {
    hide Fold.Run, Fold.MapRows, BlockRow, StackRow;
    var m := AsModel(mtp, target);
    if Admits(m, v.sequence, Positions(rows)) && Fold.MapRows(StemStep(mtp, target), rows).Some? {
      OneBlock(m, v.sequence.layers, Fold.MapRows(StemStep(mtp, target), rows).value, Positions(rows));
    }
  }

  method RunStages(mtp: MtpModel, target: Model, rows: seq<MtpRow>, layer: LayerState)
      returns (r: Option<(LayerState, seq<Row>, Row)>)
    requires 0 < |rows|
    ensures r == LayerStages(mtp, target, layer, rows)
  {
    hide Fold.Run, Fold.MapRows, BlockStep;
    var stems :- Fold.EachRow(StemStep(mtp, target), rows);
    var mixed :- BlockForward(mtp.layer, stems, Positions(rows), layer);
    var output :- Fold.EachRow(mtp.norm, mixed.1);
    var logits :- Fold.EachRow(target.head, [output[|output| - 1]]);
    r := Some((mixed.0, output, logits[0]));
  }

  method RunRows(mtp: MtpModel, target: Model, rows: seq<MtpRow>, state: MtpState) returns (r: Option<Row>)
    modifies state
    ensures fresh(state.sequence) || state.sequence == old(state.sequence)
    ensures match RanRows(mtp, target, old(state.View()), rows)
            case None => r.None? && state.View() == old(state.View())
            case Some(v) => state.View() == v && r == Some(v.lastLogits)
  {
    hide LayerStages, RanRows;
    if !OwnState(mtp, state.View()) || !Admits(AsModel(mtp, target), state.sequence.View(), Positions(rows)) {
      assert RanRows(mtp, target, state.View(), rows).None? by { RanRowsRefuses(mtp, target, state.View(), rows); }
      return None;
    }
    StagesAreRanRows(mtp, target, state.View(), rows);
    var candidate := state.sequence.Checkpoint();
    var stages :- RunStages(mtp, target, rows, candidate.layers[0]);
    var (layer, output, logits) := stages;
    candidate.layers := [layer];
    candidate.len := candidate.len + |rows|;
    candidate.nextPosition := HighestPosition(candidate.nextPosition, Positions(rows));
    candidate.lastHidden := output[|output| - 1];
    state.sequence := candidate;
    state.lastLogits := logits;
    r := Some(logits);
  }

  lemma RanRowsRefuses(mtp: MtpModel, target: Model, v: MtpView, rows: seq<MtpRow>)
    requires !OwnState(mtp, v) || !Admits(AsModel(mtp, target), v.sequence, Positions(rows))
    ensures RanRows(mtp, target, v, rows).None?
  {
  }

  // ---------------------------------------------------------------- prefill: the right shift

  function NextPos(p: Pos): Pos {
    Pos(p.t + 1, p.h + 1, p.w + 1)
  }

  /** The right shift of a whole stretch of text: token `i` with what stood at `i - 1`. */
  function Shifted(tokens: seq<Token>, hidden: seq<Row>, positions: seq<Pos>): (r: seq<MtpRow>)
    requires |tokens| == |hidden| == |positions|
  {
    if |tokens| == 0 then []
    else seq(|tokens| - 1, i requires 0 <= i < |tokens| - 1 => MtpRow(tokens[i + 1], hidden[i], positions[i]))
  }

  /** The rows one prefill call feeds: the tail, when there is one, pairs with the first token. */
  function PrefillRows(v: MtpView, tokens: seq<Token>, hidden: seq<Row>, positions: seq<Pos>): seq<MtpRow>
    requires 0 < |tokens| == |hidden| == |positions|
    requires v.tailHidden.Some? ==> v.tailPosition.Some?
  {
    (if v.tailHidden.Some? then [MtpRow(tokens[0], v.tailHidden.value, v.tailPosition.value)] else []) +
    Shifted(tokens, hidden, positions)
  }

  predicate PrefillOk(mtp: MtpModel, target: Model, v: MtpView, tokens: seq<Token>, hidden: seq<Row>,
      positions: seq<Pos>)
  {
    && target.owner == mtp.targetOwner && OwnState(mtp, v)
    && 0 < |tokens| == |hidden| == |positions|
    && (forall t | t in tokens :: t < mtp.vocab)
    && (forall p | p in positions :: Reach(p) < mtp.maxPositions)
    && (v.tailPosition.Some? ==> positions[0] == NextPos(v.tailPosition.value))
    && (v.tailHidden.Some? ==> v.tailPosition.Some?)
  }

  function Prefilled(mtp: MtpModel, target: Model, v: MtpView, tokens: seq<Token>, hidden: seq<Row>,
      positions: seq<Pos>)
    : (r: Option<MtpView>)
  {
    if !PrefillOk(mtp, target, v, tokens, hidden, positions) then None
    else
      var rows := PrefillRows(v, tokens, hidden, positions);
      var v' :- if |rows| == 0 then Some(v.(lastLogits := [])) else RanRows(mtp, target, v, rows);
      Some(v'.(tailHidden := Some(hidden[|hidden| - 1]), tailPosition := Some(positions[|positions| - 1])))
  }

  method Prefill(mtp: MtpModel, target: Model, tokens: seq<Token>, hidden: seq<Row>, positions: seq<Pos>,
      state: MtpState)
    returns (ok: bool)
    modifies state
    ensures fresh(state.sequence) || state.sequence == old(state.sequence)
    ensures match Prefilled(mtp, target, old(state.View()), tokens, hidden, positions)
            case None => !ok && state.View() == old(state.View())
            case Some(v) => ok && state.View() == v
  {
    hide RanRows, PrefillRows;
    if !PrefillOk(mtp, target, state.View(), tokens, hidden, positions) {
      return false;
    }
    var rows := BuildRows(state, tokens, hidden, positions);
    if |rows| > 0 {
      var logits := RunRows(mtp, target, rows, state);
      if logits.None? {
        return false;
      }
    } else {
      state.lastLogits := [];
    }
    state.tailHidden := Some(hidden[|hidden| - 1]);
    state.tailPosition := Some(positions[|positions| - 1]);
    ok := true;
  }

  lemma ShiftedSnoc(tokens: seq<Token>, hidden: seq<Row>, positions: seq<Pos>, i: nat)
    requires 0 < i < |tokens| == |hidden| == |positions|
    ensures Shifted(tokens[..i + 1], hidden[..i + 1], positions[..i + 1]) ==
            Shifted(tokens[..i], hidden[..i], positions[..i]) + [MtpRow(tokens[i], hidden[i - 1], positions[i - 1])]
  {
  }

  /** The rows of a prefill call, one after the other. */
  method BuildRows(state: MtpState, tokens: seq<Token>, hidden: seq<Row>, positions: seq<Pos>)
      returns (rows: seq<MtpRow>)
    requires 0 < |tokens| == |hidden| == |positions|
    requires state.tailHidden.Some? ==> state.tailPosition.Some?
    ensures rows == PrefillRows(state.View(), tokens, hidden, positions)
  {
    rows := [];
    if state.tailHidden.Some? {
      rows := [MtpRow(tokens[0], state.tailHidden.value, state.tailPosition.value)];
    }
    ghost var first := rows;
    assert first + Shifted(tokens[..1], hidden[..1], positions[..1]) == first;
    hide Shifted;
    for i := 1 to |tokens|
      invariant rows == first + Shifted(tokens[..i], hidden[..i], positions[..i])
    {
      ShiftedSnoc(tokens, hidden, positions, i);
      rows := rows + [MtpRow(tokens[i], hidden[i - 1], positions[i - 1])];
    }
    assert tokens[..|tokens|] == tokens && hidden[..|tokens|] == hidden && positions[..|tokens|] == positions;
  }

  // ---------------------------------------------------------------- prefill in chunks

  lemma RowsPlus(mtp: MtpModel, target: Model, rows: seq<MtpRow>, more: seq<MtpRow>)
    ensures Positions(rows + more) == Positions(rows) + Positions(more)
    ensures Fold.MapRows(StemStep(mtp, target), rows + more) ==
            match (Fold.MapRows(StemStep(mtp, target), rows), Fold.MapRows(StemStep(mtp, target), more))
            case (Some(a), Some(b)) => Some(a + b)
            case _ => None
  {
    hide Fold.MapRows;
    Chunks.MapSplit(StemStep(mtp, target), rows, more);
  }

  /** Rows run in two calls, wherever both succeed, are the rows run in one call. */
  lemma RanTwice(mtp: MtpModel, target: Model, v: MtpView, rows: seq<MtpRow>, more: seq<MtpRow>)
    requires 0 < |rows| && 0 < |more|
    requires RanRows(mtp, target, v, rows).Some?
    requires RanRows(mtp, target, RanRows(mtp, target, v, rows).value, more).Some?
    ensures RanRows(mtp, target, v, rows + more) == RanRows(mtp, target, RanRows(mtp, target, v, rows).value, more)
  {
    hide Forwarded, Fold.Run, Fold.MapRows;
    RowsPlus(mtp, target, rows, more);
    var m := AsModel(mtp, target);
    var s1, s2 := Fold.MapRows(StemStep(mtp, target), rows).value, Fold.MapRows(StemStep(mtp, target), more).value;
    var a, b := Chunks.Chunk(s1, Positions(rows)), Chunks.Chunk(s2, Positions(more));
    Chunks.TwoChunksLast(m, v.sequence, a, b);
  }

  /** Splitting a stretch of text splits its right shift at the tail. */
  lemma ShiftSplit(s: seq<Token>, t: seq<Token>, h: seq<Row>, g: seq<Row>, p: seq<Pos>, q: seq<Pos>)
    requires 0 < |s| == |h| == |p| && 0 < |t| == |g| == |q|
    ensures Shifted(s + t, h + g, p + q) ==
            Shifted(s, h, p) + [MtpRow(t[0], h[|h| - 1], p[|p| - 1])] + Shifted(t, g, q)
  {
    var all := Shifted(s + t, h + g, p + q);
    var parts := Shifted(s, h, p) + [MtpRow(t[0], h[|h| - 1], p[|p| - 1])] + Shifted(t, g, q);
    assert |all| == |parts|;
    forall i | 0 <= i < |all| ensures all[i] == parts[i] {
      ShiftedAt(s + t, h + g, p + q, i);
      if i < |s| - 1 {
        ShiftedAt(s, h, p, i);
      } else if |s| <= i {
        ShiftedAt(t, g, q, i - |s|);
      }
    }
  }

  lemma ShiftedAt(tokens: seq<Token>, hidden: seq<Row>, positions: seq<Pos>, i: nat)
    requires |tokens| == |hidden| == |positions| && i + 1 < |tokens|
    ensures Shifted(tokens, hidden, positions)[i] == MtpRow(tokens[i + 1], hidden[i], positions[i])
  {
  }

  /** The second call's contract, seen from the first: positions continue and vocabularies agree. */
  lemma JoinedOk(mtp: MtpModel, target: Model, v: MtpView, v1: MtpView, s: seq<Token>, t: seq<Token>, h: seq<Row>,
      g: seq<Row>, p: seq<Pos>, q: seq<Pos>)
    requires PrefillOk(mtp, target, v, s, h, p) && PrefillOk(mtp, target, v1, t, g, q)
    requires v1.tailHidden == Some(h[|h| - 1]) && v1.tailPosition == Some(p[|p| - 1])
    ensures PrefillOk(mtp, target, v, s + t, h + g, p + q)
  {
    assert forall x :: x in s + t <==> x in s || x in t;
    assert forall x :: x in p + q <==> x in p || x in q;
  }

  lemma JoinedRows(v: MtpView, v1: MtpView, s: seq<Token>, t: seq<Token>, h: seq<Row>, g: seq<Row>, p: seq<Pos>,
      q: seq<Pos>)
    requires 0 < |s| == |h| == |p| && 0 < |t| == |g| == |q|
    requires v.tailHidden.Some? ==> v.tailPosition.Some?
    requires v1.tailHidden == Some(h[|h| - 1]) && v1.tailPosition == Some(p[|p| - 1])
    ensures PrefillRows(v, s + t, h + g, p + q) == PrefillRows(v, s, h, p) + PrefillRows(v1, t, g, q)
  {
    hide Shifted;
    ShiftSplit(s, t, h, g, p, q);
  }

  /** Prefilling a prompt in two calls is prefilling it in one; so the rows ever fed to the draft
      layer are the right shift of the whole prompt, whatever the chunking. */
  lemma PrefillTwice(mtp: MtpModel, target: Model, v: MtpView, s: seq<Token>, t: seq<Token>, h: seq<Row>, g: seq<Row>,
      p: seq<Pos>, q: seq<Pos>)
    requires v.tailHidden.Some? <==> v.tailPosition.Some?
    requires Prefilled(mtp, target, v, s, h, p).Some?
    requires Prefilled(mtp, target, Prefilled(mtp, target, v, s, h, p).value, t, g, q).Some?
    ensures Prefilled(mtp, target, v, s + t, h + g, p + q) ==
            Prefilled(mtp, target, Prefilled(mtp, target, v, s, h, p).value, t, g, q)
  {
    hide RanRows;
    var v1 := Prefilled(mtp, target, v, s, h, p).value;
    JoinedOk(mtp, target, v, v1, s, t, h, g, p, q);
    JoinedRows(v, v1, s, t, h, g, p, q);
    IgnoresTail(mtp, target, v, v1, PrefillRows(v, s, h, p), PrefillRows(v1, t, g, q));
  }

  /** `run_rows` neither reads nor writes the tail. */
  lemma IgnoresTail(mtp: MtpModel, target: Model, v: MtpView, v1: MtpView, rows: seq<MtpRow>, more: seq<MtpRow>)
    requires 0 < |more| && RanRows(mtp, target, v1, more).Some?
    requires if |rows| == 0 then v1.sequence == v.sequence
             else RanRows(mtp, target, v, rows).Some? && v1.sequence == RanRows(mtp, target, v, rows).value.sequence
    ensures RanRows(mtp, target, v, rows + more).Some?
    ensures var after, all := RanRows(mtp, target, v1, more).value, RanRows(mtp, target, v, rows + more).value;
            all.sequence == after.sequence && all.lastLogits == after.lastLogits &&
            all.tailHidden == v.tailHidden && all.tailPosition == v.tailPosition &&
            after.tailHidden == v1.tailHidden && after.tailPosition == v1.tailPosition
  {
    hide Forwarded, Fold.Run, Fold.MapRows;
    if |rows| == 0 {
      assert rows + more == more;
    } else {
      RanTwice(mtp, target, v, rows, more);
    }
  }

  datatype Piece = Piece(tokens: seq<Token>, hidden: seq<Row>, positions: seq<Pos>)

  function JoinedPieces(pieces: seq<Piece>): Piece {
    if |pieces| == 0 then Piece([], [], [])
    else
      var front, last := JoinedPieces(pieces[..|pieces| - 1]), pieces[|pieces| - 1];
      Piece(front.tokens + last.tokens, front.hidden + last.hidden, front.positions + last.positions)
  }

  /** One prefill call per piece. */
  function PrefillAll(mtp: MtpModel, target: Model, v: MtpView, pieces: seq<Piece>): Option<MtpView> {
    if |pieces| == 0 then Some(v)
    else
      var before :- PrefillAll(mtp, target, v, pieces[..|pieces| - 1]);
      var last := pieces[|pieces| - 1];
      Prefilled(mtp, target, before, last.tokens, last.hidden, last.positions)
  }

  /** From a state without a tail, any chunking of the prompt that succeeds feeds the draft layer
      exactly the right shift of the whole prompt and leaves the last target row as the tail. */
  lemma {:induction false} ChunkedPrefillIsRightShift(mtp: MtpModel, target: Model, v: MtpView, pieces: seq<Piece>)
    requires v.tailHidden == None && v.tailPosition == None && 0 < |pieces|
    requires PrefillAll(mtp, target, v, pieces).Some?
    ensures var whole, end := JoinedPieces(pieces), PrefillAll(mtp, target, v, pieces).value;
            && PrefillOk(mtp, target, v, whole.tokens, whole.hidden, whole.positions)
            && end.tailHidden == Some(whole.hidden[|whole.hidden| - 1])
            && end.tailPosition == Some(whole.positions[|whole.positions| - 1])
            && var rows := Shifted(whole.tokens, whole.hidden, whole.positions);
               if |rows| == 0 then end.sequence == v.sequence && end.lastLogits == []
               else RanRows(mtp, target, v, rows).Some? &&
                    end.sequence == RanRows(mtp, target, v, rows).value.sequence &&
                    end.lastLogits == RanRows(mtp, target, v, rows).value.lastLogits
  {
    hide RanRows;
    ChunkedPrefillIsPrefill(mtp, target, v, pieces);
    var whole := JoinedPieces(pieces);
    assert [] + Shifted(whole.tokens, whole.hidden, whole.positions) ==
        Shifted(whole.tokens, whole.hidden, whole.positions);
  }

  lemma {:induction false} ChunkedPrefillIsPrefill(mtp: MtpModel, target: Model, v: MtpView, pieces: seq<Piece>)
    requires v.tailHidden == None && v.tailPosition == None && 0 < |pieces|
    requires PrefillAll(mtp, target, v, pieces).Some?
    ensures var whole := JoinedPieces(pieces);
            PrefillAll(mtp, target, v, pieces) == Prefilled(mtp, target, v, whole.tokens, whole.hidden, whole.positions)
    decreases |pieces|
  {
    hide RanRows;
    var front, last := pieces[..|pieces| - 1], pieces[|pieces| - 1];
    if |front| == 0 {
      assert [] + last.tokens == last.tokens && [] + last.hidden == last.hidden &&
          [] + last.positions == last.positions;
    } else {
      ChunkedPrefillIsPrefill(mtp, target, v, front);
      var w := JoinedPieces(front);
      PrefillTwice(mtp, target, v, w.tokens, last.tokens, w.hidden, last.hidden, w.positions, last.positions);
    }
  }

  // ---------------------------------------------------------------- one token at a time

  /** `step_with_hidden`: the token pairs with `hidden`, or with the tail. */
  function Stepped(mtp: MtpModel, target: Model, v: MtpView, token: Token, hidden: Option<Row>): Option<MtpView> {
    if target.owner != mtp.targetOwner || !OwnState(mtp, v) || token >= mtp.vocab then None
    else
      var source :- if hidden.Some? then hidden else v.tailHidden;
      if |source| != mtp.hidden then None
      else
        var pos :- v.tailPosition;
        var v' :- RanRows(mtp, target, v, [MtpRow(token, source, pos)]);
        Some(v'.(tailHidden := Some(v'.sequence.lastHidden), tailPosition := Some(NextPos(pos))))
  }

  method StepWithHidden(mtp: MtpModel, target: Model, token: Token, hidden: Option<Row>, state: MtpState)
      returns (r: Option<Row>)
    modifies state
    ensures fresh(state.sequence) || state.sequence == old(state.sequence)
    ensures match Stepped(mtp, target, old(state.View()), token, hidden)
            case None => r.None? && state.View() == old(state.View())
            case Some(v) => state.View() == v && r == Some(v.lastLogits)
  {
    hide RanRows;
    if target.owner != mtp.targetOwner || !OwnState(mtp, state.View()) || token >= mtp.vocab {
      return None;
    }
    var source :- if hidden.Some? then hidden else state.tailHidden;
    if |source| != mtp.hidden {
      return None;
    }
    var position :- state.tailPosition;
    var logits :- RunRows(mtp, target, [MtpRow(token, source, position)], state);
    state.tailHidden := Some(state.sequence.lastHidden);
    state.tailPosition := Some(NextPos(position));
    r := Some(logits);
  }

  /** `replay`: the first token takes the tail, every later one the target row before it. */
  function Replayed(mtp: MtpModel, target: Model, v: MtpView, tokens: seq<Token>, hidden: seq<Row>): Option<MtpView>
    requires |tokens| == |hidden|
  {
    if |tokens| == 0 then Some(v)
    else
      var n := |tokens| - 1;
      var v1 :- Replayed(mtp, target, v, tokens[..n], hidden[..n]);
      Stepped(mtp, target, v1, tokens[n], if n == 0 then None else Some(hidden[n - 1]))
  }

  lemma {:induction false} ReplayPrefixFails(mtp: MtpModel, target: Model, v: MtpView, tokens: seq<Token>,
      hidden: seq<Row>, n: nat)
    requires n <= |tokens| == |hidden|
    requires Replayed(mtp, target, v, tokens[..n], hidden[..n]).None?
    ensures Replayed(mtp, target, v, tokens, hidden).None?
    decreases |tokens|
  {
    hide Stepped;
    if n == |tokens| {
      assert tokens[..n] == tokens && hidden[..n] == hidden;
    } else {
      var k := |tokens| - 1;
      assert tokens[..k][..n] == tokens[..n] && hidden[..k][..n] == hidden[..n];
      ReplayPrefixFails(mtp, target, v, tokens[..k], hidden[..k], n);
    }
  }

  /** What a replay feeds: the first token with the tail, every later token with the target row of the
      token before it, at consecutive positions. */
  function ReplayRows(tail: Row, first: Pos, tokens: seq<Token>, hidden: seq<Row>): (r: seq<MtpRow>)
    requires |tokens| == |hidden|
    ensures |r| == |tokens|
  {
    seq(|tokens|, i requires 0 <= i < |tokens| =>
        MtpRow(tokens[i], if i == 0 then tail else hidden[i - 1], Pos(first.t + i, first.h + i, first.w + i)))
  }

  /** `v'` is `v` after one call on the rows of a replay; its tail is what that call left last. */
  predicate Replays(mtp: MtpModel, target: Model, v: MtpView, tokens: seq<Token>, hidden: seq<Row>, v': MtpView)
    requires 0 < |tokens| == |hidden|
  {
    && v.tailHidden.Some? && v.tailPosition.Some?
    && var first := v.tailPosition.value;
       var ran := RanRows(mtp, target, v, ReplayRows(v.tailHidden.value, first, tokens, hidden));
       var n := |tokens|;
       && ran.Some? && v'.sequence == ran.value.sequence && v'.lastLogits == ran.value.lastLogits
       && v'.tailHidden == Some(v'.sequence.lastHidden)
       && v'.tailPosition == Some(Pos(first.t + n, first.h + n, first.w + n))
  }

  /** Replaying token by token is one call on the shifted rows. */
  lemma {:induction false} ReplayIsShift(mtp: MtpModel, target: Model, v: MtpView, tokens: seq<Token>, hidden: seq<Row>)
    requires 0 < |tokens| == |hidden| && Replayed(mtp, target, v, tokens, hidden).Some?
    ensures Replays(mtp, target, v, tokens, hidden, Replayed(mtp, target, v, tokens, hidden).value)
    decreases |tokens|
  {
    hide RanRows;
    var n := |tokens| - 1;
    var front, behind := tokens[..n], hidden[..n];
    var v1 := Replayed(mtp, target, v, front, behind).value;
    if n == 0 {
      assert ReplayRows(v.tailHidden.value, v.tailPosition.value, tokens, hidden) ==
          [MtpRow(tokens[0], v.tailHidden.value, v.tailPosition.value)];
    } else {
      ReplayIsShift(mtp, target, v, front, behind);
      var tail, first := v.tailHidden.value, v.tailPosition.value;
      var row := MtpRow(tokens[n], hidden[n - 1], v1.tailPosition.value);
      assert ReplayRows(tail, first, tokens, hidden) == ReplayRows(tail, first, front, behind) + [row];
      IgnoresTail(mtp, target, v, v1, ReplayRows(tail, first, front, behind), [row]);
    }
  }

  /** On failure the caller drops this copy, so nothing is promised about it. */
  method Replay(mtp: MtpModel, target: Model, tokens: seq<Token>, hidden: seq<Row>, state: MtpState) returns (ok: bool)
    requires |tokens| == |hidden|
    modifies state
    ensures fresh(state.sequence) || state.sequence == old(state.sequence)
    ensures match Replayed(mtp, target, old(state.View()), tokens, hidden)
            case None => !ok
            case Some(v) => ok && state.View() == v
    ensures ok && 0 < |tokens| ==> Replays(mtp, target, old(state.View()), tokens, hidden, state.View())
  {
    hide Stepped, Replays;
    for i := 0 to |tokens|
      invariant fresh(state.sequence) || state.sequence == old(state.sequence)
      invariant Replayed(mtp, target, old(state.View()), tokens[..i], hidden[..i]) == Some(state.View())
    {
      assert tokens[..i + 1][..i] == tokens[..i] && hidden[..i + 1][..i] == hidden[..i];
      var logits := StepWithHidden(mtp, target, tokens[i], if i == 0 then None else Some(hidden[i - 1]), state);
      if logits.None? {
        ReplayPrefixFails(mtp, target, old(state.View()), tokens, hidden, i + 1);
        return false;
      }
    }
    assert tokens[..|tokens|] == tokens && hidden[..|tokens|] == hidden;
    if 0 < |tokens| {
      ReplayIsShift(mtp, target, old(state.View()), tokens, hidden);
    }
    ok := true;
  }

  /** `seed_from_target`: only when the request was never prefilled through the draft model. */
  function Seeded(mtp: MtpModel, v: MtpView, target: StateView): Option<MtpView> {
    if !OwnState(mtp, v) || target.owner != mtp.targetOwner then None
    else if v.tailHidden.Some? then Some(v)
    else if |target.lastHidden| != mtp.hidden || target.nextPosition == 0 then None
    else
      var p := target.nextPosition - 1;
      Some(v.(tailHidden := Some(target.lastHidden), tailPosition := Some(Pos(p, p, p))))
  }

  method SeedFromTarget(mtp: MtpModel, target: SequenceState, state: MtpState) returns (ok: bool)
    modifies state
    ensures state.sequence == old(state.sequence)
    ensures match Seeded(mtp, old(state.View()), target.View())
            case None => !ok && state.View() == old(state.View())
            case Some(v) => ok && state.View() == v
  {
    if !OwnState(mtp, state.View()) || target.owner != mtp.targetOwner {
      return false;
    }
    if state.tailHidden.Some? {
      return true;
    }
    if |target.lastHidden| != mtp.hidden || target.nextPosition == 0 {
      return false;
    }
    state.tailHidden := Some(target.lastHidden);
    var p := target.nextPosition - 1;
    state.tailPosition := Some(Pos(p, p, p));
    ok := true;
  }
}
