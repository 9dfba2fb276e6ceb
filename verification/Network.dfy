/** The target network (src/model/native.rs) and its per-request state (src/engine/state.rs).

    The numeric kernels are parameters of a `Model` value: each maps one row to one row, and
    returns `None` where the engine detects a non-finite value or a bad shape.  What is modelled
    is the order in which the engine applies them: layer by layer over a whole chunk, on a
    checkpoint that replaces the request state only when every layer has succeeded. */
module Network {
  import opened Wrappers
  import Fold

  type Token = nat
  type Row = seq<real>

  /** One position per rotary axis; text uses the same number on all three. */
  datatype Pos = Pos(t: nat, h: nat, w: nat)

  datatype KvRow = KvRow(key: Row, value: Row)

  datatype LayerState =
    | AttentionState(rows: seq<KvRow>, maxTokens: nat)
    | RecurrentState(matrix: Row, convolution: Row)

  /** `attend` sees a raw query row, its position and the visible cache prefix;
      `recur` maps projected controls, matrix and convolution history to the same plus one row. */
  datatype Mixer =
    | Attention(query: Row -> Row, key: Row -> Row, value: Row -> Row, placeKey: (Row, Pos) -> Option<Row>,
                attend: (Row, Pos, seq<KvRow>) -> Option<Row>, output: Row -> Row)
    | Gdn(project: Row -> Row, recur: (Row, Row, Row) -> Option<(Row, Row, Row)>, output: Row -> Row)

  /** `finish` is the residual sum, the second norm and the gated MLP of one row. */
  datatype Block = Block(inputNorm: Row -> Option<Row>, mixer: Mixer, finish: (Row, Row) -> Option<Row>)

  datatype Model = Model(
    owner: nat, embedding: Token -> Row, blocks: seq<Block>, norm: Row -> Option<Row>,
    head: Row -> Option<Row>, vocab: nat, hidden: nat, maxPositions: nat, eos: set<Token>)
  {
    /** The shapes that loading the weights has checked. */
    ghost predicate Valid() {
      && 0 < vocab
      && (forall x :: head(x).Some? ==> |head(x).value| == vocab)
      && (forall x :: norm(x).Some? ==> |norm(x).value| == hidden)
    }
  }

  datatype Input = Input(row: Row, pos: Pos)

  datatype StateView = StateView(
    owner: nat, layers: seq<LayerState>, len: nat, nextPosition: nat, lastHidden: Row, maxContext: nat)

  datatype Output = Output(logits: seq<Row>, hidden: seq<Row>)

  // ---------------------------------------------------------------- one row through one block

  /** Appends the row's key and value and then attends to everything appended so far, or
      advances the recurrence by one row. */
  function MixRow(m: Mixer, st: LayerState, x: Row, pos: Pos): Option<(LayerState, Row)> {
    match (m, st)
    case (Attention(_, _, _, _, _, _), AttentionState(rows, maxTokens)) =>
      if |rows| >= maxTokens then None
      else
        var key :- m.placeKey(m.key(x), pos);
        var seen := rows + [KvRow(key, m.value(x))];
        var y :- m.attend(m.query(x), pos, seen);
        Some((AttentionState(seen, maxTokens), m.output(y)))
    case (Gdn(_, _, _), RecurrentState(matrix, convolution)) =>
      var (matrix', convolution', y) :- m.recur(m.project(x), matrix, convolution);
      Some((RecurrentState(matrix', convolution'), m.output(y)))
    case _ => None
  }

  function BlockRow(b: Block, st: LayerState, x: Input): Option<(LayerState, Row)> {
    var n :- b.inputNorm(x.row);
    var (st', mixed) :- MixRow(b.mixer, st, n, x.pos);
    var y :- b.finish(x.row, mixed);
    Some((st', y))
  }

  function MixStep(m: Mixer): (LayerState, Input) -> Option<(LayerState, Row)> {
    (st: LayerState, x: Input) => MixRow(m, st, x.row, x.pos)
  }

  function BlockStep(b: Block): (LayerState, Input) -> Option<(LayerState, Row)> {
    (st: LayerState, x: Input) => BlockRow(b, st, x)
  }

  function Inputs(rows: seq<Row>, positions: seq<Pos>): (r: seq<Input>)
    requires |rows| == |positions|
    ensures |r| == |rows|
  {
    seq(|rows|, i requires 0 <= i < |rows| => Input(rows[i], positions[i]))
  }

  // ---------------------------------------------------------------- one row through the network

  /** One row through every block in turn, and then the final norm. */
  function StackRow(blocks: seq<Block>, layers: seq<LayerState>, x: Input): (r: Option<(seq<LayerState>, Row)>)
    requires |blocks| == |layers|
    ensures r.Some? ==> |r.value.0| == |layers|
  {
    if |blocks| == 0 then Some(([], x.row))
    else
      var (first, y) :- BlockRow(blocks[0], layers[0], x);
      var (rest, z) :- StackRow(blocks[1..], layers[1..], Input(y, x.pos));
      Some(([first] + rest, z))
  }

  function StackStep(blocks: seq<Block>): (seq<LayerState>, Input) -> Option<(seq<LayerState>, Row)> {
    (layers: seq<LayerState>, x: Input) => if |layers| == |blocks| then StackRow(blocks, layers, x) else None
  }

  /** Every block over the whole chunk before the next block starts: the engine's order. */
  function Layerwise(blocks: seq<Block>, layers: seq<LayerState>, rows: seq<Row>, positions: seq<Pos>)
    : (r: Option<(seq<LayerState>, seq<Row>)>)
    requires |blocks| == |layers| && |rows| == |positions|
    ensures r.Some? ==> |r.value.0| == |layers| && |r.value.1| == |rows|
  {
    if |blocks| == 0 then Some(([], rows))
    else
      var (first, ys) :- Fold.Run(BlockStep(blocks[0]), layers[0], Inputs(rows, positions));
      var (rest, zs) :- Layerwise(blocks[1..], layers[1..], ys, positions);
      Some(([first] + rest, zs))
  }

  lemma InputsSnoc(rows: seq<Row>, positions: seq<Pos>, x: Row, p: Pos)
    requires |rows| == |positions|
    ensures Inputs(rows + [x], positions + [p]) == Inputs(rows, positions) + [Input(x, p)]
  {
  }

  lemma {:induction false} LayerwiseSnoc(blocks: seq<Block>, layers: seq<LayerState>, rows: seq<Row>,
      positions: seq<Pos>, x: Row, p: Pos)
    requires |blocks| == |layers| && |rows| == |positions|
    ensures Layerwise(blocks, layers, rows + [x], positions + [p]) ==
            match Layerwise(blocks, layers, rows, positions)
            case None => None
            case Some(a) =>
              match StackRow(blocks, a.0, Input(x, p))
              case None => None
              case Some(b) => Some((b.0, a.1 + [b.1]))
    decreases |blocks|
  {
    if |blocks| > 0 {
      InputsSnoc(rows, positions, x, p);
      var step := BlockStep(blocks[0]);
      Fold.Snoc(step, layers[0], Inputs(rows, positions), Input(x, p));
      match Fold.Run(step, layers[0], Inputs(rows, positions)) {
        case None =>
        case Some(a) =>
          match BlockRow(blocks[0], a.0, Input(x, p)) {
            case None =>
            case Some(b) =>
              LayerwiseSnoc(blocks[1..], layers[1..], a.1, positions, b.1, p);
          }
          if Layerwise(blocks[1..], layers[1..], a.1, positions).Some? {
            var rest := Layerwise(blocks[1..], layers[1..], a.1, positions).value;
            assert ([a.0] + rest.0)[1..] == rest.0;
          }
      }
    }
  }

  /** Running the network layer by layer over a chunk is running it row by row. */
  lemma {:induction false} LayerwiseIsRowwise(blocks: seq<Block>, layers: seq<LayerState>, rows: seq<Row>,
      positions: seq<Pos>)
    requires |blocks| == |layers| && |rows| == |positions|
    ensures Layerwise(blocks, layers, rows, positions) ==
            Fold.Run(StackStep(blocks), layers, Inputs(rows, positions))
    decreases |rows|
  {
    if |rows| == 0 {
      LayerwiseEmpty(blocks, layers);
      assert rows == [] && positions == [];
    } else {
      var n := |rows| - 1;
      assert rows == rows[..n] + [rows[n]] && positions == positions[..n] + [positions[n]];
      LayerwiseIsRowwise(blocks, layers, rows[..n], positions[..n]);
      LayerwiseSnoc(blocks, layers, rows[..n], positions[..n], rows[n], positions[n]);
      InputsSnoc(rows[..n], positions[..n], rows[n], positions[n]);
      Fold.Snoc(StackStep(blocks), layers, Inputs(rows[..n], positions[..n]), Input(rows[n], positions[n]));
    }
  }

  lemma {:induction false} LayerwiseEmpty(blocks: seq<Block>, layers: seq<LayerState>)
    requires |blocks| == |layers|
    ensures Layerwise(blocks, layers, [], []) == Some((layers, []))
  {
    if |blocks| > 0 {
      LayerwiseEmpty(blocks[1..], layers[1..]);
      assert [layers[0]] + layers[1..] == layers;
      assert Inputs([], []) == [];
    }
  }
}
