/** Cutting an input into chunks does not change what the network computes. */
module Chunks {
  import opened Wrappers
  import opened Network
  import opened Forward
  import Fold

  datatype Chunk = Chunk(rows: seq<Row>, positions: seq<Pos>) {
    predicate Valid() {
      0 < |rows| == |positions|
    }

    function Plus(next: Chunk): Chunk {
      Chunk(rows + next.rows, positions + next.positions)
    }
  }

  function Call(m: Model, v: StateView, c: Chunk, allLogits: bool): Option<(StateView, Output)>
    requires c.Valid()
  {
    Forwarded(m, v, c.rows, c.positions, allLogits)
  }

  /** Two calls in a row: hidden rows accumulate, and so do logits when every row has them. */
  function CallTwice(m: Model, v: StateView, a: Chunk, b: Chunk, allLogits: bool): Option<(StateView, Output)>
    requires a.Valid() && b.Valid()
  {
    var (v1, o1) :- Call(m, v, a, allLogits);
    var (v2, o2) :- Call(m, v1, b, allLogits);
    Some((v2, Combined(o1, o2, allLogits)))
  }

  function Combined(o1: Output, o2: Output, allLogits: bool): Output {
    Output(if allLogits then o1.logits + o2.logits else o2.logits, o1.hidden + o2.hidden)
  }

  lemma {:induction false} NextPositionSplit(prior: nat, ps: seq<Pos>, qs: seq<Pos>)
    ensures NextPosition(prior, ps + qs) == NextPosition(NextPosition(prior, ps), qs)
    decreases |qs|
  {
    if |qs| == 0 {
      assert ps + qs == ps;
    } else {
      assert (ps + qs)[..|ps + qs| - 1] == ps + qs[..|qs| - 1];
      NextPositionSplit(prior, ps, qs[..|qs| - 1]);
    }
  }

  lemma {:induction false} MapSplit<I, O>(f: I -> Option<O>, xs: seq<I>, ys: seq<I>)
    ensures Fold.MapRows(f, xs + ys) ==
            match (Fold.MapRows(f, xs), Fold.MapRows(f, ys))
            case (Some(a), Some(b)) => Some(a + b)
            case _ => None
    decreases |ys|
  {
    if |ys| == 0 {
      assert xs + ys == xs;
      if Fold.MapRows(f, xs).Some? {
        assert Fold.MapRows(f, xs).value + [] == Fold.MapRows(f, xs).value;
      }
    } else {
      assert (xs + ys)[..|xs + ys| - 1] == xs + ys[..|ys| - 1];
      MapSplit(f, xs, ys[..|ys| - 1]);
      if Fold.MapRows(f, xs).Some? && Fold.MapRows(f, ys).Some? {
        var a, b := Fold.MapRows(f, xs).value, Fold.MapRows(f, ys[..|ys| - 1]).value;
        var y := f(ys[|ys| - 1]).value;
        assert (a + b) + [y] == a + (b + [y]);
      }
    }
  }

  lemma LastMapped<I, O>(f: I -> Option<O>, xs: seq<I>)
    requires 0 < |xs| && Fold.MapRows(f, xs).Some?
    ensures Fold.MapRows(f, [xs[|xs| - 1]]) == Some([Fold.MapRows(f, xs).value[|xs| - 1]])
  {
    var last := xs[|xs| - 1];
    var one := [last];
    var y := f(last).value;
    assert one[..0] == [] && Fold.MapRows(f, one) == Some([] + [y]);
    assert [] + [y] == [y];
  }

  /** What the last-row-only call and the all-rows call have in common. */
  lemma LastRowOnly(m: Model, v: StateView, c: Chunk)
    requires c.Valid() && Call(m, v, c, true).Some?
    ensures var all := Call(m, v, c, true).value;
            Call(m, v, c, false) == Some((all.0, Output([all.1.logits[|c.rows| - 1]], all.1.hidden)))
  {
    LastMapped(m.head, HiddenRows(m, v.layers, Inputs(c.rows, c.positions)).value.1);
  }

  /** A successful run keeps one state per block. */
  lemma {:induction false} RowwiseLength(blocks: seq<Block>, layers: seq<LayerState>, xs: seq<Input>)
    requires |blocks| == |layers| && Fold.Run(StackStep(blocks), layers, xs).Some?
    ensures |Fold.Run(StackStep(blocks), layers, xs).value.0| == |blocks|
    decreases |xs|
  {
    if |xs| > 0 {
      RowwiseLength(blocks, layers, xs[..|xs| - 1]);
    }
  }

  lemma HiddenSplit(m: Model, layers: seq<LayerState>, xs: seq<Input>, zs: seq<Input>)
    requires |layers| == |m.blocks|
    ensures HiddenRows(m, layers, xs).Some? ==> |HiddenRows(m, layers, xs).value.0| == |m.blocks|
    ensures HiddenRows(m, layers, xs + zs) ==
            match HiddenRows(m, layers, xs)
            case None => None
            case Some(a) =>
              match HiddenRows(m, a.0, zs)
              case None => None
              case Some(b) => Some((b.0, a.1 + b.1))
  {
    var step := StackStep(m.blocks);
    Fold.Split(step, layers, xs, zs);
    match Fold.Run(step, layers, xs) {
      case None =>
      case Some(p) =>
        RowwiseLength(m.blocks, layers, xs);
        match Fold.Run(step, p.0, zs) {
          case None =>
          case Some(q) => MapSplit(m.norm, p.1, q.1);
        }
    }
  }

  lemma AdmitsSplit(m: Model, v: StateView, v1: StateView, a: Chunk, b: Chunk)
    requires a.Valid() && b.Valid()
    requires v1.len == v.len + |a.rows| && v1.maxContext == v.maxContext
    requires v1.owner == v.owner && |v1.layers| == |v.layers|
    ensures Admits(m, v, a.Plus(b).positions) <==> Admits(m, v, a.positions) && Admits(m, v1, b.positions)
  {
    assert forall p :: p in a.positions + b.positions <==> p in a.positions || p in b.positions;
  }

  /** The hidden rows and the state of both chunks, seen as one call or as two. */
  ghost predicate Hides(m: Model, v: StateView, c: Chunk, layers: seq<LayerState>, hidden: seq<Row>)
    requires c.Valid()
  {
    Admits(m, v, c.positions) && HiddenRows(m, v.layers, Inputs(c.rows, c.positions)) == Some((layers, hidden))
  }

  /** The rows of one call without the head: states and hidden rows, or a refusal. */
  function RowsOf(m: Model, v: StateView, c: Chunk): (r: Option<(seq<LayerState>, seq<Row>)>)
    requires c.Valid()
    ensures r.Some? ==> |r.value.1| == |c.rows|
  {
    if Admits(m, v, c.positions) then HiddenRows(m, v.layers, Inputs(c.rows, c.positions)) else None
  }

  /** A call succeeds exactly when its rows do and the head accepts the rows it projects. */
  lemma CallIs(m: Model, v: StateView, c: Chunk, layers: seq<LayerState>, hidden: seq<Row>, allLogits: bool)
    requires c.Valid() && Hides(m, v, c, layers, hidden)
    ensures Call(m, v, c, allLogits) ==
            match Fold.MapRows(m.head, if allLogits then hidden else [hidden[|hidden| - 1]])
            case None => None
            case Some(logits) => Some((Advanced(v, layers, hidden, c.positions), Output(logits, hidden)))
  {
    hide HiddenRows, Admits, Fold.MapRows, Fold.Run, Advanced, Inputs;
  }

  lemma AdmitsShape(m: Model, v: StateView, positions: seq<Pos>)
    requires Admits(m, v, positions)
    ensures |v.layers| == |m.blocks|
  {
  }

  lemma BothHide(m: Model, v: StateView, a: Chunk, b: Chunk, l1: seq<LayerState>, h1: seq<Row>, l2: seq<LayerState>,
      h2: seq<Row>)
    requires a.Valid() && b.Valid()
    requires Hides(m, v, a, l1, h1) && |l1| == |m.blocks|
    requires Hides(m, Advanced(v, l1, h1, a.positions), b, l2, h2)
    ensures Hides(m, v, a.Plus(b), l2, h1 + h2)
    ensures Advanced(v, l2, h1 + h2, a.Plus(b).positions) ==
            Advanced(Advanced(v, l1, h1, a.positions), l2, h2, b.positions)
  {
    hide HiddenRows, Admits, Fold.Run, Fold.MapRows;
    AdmitsShape(m, v, a.positions);
    assert Inputs(a.Plus(b).rows, a.Plus(b).positions) == Inputs(a.rows, a.positions) + Inputs(b.rows, b.positions);
    HiddenSplit(m, v.layers, Inputs(a.rows, a.positions), Inputs(b.rows, b.positions));
    AdmitsSplit(m, v, Advanced(v, l1, h1, a.positions), a, b);
    NextPositionSplit(v.nextPosition, a.positions, b.positions);
  }

  /** When the rows of both chunks go through in one call, they do in two. */
  lemma WholeHides(m: Model, v: StateView, a: Chunk, b: Chunk)
      returns (l1: seq<LayerState>, h1: seq<Row>, l2: seq<LayerState>, h2: seq<Row>)
    requires a.Valid() && b.Valid()
    requires Admits(m, v, a.Plus(b).positions)
    requires HiddenRows(m, v.layers, Inputs(a.Plus(b).rows, a.Plus(b).positions)).Some?
    ensures Hides(m, v, a, l1, h1) && |l1| == |m.blocks|
    ensures Hides(m, Advanced(v, l1, h1, a.positions), b, l2, h2)
  {
    assert Inputs(a.Plus(b).rows, a.Plus(b).positions) == Inputs(a.rows, a.positions) + Inputs(b.rows, b.positions);
    HiddenSplit(m, v.layers, Inputs(a.rows, a.positions), Inputs(b.rows, b.positions));
    var first := HiddenRows(m, v.layers, Inputs(a.rows, a.positions)).value;
    l1, h1 := first.0, first.1;
    var second := HiddenRows(m, l1, Inputs(b.rows, b.positions)).value;
    l2, h2 := second.0, second.1;
    AdmitsSplit(m, v, Advanced(v, l1, h1, a.positions), a, b);
  }

  /** With logits for every row, one call on both chunks is exactly two calls, failures included. */
  lemma TwoChunksAll(m: Model, v: StateView, a: Chunk, b: Chunk)
    requires a.Valid() && b.Valid()
    ensures Call(m, v, a.Plus(b), true) == CallTwice(m, v, a, b, true)
  {
    if Call(m, v, a.Plus(b), true).Some? {
      var l1, h1, l2, h2 := WholeHides(m, v, a, b);
      TwoChunksGiven(m, v, a, b, l1, h1, l2, h2);
    } else if CallTwice(m, v, a, b, true).Some? {
      var l1, h1, l2, h2 := TwiceHides(m, v, a, b, true);
      TwoChunksGiven(m, v, a, b, l1, h1, l2, h2);
    }
  }

  lemma TwiceHides(m: Model, v: StateView, a: Chunk, b: Chunk, allLogits: bool)
      returns (l1: seq<LayerState>, h1: seq<Row>, l2: seq<LayerState>, h2: seq<Row>)
    requires a.Valid() && b.Valid() && CallTwice(m, v, a, b, allLogits).Some?
    ensures Hides(m, v, a, l1, h1) && |l1| == |m.blocks|
    ensures Hides(m, Advanced(v, l1, h1, a.positions), b, l2, h2)
  {
    var first := HiddenRows(m, v.layers, Inputs(a.rows, a.positions)).value;
    l1, h1 := first.0, first.1;
    HiddenSplit(m, v.layers, Inputs(a.rows, a.positions), []);
    var second := HiddenRows(m, l1, Inputs(b.rows, b.positions)).value;
    l2, h2 := second.0, second.1;
  }

  lemma TwoChunksGiven(m: Model, v: StateView, a: Chunk, b: Chunk, l1: seq<LayerState>, h1: seq<Row>,
      l2: seq<LayerState>, h2: seq<Row>)
    requires a.Valid() && b.Valid()
    requires Hides(m, v, a, l1, h1) && |l1| == |m.blocks|
    requires Hides(m, Advanced(v, l1, h1, a.positions), b, l2, h2)
    ensures Call(m, v, a.Plus(b), true) == CallTwice(m, v, a, b, true)
  {
    BothHide(m, v, a, b, l1, h1, l2, h2);
    CallIs(m, v, a, l1, h1, true);
    CallIs(m, Advanced(v, l1, h1, a.positions), b, l2, h2, true);
    CallIs(m, v, a.Plus(b), l2, h1 + h2, true);
    MapSplit(m.head, h1, h2);
  }

  lemma HeadOne(m: Model, row: Row)
    ensures Fold.MapRows(m.head, [row]).Some? <==> m.head(row).Some?
  {
    var rows := [row];
    assert rows[0] == row;
  }

  /** With last-row logits, two calls succeed exactly when all rows of both chunks do and the head accepts the
      last row of each; and then they are the single call. */
  lemma TwoChunksLast(m: Model, v: StateView, a: Chunk, b: Chunk)
    requires a.Valid() && b.Valid()
    ensures CallTwice(m, v, a, b, false).Some? ==> Call(m, v, a.Plus(b), false) == CallTwice(m, v, a, b, false)
    ensures CallTwice(m, v, a, b, false).Some? <==>
              && RowsOf(m, v, a.Plus(b)).Some?
              && var hidden := RowsOf(m, v, a.Plus(b)).value.1;
                m.head(hidden[|a.rows| - 1]).Some? && m.head(hidden[|hidden| - 1]).Some?
    ensures RowsOf(m, v, a.Plus(b)).Some? ==>
              && RowsOf(m, v, a).Some?
              && RowsOf(m, v, a).value.1 == RowsOf(m, v, a.Plus(b)).value.1[..|a.rows|]
  {
    hide HiddenRows, Fold.MapRows, Forwarded, Admits;
    if RowsOf(m, v, a.Plus(b)).Some? {
      var l1, h1, l2, h2 := WholeHides(m, v, a, b);
      LastGiven(m, v, a, b, l1, h1, l2, h2);
    } else if CallTwice(m, v, a, b, false).Some? {
      var l1, h1, l2, h2 := TwiceHides(m, v, a, b, false);
      LastGiven(m, v, a, b, l1, h1, l2, h2);
    }
  }

  lemma LastGiven(m: Model, v: StateView, a: Chunk, b: Chunk, l1: seq<LayerState>, h1: seq<Row>, l2: seq<LayerState>,
      h2: seq<Row>)
    requires a.Valid() && b.Valid()
    requires Hides(m, v, a, l1, h1) && |l1| == |m.blocks|
    requires Hides(m, Advanced(v, l1, h1, a.positions), b, l2, h2)
    ensures RowsOf(m, v, a) == Some((l1, h1)) && RowsOf(m, v, a.Plus(b)) == Some((l2, h1 + h2))
    ensures |h1| == |a.rows| && |h2| == |b.rows| && (h1 + h2)[..|a.rows|] == h1
    ensures (h1 + h2)[|a.rows| - 1] == h1[|h1| - 1] && (h1 + h2)[|h1 + h2| - 1] == h2[|h2| - 1]
    ensures CallTwice(m, v, a, b, false).Some? <==> m.head(h1[|h1| - 1]).Some? && m.head(h2[|h2| - 1]).Some?
    ensures CallTwice(m, v, a, b, false).Some? ==> Call(m, v, a.Plus(b), false) == CallTwice(m, v, a, b, false)
  {
    hide HiddenRows, Fold.MapRows, Forwarded, Admits;
    BothHide(m, v, a, b, l1, h1, l2, h2);
    CallIs(m, v, a, l1, h1, false);
    CallIs(m, Advanced(v, l1, h1, a.positions), b, l2, h2, false);
    CallIs(m, v, a.Plus(b), l2, h1 + h2, false);
    HeadOne(m, h1[|h1| - 1]);
    HeadOne(m, h2[|h2| - 1]);
  }

  /** Inside a successful last-row call, the second part succeeds once the first one has. */
  lemma SecondOfWhole(m: Model, v: StateView, a: Chunk, b: Chunk)
    requires a.Valid() && b.Valid()
    requires Call(m, v, a.Plus(b), false).Some? && Call(m, v, a, false).Some?
    ensures CallTwice(m, v, a, b, false).Some?
  {
    var l1, h1, l2, h2 := WholeHides(m, v, a, b);
    BothHide(m, v, a, b, l1, h1, l2, h2);
    CallIs(m, v, a, l1, h1, false);
    CallIs(m, Advanced(v, l1, h1, a.positions), b, l2, h2, false);
    CallIs(m, v, a.Plus(b), l2, h1 + h2, false);
  }

  // ---------------------------------------------------------------- any number of chunks

  function Joined(chunks: seq<Chunk>): Chunk
    requires 0 < |chunks|
  {
    if |chunks| == 1 then chunks[0] else Joined(chunks[..|chunks| - 1]).Plus(chunks[|chunks| - 1])
  }

  lemma {:induction false} JoinedValid(chunks: seq<Chunk>)
    requires 0 < |chunks| && forall c | c in chunks :: c.Valid()
    ensures Joined(chunks).Valid()
    decreases |chunks|
  {
    assert chunks[|chunks| - 1].Valid();
    if |chunks| > 1 {
      JoinedValid(chunks[..|chunks| - 1]);
    }
  }

  /** One call per chunk, in order. */
  function RunChunks(m: Model, v: StateView, chunks: seq<Chunk>, allLogits: bool): Option<(StateView, Output)>
    requires 0 < |chunks| && forall c | c in chunks :: c.Valid()
  {
    var last := chunks[|chunks| - 1];
    if |chunks| == 1 then Call(m, v, last, allLogits)
    else
      var (v1, o1) :- RunChunks(m, v, chunks[..|chunks| - 1], allLogits);
      var (v2, o2) :- Call(m, v1, last, allLogits);
      Some((v2, Combined(o1, o2, allLogits)))
  }

  /** Any split into non-empty chunks, with logits for every row, is one call. */
  lemma {:induction false} ChunkInvariance(m: Model, v: StateView, chunks: seq<Chunk>)
    requires 0 < |chunks| && forall c | c in chunks :: c.Valid()
    ensures Joined(chunks).Valid()
    ensures RunChunks(m, v, chunks, true) == Call(m, v, Joined(chunks), true)
    decreases |chunks|
  {
    JoinedValid(chunks);
    if |chunks| > 1 {
      ChunkInvariance(m, v, chunks[..|chunks| - 1]);
      TwoChunksAll(m, v, Joined(chunks[..|chunks| - 1]), chunks[|chunks| - 1]);
    }
  }

  /** The head accepts the last row of every chunk. */
  ghost predicate HeadsAccept(m: Model, hidden: seq<Row>, chunks: seq<Chunk>)
    requires 0 < |chunks|
    decreases |chunks|
  {
    var n := |chunks| - 1;
    && 0 < |hidden| && m.head(hidden[|hidden| - 1]).Some?
    && (0 < n ==>
          var front := |Joined(chunks[..n]).rows|;
          front <= |hidden| && HeadsAccept(m, hidden[..front], chunks[..n]))
  }

  /** Any split with last-row logits agrees with one call wherever it succeeds, and it succeeds exactly when all
      rows do and the head accepts the last row of every chunk. */
  lemma {:induction false} ChunkInvarianceLast(m: Model, v: StateView, chunks: seq<Chunk>)
    requires 0 < |chunks| && forall c | c in chunks :: c.Valid()
    ensures Joined(chunks).Valid()
    ensures RunChunks(m, v, chunks, false).Some? ==> RunChunks(m, v, chunks, false) == Call(m, v, Joined(chunks), false)
    ensures RunChunks(m, v, chunks, false).Some? <==>
              RowsOf(m, v, Joined(chunks)).Some? && HeadsAccept(m, RowsOf(m, v, Joined(chunks)).value.1, chunks)
    decreases |chunks|
  {
    hide RowsOf, Call, CallTwice;
    JoinedValid(chunks);
    if |chunks| > 1 {
      var front, last := chunks[..|chunks| - 1], chunks[|chunks| - 1];
      ChunkInvarianceLast(m, v, front);
      TwoChunksLast(m, v, Joined(front), last);
      TwiceIs(m, v, Joined(front), last);
    } else {
      OneChunkLast(m, v, chunks[0]);
    }
  }

  lemma TwiceIs(m: Model, v: StateView, a: Chunk, b: Chunk)
    requires a.Valid() && b.Valid()
    ensures CallTwice(m, v, a, b, false) ==
            match Call(m, v, a, false)
            case None => None
            case Some(x) => match Call(m, x.0, b, false) case None => None case Some(y) =>
              Some((y.0, Combined(x.1, y.1, false)))
  {
    hide Call;
  }

  lemma OneChunkLast(m: Model, v: StateView, c: Chunk)
    requires c.Valid()
    ensures Call(m, v, c, false).Some? <==> RowsOf(m, v, c).Some? && m.head(RowsOf(m, v, c).value.1[|c.rows| - 1]).Some?
  {
    hide HiddenRows, Fold.MapRows, Admits;
    if RowsOf(m, v, c).Some? {
      HeadOne(m, RowsOf(m, v, c).value.1[|c.rows| - 1]);
    }
  }

  // ---------------------------------------------------------------- text

  /** Tokens as the chunk that `forward` builds for them. */
  function TextChunk(m: Model, first: nat, tokens: seq<Token>): Chunk {
    Chunk(Embed(m, tokens), TextPositions(first, |tokens|))
  }

  lemma {:induction false} TextReach(first: nat, n: nat)
    ensures NextPosition(first, TextPositions(first, n)) == first + n
    decreases n
  {
    if 0 < n {
      assert TextPositions(first, n)[..n - 1] == TextPositions(first, n - 1);
      TextReach(first, n - 1);
    }
  }

  lemma TextPlus(m: Model, first: nat, s: seq<Token>, t: seq<Token>)
    ensures TextChunk(m, first, s + t) == TextChunk(m, first, s).Plus(TextChunk(m, first + |s|, t))
    ensures (exists x | x in s + t :: x >= m.vocab) <==>
            (exists x | x in s :: x >= m.vocab) || (exists x | x in t :: x >= m.vocab)
  {
    assert Embed(m, s + t) == Embed(m, s) + Embed(m, t);
    assert TextPositions(first, |s| + |t|) == TextPositions(first, |s|) + TextPositions(first + |s|, |t|);
    assert forall x :: x in s + t <==> x in s || x in t;
  }

  function TextTwice(m: Model, v: StateView, s: seq<Token>, t: seq<Token>, allLogits: bool): Option<(StateView, Output)>
  {
    var (v1, o1) :- ForwardTokens(m, v, s, allLogits);
    var (v2, o2) :- ForwardTokens(m, v1, t, allLogits);
    Some((v2, Combined(o1, o2, allLogits)))
  }

  /** What a successful text call does to the bookkeeping of the state. */
  lemma TextAdvances(m: Model, v: StateView, tokens: seq<Token>, allLogits: bool)
    requires ForwardTokens(m, v, tokens, allLogits).Some?
    ensures var v' := ForwardTokens(m, v, tokens, allLogits).value.0;
            && 0 < |tokens| && v'.len == v.len + |tokens| <= v.maxContext
            && v'.nextPosition == v.nextPosition + |tokens|
            && v'.maxContext == v.maxContext && v'.owner == v.owner && |v'.layers| == |m.blocks|
  {
    TextReach(v.nextPosition, |tokens|);
    HiddenSplit(m, v.layers, Inputs(Embed(m, tokens), TextPositions(v.nextPosition, |tokens|)), []);
  }

  lemma TextCall(m: Model, v: StateView, tokens: seq<Token>, allLogits: bool)
    requires 0 < |tokens|
    ensures ForwardTokens(m, v, tokens, allLogits) ==
            if exists x | x in tokens :: x >= m.vocab then None
            else Call(m, v, TextChunk(m, v.nextPosition, tokens), allLogits)
  {
  }

  lemma TextTwiceIsCallTwice(m: Model, v: StateView, s: seq<Token>, t: seq<Token>, allLogits: bool)
    requires 0 < |s| && 0 < |t|
    requires forall x | x in s + t :: x < m.vocab
    ensures TextTwice(m, v, s, t, allLogits) ==
            CallTwice(m, v, TextChunk(m, v.nextPosition, s), TextChunk(m, v.nextPosition + |s|, t), allLogits)
  {
    hide Forwarded, Fold.Run, Fold.MapRows;
    assert forall x :: x in s + t <==> x in s || x in t;
    var a, b := TextChunk(m, v.nextPosition, s), TextChunk(m, v.nextPosition + |s|, t);
    assert ForwardTokens(m, v, s, allLogits) == Call(m, v, a, allLogits) by { TextCall(m, v, s, allLogits); }
    if Call(m, v, a, allLogits).Some? {
      var v1 := Call(m, v, a, allLogits).value.0;
      assert v1.nextPosition == v.nextPosition + |s| by { TextAdvances(m, v, s, allLogits); }
      assert ForwardTokens(m, v1, t, allLogits) == Call(m, v1, b, allLogits) by { TextCall(m, v1, t, allLogits); }
    }
  }

  lemma TextTwoAll(m: Model, v: StateView, s: seq<Token>, t: seq<Token>)
    requires 0 < |s| && 0 < |t|
    ensures ForwardTokens(m, v, s + t, true) == TextTwice(m, v, s, t, true)
  {
    TextPlus(m, v.nextPosition, s, t);
    TextCall(m, v, s + t, true);
    if forall x | x in s + t :: x < m.vocab {
      TextTwiceIsCallTwice(m, v, s, t, true);
      TwoChunksAll(m, v, TextChunk(m, v.nextPosition, s), TextChunk(m, v.nextPosition + |s|, t));
    }
  }

  /** The hidden rows of a text call. */
  function TextRows(m: Model, v: StateView, tokens: seq<Token>): (r: Option<(seq<LayerState>, seq<Row>)>)
    requires 0 < |tokens|
    ensures r.Some? ==> |r.value.1| == |tokens|
  {
    if exists x | x in tokens :: x >= m.vocab then None else RowsOf(m, v, TextChunk(m, v.nextPosition, tokens))
  }

  /** Two text calls succeed exactly when all rows do and the head accepts the last row of each. */
  lemma TextTwoLast(m: Model, v: StateView, s: seq<Token>, t: seq<Token>)
    requires 0 < |s| && 0 < |t|
    ensures TextTwice(m, v, s, t, false).Some? ==> ForwardTokens(m, v, s + t, false) == TextTwice(m, v, s, t, false)
    ensures TextTwice(m, v, s, t, false).Some? <==>
              && TextRows(m, v, s + t).Some?
              && var hidden := TextRows(m, v, s + t).value.1;
                m.head(hidden[|s| - 1]).Some? && m.head(hidden[|s| + |t| - 1]).Some?
  {
    hide Forwarded, Fold.Run, Fold.MapRows, RowsOf, CallTwice;
    TextPlus(m, v.nextPosition, s, t);
    TextCall(m, v, s + t, false);
    if forall x | x in s + t :: x < m.vocab {
      TextTwiceIsCallTwice(m, v, s, t, false);
      TwoChunksLast(m, v, TextChunk(m, v.nextPosition, s), TextChunk(m, v.nextPosition + |s|, t));
    } else {
      TextTwiceVocab(m, v, s, t);
    }
  }

  lemma TextTwiceVocab(m: Model, v: StateView, s: seq<Token>, t: seq<Token>)
    requires exists x | x in s + t :: x >= m.vocab
    ensures TextTwice(m, v, s, t, false).None?
  {
    hide Forwarded;
    var x :| x in s + t && x >= m.vocab;
    assert x in s || x in t;
  }

  lemma TextSecondOfWhole(m: Model, v: StateView, s: seq<Token>, t: seq<Token>)
    requires 0 < |s| && 0 < |t|
    requires ForwardTokens(m, v, s + t, false).Some? && ForwardTokens(m, v, s, false).Some?
    ensures TextTwice(m, v, s, t, false).Some?
  {
    hide Forwarded, Fold.Run, Fold.MapRows;
    TextPlus(m, v.nextPosition, s, t);
    TextTwiceIsCallTwice(m, v, s, t, false);
    SecondOfWhole(m, v, TextChunk(m, v.nextPosition, s), TextChunk(m, v.nextPosition + |s|, t));
  }

  lemma TextLastRow(m: Model, v: StateView, tokens: seq<Token>)
    requires ForwardTokens(m, v, tokens, true).Some?
    ensures 0 < |tokens|
    ensures var all := ForwardTokens(m, v, tokens, true).value;
            ForwardTokens(m, v, tokens, false) == Some((all.0, Output([all.1.logits[|tokens| - 1]], all.1.hidden)))
  {
    LastRowOnly(m, v, TextChunk(m, v.nextPosition, tokens));
  }
}
