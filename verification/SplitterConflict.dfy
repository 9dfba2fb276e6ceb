/** The other half: when a content marker hides strictly inside the other, some chunking of some text
    yields different events.  And what no chunking can change: nothing is lost. */
module SplitterConflict {
  import opened Wrappers
  import opened TextSearch
  import opened Splitter
  import opened SplitterChunks

  // ---------------------------------------------------------------- conservation over a stream

  /** Every piece cut while `chunks` are pushed and the stream is finished. */
  function StreamPieces(m: Markers, q: State, pending: string, chunks: seq<string>): seq<Piece>
    requires m.Valid()
    decreases |chunks|
  {
    if |chunks| == 0 then Drain(m, q, pending, true).pieces
    else
      var d := Drain(m, q, pending + chunks[0], false);
      d.pieces + StreamPieces(m, d.state, d.pending, chunks[1..])
  }

  /** For every chunking, and whatever the markers: the consumed markers put back in their places
      among the pieces give exactly the input. */
  lemma {:induction false} StreamConserves(m: Markers, q: State, pending: string, chunks: seq<string>)
    requires m.Valid()
    ensures Source(m, StreamPieces(m, q, pending, chunks)) == pending + Flat(chunks)
    decreases |chunks|
  {
    hide Drain, Source;
    if |chunks| == 0 {
      DrainConserves(m, q, pending, true);
      var s := Source(m, Drain(m, q, pending, true).pieces);
      assert s + "" == s && pending + "" == pending;
    } else {
      DrainConserves(m, q, pending + chunks[0], false);
      var d := Drain(m, q, pending + chunks[0], false);
      StreamConserves(m, d.state, d.pending, chunks[1..]);
      SourcePlus(m, d.pieces, StreamPieces(m, d.state, d.pending, chunks[1..]));
      var s := Source(m, d.pieces);
      assert s + (d.pending + Flat(chunks[1..])) == (s + d.pending) + Flat(chunks[1..]);
      assert pending + Flat(chunks) == (pending + chunks[0]) + Flat(chunks[1..]);
    }
  }

  // ---------------------------------------------------------------- the witness

  /** The longer marker alone, cut just after the shorter one inside it. */
  function Witness(y: string, x: string, k: nat): seq<string>
    requires k + |x| < |y|
  {
    [y[..k + |x|], y[k + |x|..]]
  }

  lemma WitnessText(y: string, x: string, k: nat)
    requires k + |x| < |y|
    ensures Flat(Witness(y, x, k)) == y
  {
    var w := Witness(y, x, k);
    assert w[1..] == [w[1]] && w[1..][1..] == [];
    assert Flat(w[1..]) == w[1] + Flat([]) == w[1];
    assert y[..k + |x|] + y[k + |x|..] == y;
  }

  lemma PrefixOccurs(y: string, x: string)
    ensures Occurs(y, x, 0) <==> x <= y
  {
  }

  /** In one push, the whole marker `y` wins. */
  lemma WholeWins(m: Markers, kx: Kind, ky: Kind)
    requires m.Valid() && {kx, ky} == {ThinkingStart, ToolStart} && m.Of(kx).Some? && m.Of(ky).Some?
    requires !(m.Of(kx).value <= m.Of(ky).value)
    ensures NextMarker(m, Content, m.Of(ky).value) == Some((0, ky))
  {
    var x, y := m.Of(kx).value, m.Of(ky).value;
    assert Occurs(y, y, 0);
    FindIs(y, y, 0);
    PrefixOccurs(y, x);
  }

  /** Cut after the hidden marker `x`, that one wins, and not at the start. */
  lemma HiddenWins(m: Markers, kx: Kind, ky: Kind, k: nat) returns (i: nat)
    requires m.Valid() && {kx, ky} == {ThinkingStart, ToolStart} && m.Of(kx).Some? && m.Of(ky).Some?
    requires var x, y := m.Of(kx).value, m.Of(ky).value; !(x <= y) && 0 < k && k + |x| < |y| && Occurs(y, x, k)
    ensures NextMarker(m, Content, m.Of(ky).value[..k + |m.Of(kx).value|]) == Some((i, kx)) && 0 < i <= k
  {
    var x, y := m.Of(kx).value, m.Of(ky).value;
    var c := y[..k + |x|];
    assert c + y[k + |x|..] == y;
    OccursLeft(c, y[k + |x|..], x, k);
    i := Find(c, x).value;
    OccursLeft(c, y[k + |x|..], x, 0);
    PrefixOccurs(y, x);
  }

  lemma DrainEmpty(m: Markers, q: State, final: bool)
    requires m.Valid() && q != Content
    ensures Drain(m, q, "", final) == Drained([Text(q, "")], q, "")
  {
    hide NextMarker, LongestHold, Drain;
    DrainUnfolds(m, q, "", final);
    if NextMarker(m, q, "").Some? {
      MarkerFits(m, q, "");
    }
    assert ""[..0] == "" && ""[0..] == "";
  }

  /** The batch outcome: a thinking marker alone ends with nothing said, a tool marker alone fails. */
  lemma BatchOutcome<V>(m: Markers, parse: string -> Option<V>, kx: Kind, ky: Kind)
    requires m.Valid() && {kx, ky} == {ThinkingStart, ToolStart} && m.Of(kx).Some? && m.Of(ky).Some?
    requires !(m.Of(kx).value <= m.Of(ky).value)
    ensures Streamed(m, parse, Stream(Content, "", "", []), [m.Of(ky).value]) == if ky == ToolStart then None
            else Some([Finished])
  {
    hide NextMarker, LongestHold, Drain, Emit;
    var y := m.Of(ky).value;
    WholeWins(m, kx, ky);
    DrainUnfolds(m, Content, y, false);
    assert "" + y == y && y[|y|..] == "" && y[..0] == "";
    DrainEmpty(m, After(ky), false);
    DrainEmpty(m, After(ky), true);
    var d := Drain(m, Content, y, false);
    assert d.pieces == [Text(Content, ""), Mark(ky)] + [Text(After(ky), "")];
    EmitPlus(parse, [Text(Content, ""), Mark(ky)], [Text(After(ky), "")], "");
    EmitTwo(parse, Text(Content, ""), Mark(ky), "");
    EmitOne(parse, Text(After(ky), ""), "");
    var start := Stream<V>.Stream(Content, "", "", []);
    var pushed := Stream<V>.Stream(After(ky), "", "", []);
    var none: seq<Event<V>> := [];
    assert none + none == none && none + [Finished] == [Finished];
    assert Emit(parse, d.pieces, "") == Some((none, ""));
    assert Pushed(m, parse, start, y) == Some(pushed);
    assert Ended(m, parse, pushed) == if ky == ToolStart then None else Some([Finished]);
    assert [y][1..] == [];
  }

  // ---------------------------------------------------------------- the hidden marker makes itself heard

  lemma {:induction false} EventsOnlyGrow<V>(m: Markers, parse: string -> Option<V>, s: Stream<V>, chunks: seq<string>)
    requires m.Valid() && Streamed(m, parse, s, chunks).Some?
    ensures s.events <= Streamed(m, parse, s, chunks).value
    decreases |chunks|
  {
    hide Drain, Emit;
    if 0 < |chunks| {
      EventsOnlyGrow(m, parse, Pushed(m, parse, s, chunks[0]).value, chunks[1..]);
    }
  }

  lemma {:induction false} FirstStaysContent<V>(events: seq<Event<V>>)
    requires 0 < |events| && events[0].ContentText?
    ensures 0 < |AddAll([], events)| && AddAll([], events)[0].ContentText?
    decreases |events|
  {
    if |events| == 1 {
      assert events[..0] == [];
    } else {
      FirstStaysContent(events[..|events| - 1]);
    }
  }

  /** After the first chunk of the witness something has been said as content. */
  lemma HiddenSpeaks<V>(m: Markers, parse: string -> Option<V>, kx: Kind, ky: Kind, k: nat)
    requires m.Valid() && {kx, ky} == {ThinkingStart, ToolStart} && m.Of(kx).Some? && m.Of(ky).Some?
    requires var x, y := m.Of(kx).value, m.Of(ky).value; !(x <= y) && 0 < k && k + |x| < |y| && Occurs(y, x, k)
    ensures var c := m.Of(ky).value[..k + |m.Of(kx).value|];
            var s := Pushed(m, parse, Stream(Content, "", "", []), c);
            s.Some? ==> 0 < |s.value.events| && s.value.events[0].ContentText?
  {
    hide NextMarker, LongestHold, Drain, Emit;
    var c := m.Of(ky).value[..k + |m.Of(kx).value|];
    var i := HiddenWins(m, kx, ky, k);
    assert "" + c == c;
    DrainUnfolds(m, Content, c, false);
    var rest := Drain(m, After(kx), c[i + |m.Of(kx).value|..], false).pieces;
    EmitPlus(parse, [Text(Content, c[..i]), Mark(kx)], rest, "");
    EmitTwo(parse, Text(Content, c[..i]), Mark(kx), "");
  }

  // ---------------------------------------------------------------- too short for a tool call

  ghost predicate NoTool(pieces: seq<Piece>) {
    forall i | 0 <= i < |pieces| :: pieces[i] != Mark(ToolEnd)
  }

  lemma {:induction false} EmitWithoutTool<V>(parse: string -> Option<V>, pieces: seq<Piece>, buffer: string)
    requires NoTool(pieces)
    ensures Emit(parse, pieces, buffer).Some?
    decreases |pieces|
  {
    if 0 < |pieces| {
      EmitWithoutTool(parse, pieces[1..], EmitPiece(parse, pieces[0], buffer).value.1);
    }
  }

  /** Text shorter than the tool marker never opens a tool call. */
  lemma {:induction false} ShortDrain(m: Markers, q: State, text: string, final: bool)
    requires m.Valid() && q != ToolCall && m.toolStart.Some? && |text| < |m.toolStart.value|
    ensures var d := Drain(m, q, text, final); NoTool(d.pieces) && d.state != ToolCall && |d.pending| <= |text|
    decreases |text|
  {
    hide NextMarker, LongestHold, Drain;
    DrainUnfolds(m, q, text, final);
    if NextMarker(m, q, text).Some? {
      var i, k := NextMarker(m, q, text).value.0, NextMarker(m, q, text).value.1;
      MarkerFits(m, q, text);
      ShortDrain(m, After(k), text[i + |m.Of(k).value|..], final);
    }
  }

  lemma {:induction false} ShortStream<V>(m: Markers, parse: string -> Option<V>, s: Stream<V>, chunks: seq<string>)
    requires m.Valid() && s.state != ToolCall && m.toolStart.Some? && |s.pending + Flat(chunks)| < |m.toolStart.value|
    ensures Streamed(m, parse, s, chunks).Some?
    decreases |chunks|
  {
    hide Drain, Emit;
    if |chunks| == 0 {
      ShortDrain(m, s.state, s.pending, true);
      EmitWithoutTool(parse, Drain(m, s.state, s.pending, true).pieces, s.buffer);
    } else {
      ShortDrain(m, s.state, s.pending + chunks[0], false);
      var d := Drain(m, s.state, s.pending + chunks[0], false);
      EmitWithoutTool(parse, d.pieces, s.buffer);
      ShortStream(m, parse, Pushed(m, parse, s, chunks[0]).value, chunks[1..]);
    }
  }

  /** The thinking marker hidden in the tool marker: the stream goes through where the batch fails. */
  lemma HiddenThinking<V>(m: Markers, parse: string -> Option<V>, k: nat)
    requires m.Valid() && m.thinkingStart.Some? && m.toolStart.Some?
    requires var x, y := m.thinkingStart.value, m.toolStart.value;
             !(x <= y) && 0 < k && k + |x| < |y| && Occurs(y, x, k)
    ensures Streamed(m, parse, Stream(Content, "", "", []), Witness(m.toolStart.value, m.thinkingStart.value, k)).Some?
  {
    hide Drain, Emit, Occurs;
    var x, y := m.thinkingStart.value, m.toolStart.value;
    var w, start := Witness(y, x, k), Stream<V>.Stream(Content, "", "", []);
    assert "" + w[0] == w[0];
    HiddenDrain(m, k);
    var d := Drain(m, Content, w[0], false);
    EmitWithoutTool(parse, d.pieces, "");
    assert w[1..] == [w[1]] && w[1..][1..] == [];
    assert Flat(w[1..]) == w[1] + Flat([]) == w[1];
    ShortStream(m, parse, Pushed(m, parse, start, w[0]).value, w[1..]);
  }

  lemma HiddenDrain(m: Markers, k: nat)
    requires m.Valid() && m.thinkingStart.Some? && m.toolStart.Some?
    requires var x, y := m.thinkingStart.value, m.toolStart.value;
             !(x <= y) && 0 < k && k + |x| < |y| && Occurs(y, x, k)
    ensures var c := m.toolStart.value[..k + |m.thinkingStart.value|];
            var d := Drain(m, Content, c, false);
            NoTool(d.pieces) && d.state != ToolCall && |d.pending| < |c|
  {
    hide NextMarker, LongestHold, Drain;
    var x := m.thinkingStart.value;
    var c := m.toolStart.value[..k + |x|];
    var i := HiddenWins(m, ThinkingStart, ToolStart, k);
    DrainUnfolds(m, Content, c, false);
    ShortDrain(m, Content, c, false);
    ShortDrain(m, Thinking, c[i + |x|..], false);
  }

  /** The exact condition: streaming differs from batch for some text and some chunking as soon as one
      content marker lies strictly inside the other without beginning it. */
  lemma ConflictBreaksStreaming<V>(m: Markers, parse: string -> Option<V>) returns (chunks: seq<string>)
    requires m.Valid() && !NoConflict(m)
    ensures var start := Stream<V>.Stream(Content, "", "", []);
            JoinedEvents(Streamed(m, parse, start, chunks)) != JoinedEvents(Streamed(m, parse, start, [Flat(chunks)]))
  {
    hide Drain, Emit, NextMarker, Pushed, Ended, Flat;
    var think, tool := m.thinkingStart.value, m.toolStart.value;
    var start := Stream<V>.Stream(Content, "", "", []);
    if Conflict(think, tool) {
      var k: nat :| 0 < k && k + |think| < |tool| && Occurs(tool, think, k);
      chunks := Witness(tool, think, k);
      WitnessText(tool, think, k);
      BatchOutcome(m, parse, ThinkingStart, ToolStart);
      HiddenThinking(m, parse, k);
    } else {
      var k: nat :| 0 < k && k + |tool| < |think| && Occurs(think, tool, k);
      chunks := Witness(think, tool, k);
      WitnessText(think, tool, k);
      BatchOutcome(m, parse, ToolStart, ThinkingStart);
      assert AddAll([], [Event<V>.Finished]) == [Event<V>.Finished] by { AddOne([], Event<V>.Finished); }
      HiddenSpeaks(m, parse, ToolStart, ThinkingStart, k);
      var streamed := Streamed(m, parse, start, chunks);
      if streamed.Some? {
        var pushed := Pushed(m, parse, start, chunks[0]).value;
        EventsOnlyGrow(m, parse, pushed, chunks[1..]);
        FirstStaysContent(streamed.value);
      }
    }
  }
}
