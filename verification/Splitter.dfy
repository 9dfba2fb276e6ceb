/** `OutputSplitter` (src/frontend/decoder.rs): cuts streamed text at the declared markers into
    thinking, content and tool calls, holding back what may still become a marker. */
module Splitter {
  import opened Wrappers
  import opened TextSearch

  datatype Kind = ThinkingStart | ThinkingEnd | ToolStart | ToolEnd

  datatype State = Content | Thinking | ToolCall

  datatype Markers = Markers(thinkingStart: Option<string>, thinkingEnd: Option<string>, toolStart: Option<string>,
      toolEnd: Option<string>) {
    predicate Valid() {
      && thinkingStart != Some("") && thinkingEnd != Some("") && toolStart != Some("") && toolEnd != Some("")
      && (thinkingStart.Some? <==> thinkingEnd.Some?) && (toolStart.Some? <==> toolEnd.Some?)
    }

    function Of(k: Kind): Option<string> {
      match k
      case ThinkingStart => thinkingStart
      case ThinkingEnd => thinkingEnd
      case ToolStart => toolStart
      case ToolEnd => toolEnd
    }
  }

  /** `value` stands for the parsed JSON of a tool call. */
  datatype Event<V> = ThinkingText(text: string) | ContentText(text: string) | Call(value: V, raw: string) | Finished

  // ---------------------------------------------------------------- the next marker

  function Active(q: State): seq<Kind> {
    match q
    case Content => [ThinkingStart, ToolStart]
    case Thinking => [ThinkingEnd]
    case ToolCall => [ToolEnd]
  }

  function After(k: Kind): State {
    match k
    case ThinkingStart => Thinking
    case ToolStart => ToolCall
    case ThinkingEnd => Content
    case ToolEnd => Content
  }

  /** The marker strings that may come next. */
  function Candidates(m: Markers, q: State): seq<string> {
    Declared(m, Active(q))
  }

  function Declared(m: Markers, kinds: seq<Kind>): seq<string> {
    if |kinds| == 0 then []
    else (if m.Of(kinds[0]).Some? then [m.Of(kinds[0]).value] else []) + Declared(m, kinds[1..])
  }

  function Locate(m: Markers, k: Kind, text: string): Option<(nat, Kind)> {
    var marker :- m.Of(k);
    var i :- Find(text, marker);
    Some((i, k))
  }

  /** The earliest marker; of two at the same place the shorter, and then the first declared. */
  function Earlier(m: Markers, a: Option<(nat, Kind)>, b: Option<(nat, Kind)>): Option<(nat, Kind)>
    requires a.Some? ==> m.Of(a.value.1).Some?
    requires b.Some? ==> m.Of(b.value.1).Some?
  {
    if a.None? then b
    else if b.None? then a
    else if b.value.0 < a.value.0 || (b.value.0 == a.value.0 && |m.Of(b.value.1).value| < |m.Of(a.value.1).value|) then
        b
    else a
  }

  function NextMarker(m: Markers, q: State, text: string): (r: Option<(nat, Kind)>)
    ensures r.Some? ==>
              r.value.1 in Active(q) && m.Of(r.value.1).Some? && Occurs(text, m.Of(r.value.1).value, r.value.0)
  {
    if q == Content then Earlier(m, Locate(m, ThinkingStart, text), Locate(m, ToolStart, text))
    else Locate(m, Active(q)[0], text)
  }

  // ---------------------------------------------------------------- the one-shot scan

  datatype Piece = Text(state: State, text: string) | Mark(kind: Kind)

  /** The reference: cut the whole text at every next marker. */
  function Scan(m: Markers, q: State, text: string): seq<Piece>
    requires m.Valid()
    decreases |text|
  {
    match NextMarker(m, q, text)
    case None => [Text(q, text)]
    case Some((i, k)) => [Text(q, text[..i]), Mark(k)] + Scan(m, After(k), text[i + |m.Of(k).value|..])
  }

  function ScanState(m: Markers, q: State, text: string): State
    requires m.Valid()
    decreases |text|
  {
    match NextMarker(m, q, text)
    case None => q
    case Some((i, k)) => ScanState(m, After(k), text[i + |m.Of(k).value|..])
  }

  /** What the pieces were cut from: every marker back in its place. */
  function Source(m: Markers, pieces: seq<Piece>): string {
    if |pieces| == 0 then ""
    else
      PieceSource(m, pieces[0]) + Source(m, pieces[1..])
  }

  function PieceSource(m: Markers, p: Piece): string {
    match p
    case Text(_, s) => s
    case Mark(k) => if m.Of(k).Some? then m.Of(k).value else ""
  }

  lemma {:induction false} SourcePlus(m: Markers, a: seq<Piece>, b: seq<Piece>)
    ensures Source(m, a + b) == Source(m, a) + Source(m, b)
    decreases |a|
  {
    if |a| == 0 {
      assert a + b == b;
    } else {
      assert (a + b)[0] == a[0] && (a + b)[1..] == a[1..] + b;
      SourcePlus(m, a[1..], b);
    }
  }

  // ---------------------------------------------------------------- one drain

  datatype Drained = Drained(pieces: seq<Piece>, state: State, pending: string)

  /** Cuts at every complete marker; what may still become one stays pending unless this is the end. */
  function Drain(m: Markers, q: State, text: string, final: bool): Drained
    requires m.Valid()
    decreases |text|
  {
    match NextMarker(m, q, text)
    case None =>
      var safe := if final then |text| else |text| - LongestHold(text, Candidates(m, q));
      Drained([Text(q, text[..safe])], q, text[safe..])
    case Some((i, k)) =>
      var rest := Drain(m, After(k), text[i + |m.Of(k).value|..], final);
      Drained([Text(q, text[..i]), Mark(k)] + rest.pieces, rest.state, rest.pending)
  }

  /** Nothing is lost or invented: pieces with their markers, then what is pending, is the text. */
  lemma {:induction false} DrainConserves(m: Markers, q: State, text: string, final: bool)
    requires m.Valid()
    ensures var d := Drain(m, q, text, final);
            Source(m, d.pieces) + d.pending == text && (final ==> d.pending == "")
    decreases |text|
  {
    hide Drain, NextMarker, LongestHold, Source, Occurs;
    DrainUnfolds(m, q, text, final);
    match NextMarker(m, q, text) {
      case None =>
        var safe := if final then |text| else |text| - LongestHold(text, Candidates(m, q));
        SourceOne(m, Text(q, text[..safe]));
        assert text[..safe] + text[safe..] == text;
      case Some(n) =>
        var i, k := n.0, n.1;
        MarkerFits(m, q, text);
        var len := |m.Of(k).value|;
        DrainConserves(m, After(k), text[i + len..], final);
        var rest := Drain(m, After(k), text[i + len..], final);
        SourceTwo(m, q, text, i, k, rest.pieces);
        Regroup(text[..i], text[i..i + len], Source(m, rest.pieces), rest.pending);
        assert text == text[..i] + text[i..i + len] + text[i + len..];
    }
  }

  lemma Regroup(a: string, b: string, c: string, d: string)
    ensures (a + b + c) + d == a + b + (c + d)
  {
  }

  lemma SourceOne(m: Markers, p: Piece)
    ensures Source(m, [p]) == PieceSource(m, p)
  {
    assert [p][1..] == [];
  }

  lemma SourceTwo(m: Markers, q: State, text: string, i: nat, k: Kind, rest: seq<Piece>)
    requires m.Of(k).Some? && Occurs(text, m.Of(k).value, i)
    ensures Source(m, [Text(q, text[..i]), Mark(k)] + rest) == text[..i] + text[i..i + |m.Of(k).value|] +
            Source(m, rest)
  {
    SourcePlus(m, [Text(q, text[..i])], [Mark(k)]);
    SourceOne(m, Text(q, text[..i]));
    SourceOne(m, Mark(k));
    assert [Text(q, text[..i]), Mark(k)] == [Text(q, text[..i])] + [Mark(k)];
    SourcePlus(m, [Text(q, text[..i]), Mark(k)], rest);
  }

  // ---------------------------------------------------------------- events

  /** What `drain` pushes for one piece, with the tool buffer it updates. */
  function EmitPiece<V>(parse: string -> Option<V>, p: Piece, buffer: string): Option<(seq<Event<V>>, string)> {
    match p
    case Text(q, s) =>
      if s == "" then Some(([], buffer))
      else if q == Content then Some(([ContentText(s)], buffer))
      else if q == Thinking then Some(([ThinkingText(s)], buffer))
      else Some(([], buffer + s))
    case Mark(k) =>
      if k == ToolStart then Some(([], ""))
      else if k == ToolEnd then
        var value :- parse(buffer);
        Some(([Call(value, buffer)], ""))
      else Some(([], buffer))
  }

  function Emit<V>(parse: string -> Option<V>, pieces: seq<Piece>, buffer: string): Option<(seq<Event<V>>, string)> {
    if |pieces| == 0 then Some(([], buffer))
    else
      var (first, b) :- EmitPiece(parse, pieces[0], buffer);
      var (rest, b') :- Emit(parse, pieces[1..], b);
      Some((first + rest, b'))
  }

  lemma {:induction false} EmitPlus<V>(parse: string -> Option<V>, a: seq<Piece>, b: seq<Piece>, buffer: string)
    ensures Emit(parse, a + b, buffer) ==
            match Emit(parse, a, buffer)
            case None => None
            case Some(x) =>
              match Emit(parse, b, x.1)
              case None => None
              case Some(y) => Some((x.0 + y.0, y.1))
    decreases |a|
  {
    if |a| == 0 {
      assert a + b == b;
      if Emit(parse, b, buffer).Some? {
        assert [] + Emit(parse, b, buffer).value.0 == Emit(parse, b, buffer).value.0;
      }
    } else {
      assert (a + b)[0] == a[0] && (a + b)[1..] == a[1..] + b;
      match EmitPiece(parse, a[0], buffer) {
        case None =>
        case Some(first) =>
          EmitPlus(parse, a[1..], b, first.1);
          if Emit(parse, a[1..], first.1).Some? && Emit(parse, b, Emit(parse, a[1..], first.1).value.1).Some? {
            var x := Emit(parse, a[1..], first.1).value;
            assert first.0 + (x.0 + Emit(parse, b, x.1).value.0) == (first.0 + x.0) + Emit(parse, b, x.1).value.0;
          }
      }
    }
  }

  lemma EmitOne<V>(parse: string -> Option<V>, p: Piece, buffer: string)
    ensures Emit(parse, [p], buffer) == EmitPiece(parse, p, buffer)
  {
    assert [p][1..] == [];
    if EmitPiece(parse, p, buffer).Some? {
      assert EmitPiece(parse, p, buffer).value.0 + [] == EmitPiece(parse, p, buffer).value.0;
    }
  }

  // ---------------------------------------------------------------- a stream of text

  /** The splitter's state with the events said so far. */
  datatype Stream<V> = Stream(state: State, pending: string, buffer: string, events: seq<Event<V>>)

  /** One `push_text`. */
  function Pushed<V>(m: Markers, parse: string -> Option<V>, s: Stream<V>, chunk: string): Option<Stream<V>>
    requires m.Valid()
  {
    var d := Drain(m, s.state, s.pending + chunk, false);
    var (events, buffer) :- Emit(parse, d.pieces, s.buffer);
    Some(Stream(d.state, d.pending, buffer, s.events + events))
  }

  /** `finish`: everything pending is released, and an open tool call is an error. */
  function Ended<V>(m: Markers, parse: string -> Option<V>, s: Stream<V>): Option<seq<Event<V>>>
    requires m.Valid()
  {
    var d := Drain(m, s.state, s.pending, true);
    var (events, buffer) :- Emit(parse, d.pieces, s.buffer);
    if d.state == ToolCall then None else Some(s.events + events + [Finished])
  }

  class OutputSplitter<V> {
    const markers: Markers
    const parse: string -> Option<V>
    var state: State
    var pending: string
    var toolBuffer: string

    ghost function Since(events: seq<Event<V>>): Stream<V>
      reads this
    {
      Stream(state, pending, toolBuffer, events)
    }

    constructor (markers: Markers, parse: string -> Option<V>, initiallyInThinking: bool)
      requires markers.Valid() && (initiallyInThinking ==> markers.thinkingStart.Some?)
      ensures this.markers == markers && this.parse == parse
      ensures state == (if initiallyInThinking then Thinking else Content) && pending == "" && toolBuffer == ""
    {
      this.markers, this.parse := markers, parse;
      state := if initiallyInThinking then Thinking else Content;
      pending, toolBuffer := "", "";
    }

    method EmitText(events: seq<Event<V>>, text: string) returns (events': seq<Event<V>>)
      modifies this`toolBuffer
      ensures EmitPiece(parse, Text(state, text), old(toolBuffer)).Some?
      ensures var e := EmitPiece(parse, Text(state, text), old(toolBuffer)).value;
              events' == events + e.0 && toolBuffer == e.1
    {
      events' := events;
      assert events + [] == events;
      if text == "" {
        return;
      }
      match state {
        case Content => events' := events + [ContentText(text)];
        case Thinking => events' := events + [ThinkingText(text)];
        case ToolCall => toolBuffer := toolBuffer + text;
      }
    }

    /** What passing a marker does besides changing the state. */
    method PassMarker(events: seq<Event<V>>, kind: Kind) returns (r: Option<seq<Event<V>>>)
      modifies this`toolBuffer, this`state
      ensures match EmitPiece(parse, Mark(kind), old(toolBuffer))
              case None => r.None?
              case Some(e) => r == Some(events + e.0) && toolBuffer == e.1 && state == After(kind)
    {
      match kind {
        case ThinkingStart => state := Thinking;
        case ThinkingEnd => state := Content;
        case ToolStart =>
          toolBuffer := "";
          state := ToolCall;
        case ToolEnd =>
          var raw := toolBuffer;
          toolBuffer := "";
          var value :- parse(raw);
          state := Content;
          return Some(events + [Call(value, raw)]);
      }
      r := Some(events);
      assert events + [] == events;
    }

    /** The text before a marker, and the marker. */
    method PassPieces(events: seq<Event<V>>, before: string, kind: Kind) returns (r: Option<seq<Event<V>>>)
      modifies this`toolBuffer, this`state
      ensures match Emit(parse, [Text(old(state), before), Mark(kind)], old(toolBuffer))
              case None => r.None?
              case Some(e) => r == Some(events + e.0) && toolBuffer == e.1 && state == After(kind)
    {
      hide Emit, EmitPiece;
      EmitTwo(parse, Text(state, before), Mark(kind), toolBuffer);
      ghost var first := EmitPiece(parse, Text(state, before), toolBuffer);
      var next := EmitText(events, before);
      ghost var second := EmitPiece(parse, Mark(kind), toolBuffer);
      r := PassMarker(next, kind);
      if second.Some? {
        assert (events + first.value.0) + second.value.0 == events + (first.value.0 + second.value.0);
      }
    }

    /** The drain loop: the events of the pieces that `Drain` cuts, and its state and pending text. */
    method DoDrain(final: bool) returns (r: Option<seq<Event<V>>>)
      requires markers.Valid()
      modifies this
      ensures var d := Drain(markers, old(state), old(pending), final);
              match Emit(parse, d.pieces, old(toolBuffer))
              case None => r.None?
              case Some(e) => r == Some(e.0) && state == d.state && pending == d.pending && toolBuffer == e.1
    {
      hide Drain, Emit, NextMarker, EmitPiece, Occurs;
      var events: seq<Event<V>> := [];
      ghost var done: seq<Piece> := [];
      ghost var whole := Drain(markers, state, pending, final);
      ghost var left := whole;
      assert [] + whole.pieces == whole.pieces;
      assert Emit(parse, done, toolBuffer) == Some((events, toolBuffer)) by { EmitNothing(parse, toolBuffer); }
      while true
        invariant left == Drain(markers, state, pending, final)
        invariant whole == left.(pieces := done + left.pieces)
        invariant Emit(parse, done, old(toolBuffer)) == Some((events, toolBuffer))
        decreases |pending|
      {
        DrainUnfolds(markers, state, pending, final);
        EmitPlus(parse, done, left.pieces, old(toolBuffer));
        var marker := NextMarker(markers, state, pending);
        if marker.None? {
          var held := LongestStopPrefixSuffix(pending, Candidates(markers, state));
          var splitAt := if final then |pending| else |pending| - held;
          EmitOne(parse, Text(state, pending[..splitAt]), toolBuffer);
          events := EmitText(events, pending[..splitAt]);
          pending := pending[splitAt..];
          break;
        }
        var index, kind := marker.value.0, marker.value.1;
        MarkerFits(markers, state, pending);
        var before, after := pending[..index], pending[index + |markers.Of(kind).value|..];
        ghost var pieces := [Text(state, before), Mark(kind)];
        ghost var next := Drain(markers, After(kind), after, final);
        EmitPlus(parse, done, pieces, old(toolBuffer));
        EmitPlus(parse, done + pieces, next.pieces, old(toolBuffer));
        assert done + (pieces + next.pieces) == (done + pieces) + next.pieces;
        pending := after;
        events :- PassPieces(events, before, kind);
        done, left := done + pieces, next;
      }
      r := Some(events);
    }

    method PushText(text: string) returns (r: Option<seq<Event<V>>>)
      requires markers.Valid()
      modifies this
      ensures match Pushed(markers, parse, old(Since([])), text)
              case None => r.None?
              case Some(s) => r.Some? && Since(r.value) == s
    {
      hide Drain, Emit;
      pending := pending + text;
      r := DoDrain(false);
      assert r.Some? ==> [] + r.value == r.value;
    }

    method Finish() returns (r: Option<seq<Event<V>>>)
      requires markers.Valid()
      modifies this
      ensures r == Ended(markers, parse, old(Since([])))
    {
      hide Drain, Emit;
      var events :- DoDrain(true);
      if state == ToolCall {
        return None;
      }
      r := Some(events + [Finished]);
      assert [] + events == events;
    }
  }

  /** What was said before a push or the end is kept, and nothing else depends on it. */
  lemma SaidBefore<V>(m: Markers, parse: string -> Option<V>, s: Stream<V>, chunk: string, before: seq<Event<V>>)
    requires m.Valid()
    ensures Pushed(m, parse, s.(events := before + s.events), chunk) ==
            match Pushed(m, parse, s, chunk) case None => None case Some(t) => Some(t.(events := before + t.events))
    ensures Ended(m, parse, s.(events := before + s.events)) ==
            match Ended(m, parse, s) case None => None case Some(es) => Some(before + es)
  {
    hide Drain, Emit;
    var more, last := Emit(parse, Drain(m, s.state, s.pending + chunk, false).pieces, s.buffer),
        Emit(parse, Drain(m, s.state, s.pending, true).pieces, s.buffer);
    if more.Some? {
      assert (before + s.events) + more.value.0 == before + (s.events + more.value.0);
    }
    if last.Some? {
      assert (before + s.events) + last.value.0 + [Finished] == before + (s.events + last.value.0 + [Finished]);
    }
  }

  lemma EmitNothing<V>(parse: string -> Option<V>, buffer: string)
    ensures Emit(parse, [], buffer) == Some(([], buffer))
  {
  }

  lemma MarkerFits(m: Markers, q: State, text: string)
    requires m.Valid() && NextMarker(m, q, text).Some?
    ensures var (i, k) := NextMarker(m, q, text).value; 0 < |m.Of(k).value| && i + |m.Of(k).value| <= |text|
  {
  }

  lemma DrainUnfolds(m: Markers, q: State, text: string, final: bool)
    requires m.Valid()
    ensures var next := NextMarker(m, q, text);
            if next.None? then
              var safe := if final then |text| else |text| - LongestHold(text, Candidates(m, q));
              Drain(m, q, text, final) == Drained([Text(q, text[..safe])], q, text[safe..])
            else
              var i, k := next.value.0, next.value.1;
              i + |m.Of(k).value| <= |text| &&
              var rest := Drain(m, After(k), text[i + |m.Of(k).value|..], final);
              Drain(m, q, text, final) == Drained([Text(q, text[..i]), Mark(k)] + rest.pieces, rest.state, rest.pending)
  {
    hide NextMarker;
  }

  lemma EmitTwo<V>(parse: string -> Option<V>, p: Piece, p': Piece, buffer: string)
    ensures Emit(parse, [p, p'], buffer) ==
            match EmitPiece(parse, p, buffer)
            case None => None
            case Some(x) =>
              match EmitPiece(parse, p', x.1)
              case None => None
              case Some(y) => Some((x.0 + y.0, y.1))
  {
    hide EmitPiece;
    assert [p, p'][1..] == [p'];
    if EmitPiece(parse, p, buffer).Some? {
      EmitOne(parse, p', EmitPiece(parse, p, buffer).value.1);
    }
  }
}
