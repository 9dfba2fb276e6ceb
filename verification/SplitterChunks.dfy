/** Streaming equals batch: when the pieces of text arrive changes nothing but where text events are
    cut, exactly when neither content marker hides inside the other. */
module SplitterChunks {
  import opened Wrappers
  import opened TextSearch
  import opened Splitter

  // ---------------------------------------------------------------- events up to where text is cut

  /** Adds an event; text of the channel that is already last is appended to it. */
  function AddEvent<V>(events: seq<Event<V>>, e: Event<V>): seq<Event<V>> {
    if |events| == 0 then [e]
    else
      var last, front := events[|events| - 1], events[..|events| - 1];
      match (last, e)
      case (ContentText(s), ContentText(t)) => front + [ContentText(s + t)]
      case (ThinkingText(s), ThinkingText(t)) => front + [ThinkingText(s + t)]
      case _ => events + [e]
  }

  function AddAll<V>(events: seq<Event<V>>, more: seq<Event<V>>): seq<Event<V>>
    decreases |more|
  {
    if |more| == 0 then events else AddEvent(AddAll(events, more[..|more| - 1]), more[|more| - 1])
  }

  lemma {:induction false} AddAllPlus<V>(events: seq<Event<V>>, a: seq<Event<V>>, b: seq<Event<V>>)
    ensures AddAll(events, a + b) == AddAll(AddAll(events, a), b)
    decreases |b|
  {
    if |b| == 0 {
      assert a + b == a;
    } else {
      assert (a + b)[..|a + b| - 1] == a + b[..|b| - 1];
      AddAllPlus(events, a, b[..|b| - 1]);
    }
  }

  datatype Joined<V> = Joined(events: seq<Event<V>>, buffer: string)

  function Join<V>(parse: string -> Option<V>, j: Joined<V>, pieces: seq<Piece>): Option<Joined<V>> {
    var (events, buffer) :- Emit(parse, pieces, j.buffer);
    Some(Joined(AddAll(j.events, events), buffer))
  }

  lemma JoinPlus<V>(parse: string -> Option<V>, j: Joined<V>, a: seq<Piece>, b: seq<Piece>)
    ensures Join(parse, j, a + b) == match Join(parse, j, a) case None => None case Some(j') => Join(parse, j', b)
  {
    hide Emit;
    EmitPlus(parse, a, b, j.buffer);
    if Emit(parse, a, j.buffer).Some? {
      var x := Emit(parse, a, j.buffer).value;
      if Emit(parse, b, x.1).Some? {
        AddAllPlus(j.events, x.0, Emit(parse, b, x.1).value.0);
      }
    }
  }

  /** Text delivered in two pieces joins to the same events. */
  lemma TextCut<V>(parse: string -> Option<V>, j: Joined<V>, q: State, a: string, b: string)
    ensures Join(parse, j, [Text(q, a + b)]) == Join(parse, j, [Text(q, a), Text(q, b)])
  {
    EmitOne(parse, Text(q, a + b), j.buffer);
    EmitTwo(parse, Text(q, a), Text(q, b), j.buffer);
    var one := EmitPiece(parse, Text(q, a + b), j.buffer).value;
    var first := EmitPiece(parse, Text(q, a), j.buffer).value;
    var second := EmitPiece(parse, Text(q, b), first.1).value;
    if a == "" {
      assert a + b == b && first.0 + second.0 == second.0;
    } else if b == "" {
      assert a + b == a && first.0 + second.0 == first.0;
    } else if q == ToolCall {
      assert (j.buffer + a) + b == j.buffer + (a + b);
      assert first.0 + second.0 == one.0;
    } else {
      AddCut(j.events, one.0[0], first.0[0], second.0[0]);
      AddAllPlus(j.events, first.0, second.0);
      AddOne(j.events, one.0[0]);
      AddOne(j.events, first.0[0]);
      AddOne(AddEvent(j.events, first.0[0]), second.0[0]);
    }
  }

  lemma AddOne<V>(events: seq<Event<V>>, e: Event<V>)
    ensures AddAll(events, [e]) == AddEvent(events, e)
  {
    assert [e][..0] == [];
  }

  lemma AddCut<V>(events: seq<Event<V>>, one: Event<V>, first: Event<V>, second: Event<V>)
    requires (one.ContentText? && first.ContentText? && second.ContentText?) ||
             (one.ThinkingText? && first.ThinkingText? && second.ThinkingText?)
    requires one.text == first.text + second.text
    ensures AddEvent(events, one) == AddEvent(AddEvent(events, first), second)
  {
    if 0 < |events| && ((events[|events| - 1].ContentText? && one.ContentText?) ||
        (events[|events| - 1].ThinkingText? && one.ThinkingText?)) {
      var s := events[|events| - 1].text;
      assert s + (first.text + second.text) == (s + first.text) + second.text;
    }
  }

  // ---------------------------------------------------------------- markers across a cut

  /** `x` lies strictly inside `y` and `y` does not begin with it. */
  ghost predicate Conflict(x: string, y: string) {
    !(x <= y) && exists k: nat :: 0 < k && k + |x| < |y| && Occurs(y, x, k)
  }

  ghost predicate NoConflict(m: Markers) {
    m.thinkingStart.Some? && m.toolStart.Some? ==>
      !Conflict(m.thinkingStart.value, m.toolStart.value) && !Conflict(m.toolStart.value, m.thinkingStart.value)
  }

  lemma FindIs(text: string, pat: string, i: nat)
    requires Occurs(text, pat, i) && forall j: nat | j < i :: !Occurs(text, pat, j)
    ensures Find(text, pat) == Some(i)
  {
    var r := Find(text, pat);
  }

  /** What is found stays found; what is not found yet can only end in the new text. */
  lemma FindExtends(p: string, z: string, pat: string)
    ensures Find(p, pat).Some? ==> Find(p + z, pat) == Find(p, pat)
    ensures Find(p, pat).None? && Find(p + z, pat).Some? ==> Find(p + z, pat).value + |pat| > |p|
  {
    if Find(p, pat).Some? {
      var i := Find(p, pat).value;
      OccursLeft(p, z, pat, i);
      forall j: nat | j < i ensures !Occurs(p + z, pat, j) {
        OccursLeft(p, z, pat, j);
      }
      FindIs(p + z, pat, i);
    } else if Find(p + z, pat).Some? && Find(p + z, pat).value + |pat| <= |p| {
      OccursLeft(p, z, pat, Find(p + z, pat).value);
    }
  }

  lemma Slice(s: string, i: nat, len: nat, k: nat, n: nat)
    requires i + len <= |s| && k + n <= len
    ensures s[i..i + len][k..k + n] == s[i + k..i + k + n]
  {
    var a, b := s[i..i + len][k..k + n], s[i + k..i + k + n];
    assert |a| == |b| == n;
    forall j | 0 <= j < n ensures a[j] == b[j] {
      assert s[i..i + len][k + j] == s[i + k + j];
    }
  }

  /** A marker `x` found at `i` cannot be overtaken by another one `y` that completes only later. */
  lemma NotOvertaken(p: string, z: string, x: string, y: string, i: nat, i': nat)
    requires Find(p, x) == Some(i) && Find(p, y).None? && Find(p + z, y) == Some(i') && !Conflict(x, y)
    ensures i <= i' && (i == i' ==> |x| < |y|)
  {
    FindExtends(p, z, y);
    if i' < i {
      var k := i - i';
      assert (p + z)[i'..i' + |y|] == y;
      OccursLeft(p, z, x, i);
      assert k + |x| < |y|;
      Slice(p + z, i', |y|, k, |x|);
      assert Occurs(y, x, k) && 0 < k && k + |x| < |y|;
      assert x <= y;
      Slice(p + z, i', |y|, 0, |x|);
      OccursLeft(p, z, x, i');
    }
  }

  /** A complete marker is the next marker whatever text follows. */
  lemma NextStable(m: Markers, q: State, p: string, z: string)
    requires m.Valid() && NoConflict(m) && NextMarker(m, q, p).Some?
    ensures NextMarker(m, q, p + z) == NextMarker(m, q, p)
  {
    hide Find, Occurs, Conflict;
    if q == Content {
      if m.thinkingStart.Some? {
        FindExtends(p, z, m.thinkingStart.value);
      }
      if m.toolStart.Some? {
        FindExtends(p, z, m.toolStart.value);
      }
      if m.thinkingStart.Some? && m.toolStart.Some? {
        var x, y := m.thinkingStart.value, m.toolStart.value;
        if Find(p, x).Some? && Find(p, y).None? && Find(p + z, y).Some? {
          NotOvertaken(p, z, x, y, Find(p, x).value, Find(p + z, y).value);
        } else if Find(p, x).None? && Find(p, y).Some? && Find(p + z, x).Some? {
          NotOvertaken(p, z, y, x, Find(p, y).value, Find(p + z, x).value);
        }
      }
    } else {
      FindExtends(p, z, m.Of(Active(q)[0]).value);
    }
  }

  /** With no complete marker in `a + h` and nothing longer than `h` held, a marker of `a + h + z`
      begins in `h + z`. */
  lemma FindShift(a: string, h: string, z: string, pats: seq<string>, k: nat)
    requires k < |pats| && 0 < |pats[k]| && Find(a + h, pats[k]).None? && LongestHold(a + h, pats) == |h|
    ensures Find(a + h + z, pats[k]) == match Find(h + z, pats[k]) case None => None case Some(i) => Some(|a| + i)
  {
    hide Find, LongestHold, Occurs;
    var pat, p := pats[k], a + h;
    assert p + z == a + (h + z);
    forall j: nat | j < |a| ensures !Occurs(p + z, pat, j) {
      NothingBefore(p, z, pats, k, j, |h|);
    }
    forall j: nat | |a| <= j ensures Occurs(p + z, pat, j) <==> Occurs(h + z, pat, j - |a|) {
      OccursRight(a, h + z, pat, j);
    }
    if Find(h + z, pat).Some? {
      FindIs(p + z, pat, |a| + Find(h + z, pat).value);
    }
  }

  lemma NothingBefore(p: string, z: string, pats: seq<string>, k: nat, j: nat, held: nat)
    requires k < |pats| && Find(p, pats[k]).None? && LongestHold(p, pats) == held && j + held < |p|
    ensures !Occurs(p + z, pats[k], j)
  {
    hide Find, LongestHold;
    if Occurs(p + z, pats[k], j) {
      if j + |pats[k]| <= |p| {
        OccursLeft(p, z, pats[k], j);
      } else {
        StraddleHolds(p, z, pats, k, j);
      }
    }
  }

  lemma CandidateIndex(m: Markers, q: State, kind: Kind) returns (k: nat)
    requires kind in Active(q) && m.Of(kind).Some?
    ensures k < |Candidates(m, q)| && Candidates(m, q)[k] == m.Of(kind).value
  {
    k := if kind == ToolStart && m.thinkingStart.Some? then 1 else 0;
    if q == Content {
      assert [ThinkingStart, ToolStart][1..] == [ToolStart];
      DeclaredOne(m, ToolStart);
    } else {
      DeclaredOne(m, Active(q)[0]);
    }
  }

  lemma DeclaredOne(m: Markers, kind: Kind)
    ensures Declared(m, [kind]) == if m.Of(kind).Some? then [m.Of(kind).value] else []
  {
    assert [kind][1..] == [];
  }

  function Moved(r: Option<(nat, Kind)>, offset: nat): Option<(nat, Kind)> {
    var (i, k) :- r;
    Some((offset + i, k))
  }

  lemma LocateShift(m: Markers, q: State, kind: Kind, a: string, h: string, z: string)
    requires m.Valid() && kind in Active(q) && Locate(m, kind, a + h).None? &&
             LongestHold(a + h, Candidates(m, q)) == |h|
    ensures Locate(m, kind, a + h + z) == Moved(Locate(m, kind, h + z), |a|)
  {
    hide Find, LongestHold;
    if m.Of(kind).Some? {
      var k := CandidateIndex(m, q, kind);
      FindShift(a, h, z, Candidates(m, q), k);
    }
  }

  /** Holding back the longest possible beginning of a marker loses no marker. */
  lemma NextShift(m: Markers, q: State, a: string, h: string, z: string)
    requires m.Valid() && NextMarker(m, q, a + h).None? && LongestHold(a + h, Candidates(m, q)) == |h|
    ensures NextMarker(m, q, a + h + z) == Moved(NextMarker(m, q, h + z), |a|)
  {
    hide LongestHold, Locate;
    if q == Content {
      LocateShift(m, q, ThinkingStart, a, h, z);
      LocateShift(m, q, ToolStart, a, h, z);
    } else {
      LocateShift(m, q, Active(q)[0], a, h, z);
    }
  }

  // ---------------------------------------------------------------- one push against the scan

  lemma PiecesUnfold(m: Markers, q: State, text: string, i: nat, k: Kind)
    requires m.Valid() && NextMarker(m, q, text) == Some((i, k))
    requires 0 < |m.Of(k).value| && i + |m.Of(k).value| <= |text|
    ensures Scan(m, q, text) == [Text(q, text[..i])] + ([Mark(k)] + Scan(m, After(k), text[i + |m.Of(k).value|..]))
  {
    hide NextMarker, ScanState;
    var rest := Scan(m, After(k), text[i + |m.Of(k).value|..]);
    assert [Text(q, text[..i]), Mark(k)] + rest == [Text(q, text[..i])] + ([Mark(k)] + rest);
  }

  lemma StateUnfolds(m: Markers, q: State, text: string, i: nat, k: Kind)
    requires m.Valid() && NextMarker(m, q, text) == Some((i, k))
    requires 0 < |m.Of(k).value| && i + |m.Of(k).value| <= |text|
    ensures ScanState(m, q, text) == ScanState(m, After(k), text[i + |m.Of(k).value|..])
  {
    hide NextMarker, Scan;
  }

  lemma LastUnfolds(m: Markers, q: State, text: string)
    requires m.Valid() && NextMarker(m, q, text).None?
    ensures Scan(m, q, text) == [Text(q, text)] && ScanState(m, q, text) == q
  {
    hide NextMarker;
  }

  lemma ScanUnfolds(m: Markers, q: State, text: string)
    requires m.Valid()
    ensures var next := NextMarker(m, q, text);
            if next.None? then Scan(m, q, text) == [Text(q, text)] && ScanState(m, q, text) == q
            else
              var i, k := next.value.0, next.value.1;
              && i + |m.Of(k).value| <= |text| && 0 < |m.Of(k).value|
              && Scan(m, q, text) == [Text(q, text[..i])] + ([Mark(k)] + Scan(m, After(k), text[i + |m.Of(k).value|..]))
              && ScanState(m, q, text) == ScanState(m, After(k), text[i + |m.Of(k).value|..])
  {
    hide NextMarker, Scan, ScanState;
    if NextMarker(m, q, text).Some? {
      var i, k := NextMarker(m, q, text).value.0, NextMarker(m, q, text).value.1;
      MarkerFits(m, q, text);
      PiecesUnfold(m, q, text, i, k);
      StateUnfolds(m, q, text, i, k);
    } else {
      LastUnfolds(m, q, text);
    }
  }

  /** Releasing `a` early and scanning the rest later joins to what one scan gives. */
  lemma ReleaseThenScan<V>(m: Markers, parse: string -> Option<V>, j: Joined<V>, q: State, a: string, h: string,
      z: string)
    requires m.Valid() && NextMarker(m, q, a + h).None? && LongestHold(a + h, Candidates(m, q)) == |h|
    ensures Join(parse, j, [Text(q, a)] + Scan(m, q, h + z)) == Join(parse, j, Scan(m, q, a + h + z))
    ensures ScanState(m, q, h + z) == ScanState(m, q, a + h + z)
  {
    hide NextMarker, LongestHold, Join, Scan, ScanState, Occurs;
    NextShift(m, q, a, h, z);
    ScanUnfolds(m, q, h + z);
    ScanUnfolds(m, q, a + h + z);
    assert a + h + z == a + (h + z);
    var next := NextMarker(m, q, h + z);
    if next.None? {
      assert [Text(q, a)] + [Text(q, h + z)] == [Text(q, a), Text(q, h + z)];
      TextCut(parse, j, q, a, h + z);
    } else {
      var i, k := next.value.0, next.value.1;
      var len := |m.Of(k).value|;
      var before, rest := (h + z)[..i], [Mark(k)] + Scan(m, After(k), (h + z)[i + len..]);
      SliceBehind(a, h + z, i);
      SliceBehind(a, h + z, i + len);
      TextCutBefore(parse, j, q, a, before, rest);
    }
  }

  lemma SliceBehind(a: string, b: string, i: nat)
    requires i <= |b|
    ensures (a + b)[..|a| + i] == a + b[..i] && (a + b)[|a| + i..] == b[i..]
  {
  }

  lemma TextCutBefore<V>(parse: string -> Option<V>, j: Joined<V>, q: State, a: string, before: string,
      rest: seq<Piece>)
    ensures Join(parse, j, [Text(q, a)] + ([Text(q, before)] + rest)) == Join(parse, j, [Text(q, a + before)] + rest)
  {
    hide Join;
    assert [Text(q, a)] + ([Text(q, before)] + rest) == [Text(q, a), Text(q, before)] + rest;
    TextCut(parse, j, q, a, before);
    JoinPlus(parse, j, [Text(q, a), Text(q, before)], rest);
    JoinPlus(parse, j, [Text(q, a + before)], rest);
  }

  /** Draining what has arrived and scanning the rest later joins to what one scan gives. */
  lemma {:induction false} DrainThenScan<V>(m: Markers, parse: string -> Option<V>, j: Joined<V>, q: State, p: string,
      z: string)
    requires m.Valid() && NoConflict(m)
    ensures var d := Drain(m, q, p, false);
            && Join(parse, j, d.pieces + Scan(m, d.state, d.pending + z)) == Join(parse, j, Scan(m, q, p + z))
            && ScanState(m, d.state, d.pending + z) == ScanState(m, q, p + z)
    decreases |p|
  {
    hide NextMarker, LongestHold, Join, Scan, ScanState, Drain, NoConflict, Occurs;
    DrainUnfolds(m, q, p, false);
    var d, next := Drain(m, q, p, false), NextMarker(m, q, p);
    if next.None? {
      var safe := |p| - LongestHold(p, Candidates(m, q));
      assert p == p[..safe] + p[safe..];
      ReleaseThenScan(m, parse, j, q, p[..safe], p[safe..], z);
    } else {
      var i, k := next.value.0, next.value.1;
      MarkerFits(m, q, p);
      NextStable(m, q, p, z);
      ScanUnfolds(m, q, p + z);
      var len := |m.Of(k).value|;
      var rest := p[i + len..];
      assert (p + z)[..i] == p[..i] && (p + z)[i + len..] == rest + z;
      var head, inner := [Text(q, p[..i]), Mark(k)], Drain(m, After(k), rest, false);
      assert head == [Text(q, p[..i])] + [Mark(k)];
      var tail := Scan(m, inner.state, inner.pending + z);
      assert d.pieces + tail == head + (inner.pieces + tail);
      assert Scan(m, q, p + z) == head + Scan(m, After(k), rest + z);
      JoinPlus(parse, j, head, inner.pieces + tail);
      JoinPlus(parse, j, head, Scan(m, After(k), rest + z));
      if Join(parse, j, head).Some? {
        DrainThenScan(m, parse, Join(parse, j, head).value, After(k), rest, z);
      } else {
        DrainThenScan(m, parse, j, After(k), rest, z);
      }
    }
  }

  lemma {:induction false} FinalDrainIsScan(m: Markers, q: State, p: string)
    requires m.Valid()
    ensures var d := Drain(m, q, p, true);
            d.pieces == Scan(m, q, p) && d.state == ScanState(m, q, p) && d.pending == ""
    decreases |p|
  {
    hide NextMarker, LongestHold, Scan, ScanState, Drain;
    DrainUnfolds(m, q, p, true);
    ScanUnfolds(m, q, p);
    var next := NextMarker(m, q, p);
    if next.Some? {
      var i, k := next.value.0, next.value.1;
      FinalDrainIsScan(m, After(k), p[i + |m.Of(k).value|..]);
      assert [Text(q, p[..i]), Mark(k)] == [Text(q, p[..i])] + [Mark(k)];
    } else {
      assert p[..|p|] == p && p[|p|..] == "";
    }
  }

  // ---------------------------------------------------------------- whole streams

  function Streamed<V>(m: Markers, parse: string -> Option<V>, s: Stream<V>, chunks: seq<string>): Option<seq<Event<V>>>
    requires m.Valid()
    decreases |chunks|
  {
    if |chunks| == 0 then Ended(m, parse, s)
    else
      var s' :- Pushed(m, parse, s, chunks[0]);
      Streamed(m, parse, s', chunks[1..])
  }

  function Flat(chunks: seq<string>): string {
    if |chunks| == 0 then "" else chunks[0] + Flat(chunks[1..])
  }

  function JoinedEvents<V>(r: Option<seq<Event<V>>>): Option<seq<Event<V>>> {
    var events :- r;
    Some(AddAll([], events))
  }

  /** The one-shot reference: scan, join, and end. */
  function Reference<V>(m: Markers, parse: string -> Option<V>, j: Joined<V>, q: State, text: string)
      : Option<seq<Event<V>>>
    requires m.Valid()
  {
    var end :- Join(parse, j, Scan(m, q, text));
    if ScanState(m, q, text) == ToolCall then None else Some(AddAll(end.events, [Finished]))
  }

  lemma {:induction false} StreamedIsReference<V>(m: Markers, parse: string -> Option<V>, s: Stream<V>,
      chunks: seq<string>)
    requires m.Valid() && NoConflict(m)
    ensures JoinedEvents(Streamed(m, parse, s, chunks)) ==
            Reference(m, parse, Joined(AddAll([], s.events), s.buffer), s.state, s.pending + Flat(chunks))
    decreases |chunks|
  {
    hide Drain, Scan, ScanState, Emit, AddAll, NoConflict;
    var j := Joined(AddAll([], s.events), s.buffer);
    if |chunks| == 0 {
      assert s.pending + Flat(chunks) == s.pending;
      FinalDrainIsScan(m, s.state, s.pending);
      var e := Emit(parse, Scan(m, s.state, s.pending), s.buffer);
      if e.Some? {
        AddAllPlus([], s.events, e.value.0);
        AddAllPlus([], s.events + e.value.0, [Finished]);
      }
    } else {
      var z := Flat(chunks[1..]);
      var d := Drain(m, s.state, s.pending + chunks[0], false);
      assert s.pending + Flat(chunks) == (s.pending + chunks[0]) + z;
      DrainThenScan(m, parse, j, s.state, s.pending + chunks[0], z);
      JoinPlus(parse, j, d.pieces, Scan(m, d.state, d.pending + z));
      var e := Emit(parse, d.pieces, s.buffer);
      if e.Some? {
        AddAllPlus([], s.events, e.value.0);
        StreamedIsReference(m, parse, Pushed(m, parse, s, chunks[0]).value, chunks[1..]);
      }
    }
  }

  /** For every text and every chunking, the events with adjacent same-channel text joined, or the
      failure, are those of pushing the whole text at once. */
  lemma StreamingEqualsBatch<V>(m: Markers, parse: string -> Option<V>, q: State, chunks: seq<string>)
    requires m.Valid() && NoConflict(m)
    ensures var start := Stream(q, "", "", []);
            JoinedEvents(Streamed(m, parse, start, chunks)) == JoinedEvents(Streamed(m, parse, start, [Flat(chunks)]))
  {
    hide Streamed, Reference;
    var start := Stream<V>.Stream(q, "", "", []);
    StreamedIsReference(m, parse, start, chunks);
    StreamedIsReference(m, parse, start, [Flat(chunks)]);
    assert [Flat(chunks)][1..] == [] && Flat([Flat(chunks)]) == Flat(chunks) + "" == Flat(chunks);
  }
}
