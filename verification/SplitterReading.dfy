/** What the splitter says, read off the text itself: which part of the text lies between which
    markers, and on which channel it is delivered. */
module SplitterReading {
  import opened Wrappers
  import opened TextSearch
  import opened Splitter
  import opened SplitterChunks

  // ---------------------------------------------------------------- a text and its sections

  /** Text outside every section, or inside one. */
  datatype Segment = Outside(text: string) | InThinking(text: string) | InTool(text: string)

  /** The marker between two neighbours.  A string declared as both start markers starts thinking. */
  function Between(m: Markers, a: Segment, b: Segment): Option<string> {
    match (a, b)
    case (Outside(_), InThinking(_)) => m.thinkingStart
    case (Outside(_), InTool(_)) => if m.toolStart == m.thinkingStart then None else m.toolStart
    case (InThinking(_), Outside(_)) => m.thinkingEnd
    case (InTool(_), Outside(_)) => m.toolEnd
    case _ => None
  }

  /** The markers that can end a segment. */
  function Enders(m: Markers, a: Segment): seq<Option<string>> {
    match a
    case Outside(_) => [m.thinkingStart, m.toolStart]
    case InThinking(_) => [m.thinkingEnd]
    case InTool(_) => [m.toolEnd]
  }

  /** No marker that can end `a` occurs before `at`, and none at `at` is shorter. */
  ghost predicate NoneBefore(m: Markers, a: Segment, text: string, at: nat, len: nat) {
    forall e, j: nat | e in Enders(m, a) && e.Some? && Occurs(text, e.value, j) ::
        at < j || (at == j && len <= |e.value|)
  }

  /** The segments, with the markers between them, are the text; each ends at the first marker that can end it. */
  ghost predicate Reading(m: Markers, text: string, segs: seq<Segment>)
    decreases |segs|
  {
    && 0 < |segs|
    && if |segs| == 1 then segs[0].text == text && NoneBefore(m, segs[0], text, |text| + 1, 0)
       else
         var a, marker := segs[0], Between(m, segs[0], segs[1]);
         && marker.Some? && a.text + marker.value <= text
         && NoneBefore(m, a, text, |a.text|, |marker.value|)
         && Reading(m, text[|a.text| + |marker.value|..], segs[1..])
  }

  // ---------------------------------------------------------------- what is to be said

  /** The events of one segment that has ended. */
  function SaidOf<V>(parse: string -> Option<V>, a: Segment): Option<seq<Event<V>>> {
    match a
    case Outside(s) => Some(if s == "" then [] else [ContentText(s)])
    case InThinking(s) => Some(if s == "" then [] else [ThinkingText(s)])
    case InTool(raw) =>
      var value :- parse(raw);
      Some([Call(value, raw)])
  }

  function Said<V>(parse: string -> Option<V>, segs: seq<Segment>): Option<seq<Event<V>>> {
    if |segs| == 0 then Some([])
    else
      var first :- SaidOf(parse, segs[0]);
      var rest :- Said(parse, segs[1..]);
      Some(first + rest)
  }

  // ---------------------------------------------------------------- the scan follows the reading

  function StateOf(a: Segment): State {
    match a
    case Outside(_) => Content
    case InThinking(_) => Thinking
    case InTool(_) => ToolCall
  }

  function KindOf(a: Segment, b: Segment): Kind {
    match a
    case Outside(_) => if b.InTool? then ToolStart else ThinkingStart
    case InThinking(_) => ThinkingEnd
    case InTool(_) => ToolEnd
  }

  lemma NoNext(m: Markers, text: string, a: Segment)
    requires NoneBefore(m, a, text, |text| + 1, 0)
    ensures NextMarker(m, StateOf(a), text).None?
  {
    hide Find;
    var e := Enders(m, a);
    assert m.Of(Active(StateOf(a))[0]) == e[0] && e[0] in e && e[|e| - 1] in e;
  }

  /** The first of the markers that can end `a`, found. */
  lemma NextIs(m: Markers, text: string, a: Segment, b: Segment)
    requires Between(m, a, b).Some? && a.text + Between(m, a, b).value <= text
    requires NoneBefore(m, a, text, |a.text|, |Between(m, a, b).value|)
    ensures NextMarker(m, StateOf(a), text) == Some((|a.text|, KindOf(a, b)))
    ensures m.Of(KindOf(a, b)) == Between(m, a, b) && After(KindOf(a, b)) == StateOf(b)
  {
    var marker, at := Between(m, a, b).value, |a.text|;
    assert text[at..at + |marker|] == marker;
    assert Between(m, a, b) in Enders(m, a);
    FindIs(text, marker, at);
    if a.Outside? {
      var other := if b.InTool? then m.thinkingStart else m.toolStart;
      assert other in Enders(m, a);
      if other.Some? && Find(text, other.value) == Some(at) {
        assert |marker| <= |other.value|;
        if |marker| == |other.value| {
          assert text[at..at + |other.value|] == other.value;
        }
      }
    }
  }

  lemma JoinSegment<V>(parse: string -> Option<V>, j: Joined<V>, a: Segment, b: Segment)
    requires j.buffer == "" && (a.Outside? <==> !b.Outside?)
    ensures Join(parse, j, [Text(StateOf(a), a.text), Mark(KindOf(a, b))]) ==
            match SaidOf(parse, a)
            case None => None
            case Some(es) => Some(Joined(AddAll(j.events, es), ""))
  {
    hide AddAll;
    EmitTwo(parse, Text(StateOf(a), a.text), Mark(KindOf(a, b)), "");
    var none: seq<Event<V>> := [];
    assert "" + a.text == a.text && none + none == none;
    if SaidOf(parse, a).Some? {
      var es := SaidOf(parse, a).value;
      assert es + none == es && none + es == es;
    }
  }

  /** The text after the last marker. */
  lemma JoinLast<V>(parse: string -> Option<V>, j: Joined<V>, a: Segment)
    requires j.buffer == "" && !a.InTool?
    ensures SaidOf(parse, a).Some?
    ensures Join(parse, j, [Text(StateOf(a), a.text)]) ==
            Some(Joined(AddAll(j.events, SaidOf(parse, a).value), ""))
  {
    hide AddAll;
    EmitOne(parse, Text(StateOf(a), a.text), "");
  }

  /** Scanning the text says what its segments say. */
  lemma {:induction false} ScanSays<V>(m: Markers, parse: string -> Option<V>, j: Joined<V>, text: string,
      segs: seq<Segment>)
    requires m.Valid() && j.buffer == "" && Reading(m, text, segs)
    ensures ScanState(m, StateOf(segs[0]), text) == StateOf(segs[|segs| - 1])
    ensures !segs[|segs| - 1].InTool? ==>
              Join(parse, j, Scan(m, StateOf(segs[0]), text)) ==
              match Said(parse, segs)
              case None => None
              case Some(es) => Some(Joined(AddAll(j.events, es), ""))
    decreases |segs|
  {
    hide NextMarker, Join, Scan, ScanState, NoneBefore, SaidOf, AddAll;
    var a, q := segs[0], StateOf(segs[0]);
    ScanUnfolds(m, q, text);
    if |segs| == 1 {
      NoNext(m, text, a);
      if !a.InTool? {
        JoinLast(parse, j, a);
        assert Said(parse, segs[1..]) == Some([]);
        assert SaidOf(parse, a).value + [] == SaidOf(parse, a).value;
      }
    } else {
      var b, k := segs[1], KindOf(a, segs[1]);
      var marker := Between(m, a, b).value;
      NextIs(m, text, a, b);
      assert text[..|a.text|] == a.text;
      var rest := text[|a.text| + |marker|..];
      var head, tail := [Text(q, a.text), Mark(k)], Scan(m, StateOf(b), rest);
      assert [Text(q, a.text)] + ([Mark(k)] + tail) == head + tail;
      JoinPlus(parse, j, head, tail);
      JoinSegment(parse, j, a, b);
      assert segs[1..][|segs| - 2] == segs[|segs| - 1];
      if SaidOf(parse, a).Some? {
        var es := SaidOf(parse, a).value;
        ScanSays(m, parse, Joined(AddAll(j.events, es), ""), rest, segs[1..]);
        if Said(parse, segs[1..]).Some? {
          AddAllPlus(j.events, es, Said(parse, segs[1..]).value);
        }
      } else {
        ScanSays(m, parse, j, rest, segs[1..]);
      }
    }
  }

  /** Every text has a reading that begins where the splitter stands. */
  lemma {:induction false} ReadingExists(m: Markers, q: State, text: string) returns (segs: seq<Segment>)
    requires m.Valid()
    ensures Reading(m, text, segs) && StateOf(segs[0]) == q
    decreases |text|
  {
    hide NextMarker;
    var next := NextMarker(m, q, text);
    if next.None? {
      segs := [SegmentIn(q, text)];
      NextNone(m, q, text);
    } else {
      MarkerFits(m, q, text);
      var (i, k) := next.value;
      var marker := m.Of(k).value;
      var rest := ReadingExists(m, After(k), text[i + |marker|..]);
      var a := SegmentIn(q, text[..i]);
      segs := [a] + rest;
      NextFirst(m, q, text);
      assert segs[1..] == rest;
      assert Between(m, a, rest[0]) == Some(marker);
    }
  }

  function SegmentIn(q: State, text: string): (a: Segment)
    ensures StateOf(a) == q && a.text == text
  {
    match q
    case Content => Outside(text)
    case Thinking => InThinking(text)
    case ToolCall => InTool(text)
  }

  lemma NextNone(m: Markers, q: State, text: string)
    requires m.Valid() && NextMarker(m, q, text).None?
    ensures NoneBefore(m, SegmentIn(q, text), text, |text| + 1, 0)
  {
    hide Find;
  }

  lemma NextFirst(m: Markers, q: State, text: string)
    requires m.Valid() && NextMarker(m, q, text).Some?
    ensures var (i, k) := NextMarker(m, q, text).value;
            && i <= |text| && NoneBefore(m, SegmentIn(q, text[..i]), text, i, |m.Of(k).value|)
            && text[..i] + m.Of(k).value <= text
            && (k == ToolStart ==> m.thinkingStart != m.toolStart)
  {
    hide Find;
  }

  // ---------------------------------------------------------------- whole streams

  /** No tool section is left open, and every closed one holds what `parse` accepts. */
  ghost predicate Sayable<V>(parse: string -> Option<V>, segs: seq<Segment>)
    requires 0 < |segs|
  {
    && !segs[|segs| - 1].InTool?
    && forall i | 0 <= i < |segs| && segs[i].InTool? :: parse(segs[i].text).Some?
  }

  lemma {:induction false} SaidIff<V>(parse: string -> Option<V>, segs: seq<Segment>)
    ensures Said(parse, segs).Some? <==> forall i | 0 <= i < |segs| && segs[i].InTool? :: parse(segs[i].text).Some?
    decreases |segs|
  {
    if 0 < |segs| {
      SaidIff(parse, segs[1..]);
      assert forall i | 0 < i < |segs| :: segs[i] == segs[1..][i - 1];
    }
  }

  /** The joined events, or the failure, of a stream, from the reading of its text alone. */
  lemma StreamSays<V>(m: Markers, parse: string -> Option<V>, chunks: seq<string>, segs: seq<Segment>)
    requires m.Valid() && NoConflict(m) && Reading(m, Flat(chunks), segs)
    ensures var streamed := Streamed(m, parse, Stream(StateOf(segs[0]), "", "", []), chunks);
            && (streamed.Some? <==> Sayable(parse, segs))
            && (streamed.Some? ==> Said(parse, segs).Some?)
            && (streamed.Some? ==> JoinedEvents(streamed) == Some(AddAll([], Said(parse, segs).value + [Finished])))
  {
    hide Streamed, Join, Scan, ScanState, Said, NoneBefore, NoConflict, AddAll;
    var q, text := StateOf(segs[0]), Flat(chunks);
    var start := Stream<V>.Stream(q, "", "", []);
    StreamedIsReference(m, parse, start, chunks);
    assert "" + text == text;
    assert AddAll([], start.events) == [] by { AddNothing<V>(); }
    ScanSays(m, parse, Joined([], ""), text, segs);
    SaidIff(parse, segs);
    if Said(parse, segs).Some? {
      AddAllPlus([], Said(parse, segs).value, [Finished]);
    }
  }

  lemma AddNothing<V>()
    ensures AddAll<V>([], []) == []
  {
  }

  // ---------------------------------------------------------------- channel by channel

  function ContentIn<V>(e: Event<V>): string {
    if e.ContentText? then e.text else ""
  }

  function ThinkingIn<V>(e: Event<V>): string {
    if e.ThinkingText? then e.text else ""
  }

  function CallsIn<V>(e: Event<V>): seq<(V, string)> {
    if e.Call? then [(e.value, e.raw)] else []
  }

  function ContentOf<V>(events: seq<Event<V>>): string {
    if |events| == 0 then ""
    else ContentOf(events[..|events| - 1]) + ContentIn(events[|events| - 1])
  }

  function ThinkingOf<V>(events: seq<Event<V>>): string {
    if |events| == 0 then ""
    else ThinkingOf(events[..|events| - 1]) + ThinkingIn(events[|events| - 1])
  }

  function CallsOf<V>(events: seq<Event<V>>): seq<(V, string)> {
    if |events| == 0 then []
    else CallsOf(events[..|events| - 1]) + CallsIn(events[|events| - 1])
  }

  function OutsideIn(a: Segment): string {
    if a.Outside? then a.text else ""
  }

  function SectionIn(a: Segment): string {
    if a.InThinking? then a.text else ""
  }

  function ToolIn(a: Segment): seq<string> {
    if a.InTool? then [a.text] else []
  }

  function OutsideText(segs: seq<Segment>): string {
    if |segs| == 0 then "" else OutsideIn(segs[0]) + OutsideText(segs[1..])
  }

  function ThinkingSections(segs: seq<Segment>): string {
    if |segs| == 0 then "" else SectionIn(segs[0]) + ThinkingSections(segs[1..])
  }

  function ToolSections(segs: seq<Segment>): seq<string> {
    if |segs| == 0 then [] else ToolIn(segs[0]) + ToolSections(segs[1..])
  }

  /** Joining neighbours moves no text to another channel. */
  lemma ChannelsAdd<V>(events: seq<Event<V>>, e: Event<V>)
    ensures ContentOf(AddEvent(events, e)) == ContentOf(events + [e])
    ensures ThinkingOf(AddEvent(events, e)) == ThinkingOf(events + [e])
    ensures CallsOf(AddEvent(events, e)) == CallsOf(events + [e])
  {
    hide ContentOf, ThinkingOf, CallsOf;
    var added := AddEvent(events, e);
    if added != events + [e] {
      var front, last, merged := events[..|events| - 1], events[|events| - 1], added[|events| - 1];
      assert events == front + [last] && added == front + [merged];
      ChannelsSnoc(front, last);
      ChannelsSnoc(front, merged);
      ChannelsSnoc(events, e);
      Associates(ContentOf(front), ContentIn(last), ContentIn(e));
      Associates(ThinkingOf(front), ThinkingIn(last), ThinkingIn(e));
      Associates(CallsOf(front), CallsIn(last), CallsIn(e));
      MergedChannels(last, e, merged);
    }
  }

  lemma MergedChannels<V>(a: Event<V>, b: Event<V>, merged: Event<V>)
    requires (a.ContentText? && b.ContentText? && merged == ContentText(a.text + b.text)) ||
             (a.ThinkingText? && b.ThinkingText? && merged == ThinkingText(a.text + b.text))
    ensures ContentIn(merged) == ContentIn(a) + ContentIn(b) && ThinkingIn(merged) == ThinkingIn(a) + ThinkingIn(b)
    ensures CallsIn(merged) == CallsIn(a) + CallsIn(b)
  {
  }

  lemma {:induction false} ChannelsJoin<V>(events: seq<Event<V>>)
    ensures var joined := AddAll([], events);
            && ContentOf(joined) == ContentOf(events) && ThinkingOf(joined) == ThinkingOf(events)
            && CallsOf(joined) == CallsOf(events)
    decreases |events|
  {
    hide AddEvent;
    if 0 < |events| {
      var front, last := events[..|events| - 1], events[|events| - 1];
      ChannelsJoin(front);
      ChannelsAdd(AddAll([], front), last);
      var joined := AddAll([], front) + [last];
      assert joined[..|joined| - 1] == AddAll([], front);
    }
  }

  lemma ChannelsSnoc<V>(events: seq<Event<V>>, e: Event<V>)
    ensures ContentOf(events + [e]) == ContentOf(events) + ContentIn(e)
    ensures ThinkingOf(events + [e]) == ThinkingOf(events) + ThinkingIn(e)
    ensures CallsOf(events + [e]) == CallsOf(events) + CallsIn(e)
  {
    var all := events + [e];
    assert all[..|all| - 1] == events;
  }

  lemma Associates<T>(a: seq<T>, b: seq<T>, c: seq<T>)
    ensures (a + b) + c == a + (b + c)
  {
  }

  lemma {:induction false} ChannelsPlus<V>(a: seq<Event<V>>, b: seq<Event<V>>)
    ensures ContentOf(a + b) == ContentOf(a) + ContentOf(b)
    ensures ThinkingOf(a + b) == ThinkingOf(a) + ThinkingOf(b)
    ensures CallsOf(a + b) == CallsOf(a) + CallsOf(b)
    decreases |b|
  {
    if |b| == 0 {
      assert a + b == a;
    } else {
      hide ContentIn, ThinkingIn, CallsIn, ContentOf, ThinkingOf, CallsOf;
      var front, last := b[..|b| - 1], b[|b| - 1];
      assert a + b == (a + front) + [last] && b == front + [last];
      ChannelsPlus(a, front);
      ChannelsSnoc(a + front, last);
      ChannelsSnoc(front, last);
      Associates(ContentOf(a), ContentOf(front), ContentIn(last));
      Associates(ThinkingOf(a), ThinkingOf(front), ThinkingIn(last));
      Associates(CallsOf(a), CallsOf(front), CallsIn(last));
    }
  }

  /** Each event of a call carries a tool section and its parsed value. */
  ghost predicate Parsed<V>(parse: string -> Option<V>, calls: seq<(V, string)>, raws: seq<string>) {
    |calls| == |raws| && forall i | 0 <= i < |raws| :: calls[i].1 == raws[i] && parse(raws[i]) == Some(calls[i].0)
  }

  lemma ChannelsOne<V>(parse: string -> Option<V>, a: Segment)
    requires SaidOf(parse, a).Some?
    ensures var es := SaidOf(parse, a).value;
            && ContentOf(es) == OutsideIn(a) && ThinkingOf(es) == SectionIn(a)
            && Parsed(parse, CallsOf(es), ToolIn(a))
  {
    var es := SaidOf(parse, a).value;
    assert |es| == 1 ==> es[..0] == [];
  }

  lemma ParsedNone<V>(parse: string -> Option<V>)
    ensures Parsed(parse, [], [])
  {
  }

  lemma ParsedPlus<V>(parse: string -> Option<V>, a: seq<(V, string)>, raws: seq<string>, b: seq<(V, string)>,
      more: seq<string>)
    requires Parsed(parse, a, raws) && Parsed(parse, b, more)
    ensures Parsed(parse, a + b, raws + more)
  {
  }

  lemma {:induction false} ChannelsSaid<V>(parse: string -> Option<V>, segs: seq<Segment>)
    requires Said(parse, segs).Some?
    ensures var es := Said(parse, segs).value;
            && ContentOf(es) == OutsideText(segs) && ThinkingOf(es) == ThinkingSections(segs)
            && Parsed(parse, CallsOf(es), ToolSections(segs))
    decreases |segs|
  {
    hide SaidOf, ContentOf, ThinkingOf, CallsOf, Parsed, OutsideIn, SectionIn, ToolIn;
    if |segs| == 0 {
      assert ContentOf<V>([]) == "" && ThinkingOf<V>([]) == "" && CallsOf<V>([]) == [] by { ChannelsNone<V>(); }
      ParsedNone(parse);
    } else {
      ChannelsOne(parse, segs[0]);
      ChannelsSaid(parse, segs[1..]);
      var es, more := SaidOf(parse, segs[0]).value, Said(parse, segs[1..]).value;
      ChannelsPlus(es, more);
      ParsedPlus(parse, CallsOf(es), ToolIn(segs[0]), CallsOf(more), ToolSections(segs[1..]));
    }
  }

  lemma ChannelsNone<V>()
    ensures ContentOf<V>([]) == "" && ThinkingOf<V>([]) == "" && CallsOf<V>([]) == []
  {
  }

  lemma ChannelsFinished<V>()
    ensures ContentOf<V>([Finished]) == "" && ThinkingOf<V>([Finished]) == "" && CallsOf<V>([Finished]) == []
  {
    assert [Event<V>.Finished][..0] == [];
  }

  /** What is said on each channel: the text outside every section as content, the text inside the
      thinking sections as thinking, and the tool sections with their parsed values as calls, in order. */
  ghost predicate SaysChannels<V>(parse: string -> Option<V>, segs: seq<Segment>, events: seq<Event<V>>) {
    && ContentOf(events) == OutsideText(segs)
    && ThinkingOf(events) == ThinkingSections(segs)
    && Parsed(parse, CallsOf(events), ToolSections(segs))
  }

  lemma JoinedChannels<V>(parse: string -> Option<V>, segs: seq<Segment>, events: seq<Event<V>>)
    requires Said(parse, segs).Some?
    requires AddAll([], events) == AddAll([], Said(parse, segs).value + [Finished])
    ensures SaysChannels(parse, segs, events)
  {
    hide Said, AddAll, ContentOf, ThinkingOf, CallsOf, Parsed;
    var es := Said(parse, segs).value;
    ChannelsJoin(events);
    ChannelsJoin(es + [Finished]);
    ChannelsPlus(es, [Finished]);
    ChannelsSaid(parse, segs);
    ChannelsFinished<V>();
    assert ContentOf(es) + "" == ContentOf(es) && ThinkingOf(es) + "" == ThinkingOf(es) &&
        CallsOf(es) + [] == CallsOf(es);
  }

  /** For every text, every reading of it and every chunking, without a conflicting pair of markers. */
  lemma StreamChannels<V>(m: Markers, parse: string -> Option<V>, chunks: seq<string>, segs: seq<Segment>)
    requires m.Valid() && NoConflict(m) && Reading(m, Flat(chunks), segs)
    requires Streamed(m, parse, Stream(StateOf(segs[0]), "", "", []), chunks).Some?
    ensures SaysChannels(parse, segs, Streamed(m, parse, Stream(StateOf(segs[0]), "", "", []), chunks).value)
  {
    hide Streamed, Said, NoneBefore, NoConflict, AddAll, SaysChannels;
    StreamSays(m, parse, chunks, segs);
    JoinedChannels(parse, segs, Streamed(m, parse, Stream(StateOf(segs[0]), "", "", []), chunks).value);
  }

  // ---------------------------------------------------------------- any markers, any chunking

  /** Every two neighbours have a marker between them. */
  predicate Linked(m: Markers, segs: seq<Segment>) {
    0 < |segs| && forall i | 0 <= i < |segs| - 1 :: Between(m, segs[i], segs[i + 1]).Some?
  }

  /** The segments with their markers. */
  function Rendered(m: Markers, segs: seq<Segment>): string
    requires Linked(m, segs)
  {
    var n := |segs| - 1;
    if n == 0 then segs[0].text
    else Rendered(m, segs[..n]) + Between(m, segs[n - 1], segs[n]).value + segs[n].text
  }

  /** `j` is what has been said of the segments `done`, which have ended, and of the current one. */
  ghost predicate Saying<V>(parse: string -> Option<V>, done: seq<Segment>, a: Segment, j: Joined<V>) {
    && Said(parse, done).Some?
    && if a.InTool? then j == Joined(AddAll([], Said(parse, done).value), a.text)
       else j == Joined(AddAll(AddAll([], Said(parse, done).value), SaidOf(parse, a).value), "")
  }

  lemma {:induction false} SaidSnoc<V>(parse: string -> Option<V>, done: seq<Segment>, a: Segment)
    ensures Said(parse, done + [a]) ==
            match Said(parse, done)
            case None => None
            case Some(es) => match SaidOf(parse, a) case None => None case Some(more) => Some(es + more)
    decreases |done|
  {
    hide SaidOf;
    var all := done + [a];
    if |done| == 0 {
      assert all[1..] == [] && all[0] == a;
      if SaidOf(parse, a).Some? {
        var es := SaidOf(parse, a).value;
        assert es + [] == es && [] + es == es;
      }
    } else {
      assert all[1..] == done[1..] + [a];
      SaidSnoc(parse, done[1..], a);
      if SaidOf(parse, done[0]).Some? && Said(parse, done[1..]).Some? && SaidOf(parse, a).Some? {
        Associates(SaidOf(parse, done[0]).value, Said(parse, done[1..]).value, SaidOf(parse, a).value);
      }
    }
  }

  /** More text of the current segment. */
  lemma TextSaid<V>(parse: string -> Option<V>, done: seq<Segment>, a: Segment, j: Joined<V>, t: string)
    requires Saying(parse, done, a, j)
    ensures var j' := Join(parse, j, [Text(StateOf(a), t)]);
            j'.Some? && Saying(parse, done, SegmentIn(StateOf(a), a.text + t), j'.value)
  {
    hide AddAll;
    var q, before := StateOf(a), Joined(AddAll([], Said(parse, done).value), "");
    EmitOne(parse, Text(q, t), j.buffer);
    AddAllPlus(j.events, [], []);
    if a.InTool? {
      assert AddAll(j.events, []) == j.events by { AddsNothing(j.events); }
      assert a.text + "" == a.text;
    } else {
      TextCut(parse, before, q, a.text, t);
      EmitOne(parse, Text(q, a.text), "");
      EmitOne(parse, Text(q, a.text + t), "");
      assert [Text(q, a.text), Text(q, t)] == [Text(q, a.text)] + [Text(q, t)];
      JoinPlus(parse, before, [Text(q, a.text)], [Text(q, t)]);
    }
  }

  lemma AddsNothing<V>(events: seq<Event<V>>)
    ensures AddAll(events, []) == events
  {
  }

  /** The marker that ends the current segment. */
  lemma MarkSaid<V>(parse: string -> Option<V>, done: seq<Segment>, a: Segment, j: Joined<V>, k: Kind)
    requires Saying(parse, done, a, j) && k in Active(StateOf(a)) && Join(parse, j, [Mark(k)]).Some?
    ensures Saying(parse, done + [a], SegmentIn(After(k), ""), Join(parse, j, [Mark(k)]).value)
  {
    hide AddAll;
    EmitOne(parse, Mark(k), j.buffer);
    SaidSnoc(parse, done, a);
    var es := Said(parse, done).value;
    var ended := SaidOf(parse, a).value;
    AddAllPlus([], es, ended);
    AddsNothing(j.events);
    AddsNothing(AddAll(AddAll([], es), ended));
  }

  /** Text and then a marker. */
  lemma SectionSaid<V>(m: Markers, parse: string -> Option<V>, done: seq<Segment>, a: Segment, j: Joined<V>, t: string,
      k: Kind)
    requires Saying(parse, done, a, j) && Linked(m, done + [a]) && k in Active(StateOf(a))
    requires m.Of(k).Some? && (k == ToolStart ==> m.thinkingStart != m.toolStart)
    requires Join(parse, j, [Text(StateOf(a), t), Mark(k)]).Some?
    ensures var ended, b := SegmentIn(StateOf(a), a.text + t), SegmentIn(After(k), "");
            && Linked(m, (done + [ended]) + [b])
            && Rendered(m, (done + [ended]) + [b]) == Rendered(m, done + [a]) + t + m.Of(k).value
            && StateOf(((done + [ended]) + [b])[0]) == StateOf((done + [a])[0])
            && Saying(parse, done + [ended], b, Join(parse, j, [Text(StateOf(a), t), Mark(k)]).value)
  {
    hide Join, Saying, Rendered;
    var q := StateOf(a);
    var ended, b := SegmentIn(q, a.text + t), SegmentIn(After(k), "");
    assert [Text(q, t), Mark(k)] == [Text(q, t)] + [Mark(k)];
    JoinPlus(parse, j, [Text(q, t)], [Mark(k)]);
    TextSaid(parse, done, a, j, t);
    MarkSaid(parse, done, ended, Join(parse, j, [Text(q, t)]).value, k);
    MoreText(m, done, a, t);
    NextSegment(m, done, ended, b, m.Of(k).value);
  }

  lemma LastSaid<V>(m: Markers, parse: string -> Option<V>, done: seq<Segment>, a: Segment, j: Joined<V>, t: string,
      h: string)
    requires Saying(parse, done, a, j) && Linked(m, done + [a])
    ensures var b, j' := SegmentIn(StateOf(a), a.text + t), Join(parse, j, [Text(StateOf(a), t)]);
            && Linked(m, done + [b]) && Rendered(m, done + [b]) + h == Rendered(m, done + [a]) + (t + h)
            && StateOf((done + [b])[0]) == StateOf((done + [a])[0])
            && j'.Some? && Saying(parse, done, b, j'.value)
  {
    hide Join, Saying, Rendered;
    TextSaid(parse, done, a, j, t);
    MoreText(m, done, a, t);
    Associates(Rendered(m, done + [a]), t, h);
  }

  /** One drain: what it says, and the text it has read. */
  lemma {:induction false} DrainSays<V>(m: Markers, parse: string -> Option<V>, done: seq<Segment>, a: Segment,
      j: Joined<V>, text: string, final: bool)
    returns (done': seq<Segment>, a': Segment)
    requires m.Valid() && Saying(parse, done, a, j) && Linked(m, done + [a])
    requires Join(parse, j, Drain(m, StateOf(a), text, final).pieces).Some?
    ensures var d := Drain(m, StateOf(a), text, final);
            && StateOf(a') == d.state && Linked(m, done' + [a'])
            && Rendered(m, done' + [a']) + d.pending == Rendered(m, done + [a]) + text
            && StateOf((done' + [a'])[0]) == StateOf((done + [a])[0])
            && Saying(parse, done', a', Join(parse, j, d.pieces).value)
    decreases |text|
  {
    hide Drain, NextMarker, Join, Saying, LongestHold, Occurs, Linked, Rendered, NoneBefore;
    var q := StateOf(a);
    DrainUnfolds(m, q, text, final);
    var next := NextMarker(m, q, text);
    if next.None? {
      var safe := if final then |text| else |text| - LongestHold(text, Candidates(m, q));
      done', a' := done, SegmentIn(q, a.text + text[..safe]);
      LastSaid(m, parse, done, a, j, text[..safe], text[safe..]);
      assert text[..safe] + text[safe..] == text;
    } else {
      var i, k := next.value.0, next.value.1;
      MarkerFits(m, q, text);
      NextFirst(m, q, text);
      var marker := m.Of(k).value;
      var head, rest := [Text(q, text[..i]), Mark(k)], text[i + |marker|..];
      JoinPlus(parse, j, head, Drain(m, After(k), rest, final).pieces);
      SectionSaid(m, parse, done, a, j, text[..i], k);
      var ended, b := SegmentIn(q, a.text + text[..i]), SegmentIn(After(k), "");
      done', a' := DrainSays(m, parse, done + [ended], b, Join(parse, j, head).value, rest, final);
      TextParts(Rendered(m, done + [a]), text, i, marker);
    }
  }

  lemma TextParts(r: string, text: string, i: nat, marker: string)
    requires i + |marker| <= |text| && text[..i] + marker <= text
    ensures (r + text[..i] + marker) + text[i + |marker|..] == r + text
  {
    assert text == (text[..i] + marker) + text[i + |marker|..];
  }

  lemma MoreText(m: Markers, done: seq<Segment>, a: Segment, t: string)
    requires Linked(m, done + [a])
    ensures var more := done + [SegmentIn(StateOf(a), a.text + t)];
            && Linked(m, more) && Rendered(m, more) == Rendered(m, done + [a]) + t
            && StateOf(more[0]) == StateOf((done + [a])[0])
  {
    var b, n := SegmentIn(StateOf(a), a.text + t), |done|;
    var before, more := done + [a], done + [b];
    assert before[..n] == done && more[..n] == done && before[n] == a && more[n] == b;
    LinkedLast(m, done, a, b);
    if 0 < n {
      LinkedAt(m, before, n - 1);
      Associates(Rendered(m, done) + Between(m, done[n - 1], a).value, a.text, t);
    }
  }

  lemma LinkedAt(m: Markers, segs: seq<Segment>, i: nat)
    requires Linked(m, segs) && i + 1 < |segs|
    ensures Between(m, segs[i], segs[i + 1]).Some? && Linked(m, segs[..i + 1])
  {
  }

  /** The last segment may change within its state. */
  lemma LinkedLast(m: Markers, done: seq<Segment>, a: Segment, b: Segment)
    requires Linked(m, done + [a]) && StateOf(a) == StateOf(b)
    ensures Linked(m, done + [b])
  {
    var before, more := done + [a], done + [b];
    forall i | 0 <= i < |done| ensures Between(m, more[i], more[i + 1]).Some? {
      assert Between(m, before[i], before[i + 1]).Some?;
      assert before[i] == more[i] && (i + 1 < |done| ==> before[i + 1] == more[i + 1]);
    }
  }

  lemma NextSegment(m: Markers, done: seq<Segment>, a: Segment, b: Segment, marker: string)
    requires Linked(m, done + [a]) && Between(m, a, b) == Some(marker) && b.text == ""
    ensures Linked(m, (done + [a]) + [b]) && Rendered(m, (done + [a]) + [b]) == Rendered(m, done + [a]) + marker
    ensures StateOf(((done + [a]) + [b])[0]) == StateOf((done + [a])[0])
  {
    var before := done + [a];
    var all := before + [b];
    assert all[..|before|] == before;
    forall i | 0 <= i < |all| - 1 ensures Between(m, all[i], all[i + 1]).Some? {
      assert i < |before| - 1 ==> Between(m, before[i], before[i + 1]).Some?;
    }
    assert (Rendered(m, before) + marker) + "" == Rendered(m, before) + marker;
  }

  /** For every text, every chunking and all markers: the input is cut into segments with markers between
      them, and the joined events are what these segments say. */
  lemma {:induction false} StreamCuts<V>(m: Markers, parse: string -> Option<V>, s: Stream<V>, chunks: seq<string>,
      done: seq<Segment>, a: Segment)
    returns (segs: seq<Segment>)
    requires m.Valid() && StateOf(a) == s.state && Linked(m, done + [a])
    requires Saying(parse, done, a, Joined(AddAll([], s.events), s.buffer))
    requires Streamed(m, parse, s, chunks).Some?
    ensures Linked(m, segs) && Rendered(m, segs) == Rendered(m, done + [a]) + (s.pending + Flat(chunks))
    ensures StateOf(segs[0]) == StateOf((done + [a])[0]) && !segs[|segs| - 1].InTool?
    ensures Said(parse, segs).Some?
    ensures JoinedEvents(Streamed(m, parse, s, chunks)) == Some(AddAll([], Said(parse, segs).value + [Finished]))
    decreases |chunks|
  {
    hide Drain, Emit, AddAll, Rendered;
    var j := Joined(AddAll([], s.events), s.buffer);
    var text := if |chunks| == 0 then s.pending else s.pending + chunks[0];
    var d := Drain(m, s.state, text, |chunks| == 0);
    var e := Emit(parse, d.pieces, s.buffer).value;
    AddAllPlus([], s.events, e.0);
    var done', a' := DrainSays(m, parse, done, a, j, text, |chunks| == 0);
    if |chunks| == 0 {
      segs := done' + [a'];
      DrainConserves(m, s.state, text, true);
      assert s.pending + Flat(chunks) == s.pending;
      SaidSnoc(parse, done', a');
      AddAllPlus([], Said(parse, done').value, SaidOf(parse, a').value);
      AddAllPlus([], s.events + e.0, [Finished]);
      AddAllPlus([], Said(parse, segs).value, [Finished]);
      assert Rendered(m, segs) + "" == Rendered(m, segs);
    } else {
      segs := StreamCuts(m, parse, Pushed(m, parse, s, chunks[0]).value, chunks[1..], done', a');
      Associates(Rendered(m, done' + [a']), d.pending, Flat(chunks[1..]));
      Associates(Rendered(m, done + [a]), text, Flat(chunks[1..]));
      Associates(s.pending, chunks[0], Flat(chunks[1..]));
    }
  }

  /** The same for a whole stream: even where a chunking changes which marker is seen, all text between
      two markers of the resulting cut is said on the channel that these markers open. */
  lemma CutChannels<V>(m: Markers, parse: string -> Option<V>, q: State, chunks: seq<string>)
    returns (segs: seq<Segment>)
    requires m.Valid() && Streamed(m, parse, Stream(q, "", "", []), chunks).Some?
    ensures Linked(m, segs) && Rendered(m, segs) == Flat(chunks)
    ensures StateOf(segs[0]) == q && !segs[|segs| - 1].InTool?
    ensures SaysChannels(parse, segs, Streamed(m, parse, Stream(q, "", "", []), chunks).value)
  {
    hide Streamed, SaysChannels;
    var a := SegmentIn(q, "");
    var none: seq<Segment> := [];
    assert none + [a] == [a] && "" + ("" + Flat(chunks)) == Flat(chunks);
    assert Said(parse, none) == Some([]);
    AddNothing<V>();
    assert Saying<V>(parse, none, a, Joined([], ""));
    segs := StreamCuts(m, parse, Stream<V>.Stream(q, "", "", []), chunks, none, a);
    JoinedChannels(parse, segs, Streamed(m, parse, Stream(q, "", "", []), chunks).value);
  }
}
