/** `TokenDecoder` (src/frontend/decoder.rs): incremental decoding that never emits the beginning of
    a stop string.  Text is a sequence of characters; lengths in bytes are those of UTF-8. */
module StopGuard {
  import opened Wrappers
  import opened TextSearch

  type Token = nat

  function CharBytes(c: char): nat {
    if (c as int) < 0x80 then 1 else if (c as int) < 0x800 then 2 else if (c as int) < 0x10000 then 3 else 4
  }

  function Utf8Len(s: string): nat {
    if |s| == 0 then 0 else CharBytes(s[0]) + Utf8Len(s[1..])
  }

  lemma {:induction false} Utf8Plus(a: string, b: string)
    ensures Utf8Len(a + b) == Utf8Len(a) + Utf8Len(b)
    decreases |a|
  {
    if |a| == 0 {
      assert a + b == b;
    } else {
      assert (a + b)[1..] == a[1..] + b;
      Utf8Plus(a[1..], b);
    }
  }

  // ---------------------------------------------------------------- the first stop

  /** The stop that begins first, and of two beginning together the shorter one; none if none occurs. */
  ghost predicate IsFirst(text: string, stops: seq<string>, r: Option<(nat, string)>) {
    if r.Some? then
      && r.value.1 in stops && Occurs(text, r.value.1, r.value.0)
      && forall k, j: nat | 0 <= k < |stops| && Occurs(text, stops[k], j) ::
           r.value.0 < j || (r.value.0 == j && |r.value.1| <= |stops[k]|)
    else
      forall k, j: nat | 0 <= k < |stops| :: !Occurs(text, stops[k], j)
  }

  function FirstStop(text: string, stops: seq<string>): (r: Option<(nat, string)>)
    ensures IsFirst(text, stops, r) && (r.Some? ==> r.value.0 <= |text|)
  {
    if |stops| == 0 then None
    else
      var n := |stops| - 1;
      var before := FirstStop(text, stops[..n]);
      match Find(text, stops[n])
      case None => before
      case Some(i) =>
        if before.None? || i < before.value.0 || (i == before.value.0 && |stops[n]| < |before.value.1|) then
            Some((i, stops[n])) else before
  }

  method FindStop(text: string, stops: seq<string>) returns (r: Option<(nat, string)>)
    ensures r == FirstStop(text, stops)
  {
    r := None;
    for n := 0 to |stops|
      invariant r == FirstStop(text, stops[..n])
    {
      assert stops[..n + 1][..n] == stops[..n];
      var at := Find(text, stops[n]);
      if at.Some? && (r.None? || at.value < r.value.0 || (at.value == r.value.0 && |stops[n]| < |r.value.1|)) {
        r := Some((at.value, stops[n]));
      }
    }
    assert stops[..|stops|] == stops;
  }

  // ---------------------------------------------------------------- the decoder

  datatype Chunk = Chunk(text: string, stop: Option<string>, finished: bool)

  /** `emitted` is all text returned so far. */
  datatype DecoderView = DecoderView(
    ids: seq<Token>, decoded: string, pending: string, emittedBytes: nat, finished: bool, emitted: string)

  datatype Config = Config(decode: seq<Token> -> Option<string>, stops: seq<string>, maxBytes: nat) {
    predicate Valid() {
      0 < maxBytes && forall s | s in stops :: s != ""
    }
  }

  const REPLACEMENT: char := '\U{FFFD}'

  function Unstable(text: string): nat {
    if 0 < |text| && text[|text| - 1] == REPLACEMENT then 1 else 0
  }

  /** How much of the pending text is held back. */
  function Held(text: string, stops: seq<string>): (r: nat)
    ensures LongestHold(text, stops) <= r <= |text| && Unstable(text) <= r
    ensures r == LongestHold(text, stops) || r == Unstable(text)
  {
    var hold := LongestHold(text, stops);
    if hold < Unstable(text) then Unstable(text) else hold
  }

  /** Returning `output` and keeping `pending`, unless that exceeds the byte limit. */
  function Account(c: Config, v: DecoderView, output: string, pending: string, stop: Option<string>, finished: bool)
      : Option<(DecoderView, Chunk)>
  {
    var bytes := v.emittedBytes + Utf8Len(output);
    if bytes > c.maxBytes then None
    else
      Some((v.(pending := pending, emittedBytes := bytes, finished := finished, emitted := v.emitted + output),
            Chunk(output, stop, finished)))
  }

  function Flushed(c: Config, v: DecoderView, final: bool): Option<(DecoderView, Chunk)> {
    match FirstStop(v.pending, c.stops)
    case Some((i, stop)) => Account(c, v, v.pending[..i], "", Some(stop), true)
    case None =>
      if final then Account(c, v, v.pending, "", None, true)
      else
        var split := |v.pending| - Held(v.pending, c.stops);
        Account(c, v, v.pending[..split], v.pending[split..], None, v.finished)
  }

  function Pushed(c: Config, v: DecoderView, token: Token): Option<(DecoderView, Chunk)> {
    if v.finished then Some((v, Chunk("", None, true)))
    else
      var ids := v.ids + [token];
      var full :- c.decode(ids);
      var kept := if |v.pending| <= |v.decoded| then |v.decoded| - |v.pending| else 0;
      if !(v.decoded[..kept] <= full) then None
      else Flushed(c, v.(ids := ids, decoded := full, pending := full[kept..]), false)
  }

  function Closed(c: Config, v: DecoderView): Option<(DecoderView, Chunk)> {
    if v.finished then Some((v, Chunk("", None, true))) else Flushed(c, v.(finished := true), true)
  }

  /** The chunk carries exactly the text by which the emitted text grew, and says whether the decoder
      has finished; only a stop can finish it before the end. */
  ghost predicate Tells(v: DecoderView, v': DecoderView, chunk: Chunk) {
    && v'.emitted == v.emitted + chunk.text && chunk.finished == v'.finished
    && (chunk.stop.Some? ==> v'.finished && v'.pending == "")
  }

  function StopIn(text: string, stops: seq<string>): Option<string> {
    var first := FirstStop(text, stops);
    if first.None? then None else Some(first.value.1)
  }

  /** Where a flush cuts. */
  lemma FlushedCases(c: Config, v: DecoderView, final: bool)
    ensures FirstStop(v.pending, c.stops).Some? ==>
              var (i, stop) := FirstStop(v.pending, c.stops).value;
              Flushed(c, v, final) == Account(c, v, v.pending[..i], "", Some(stop), true)
    ensures FirstStop(v.pending, c.stops).None? && final ==>
              Flushed(c, v, final) == Account(c, v, v.pending, "", None, true)
    ensures FirstStop(v.pending, c.stops).None? && !final ==>
              var cut := |v.pending| - Held(v.pending, c.stops);
              Flushed(c, v, final) == Account(c, v, v.pending[..cut], v.pending[cut..], None, v.finished)
  {
    hide FirstStop, IsFirst, Held, Account;
  }

  lemma FlushedTells(c: Config, v: DecoderView, final: bool)
    requires Flushed(c, v, final).Some?
    ensures var x := Flushed(c, v, final).value; Tells(v, x.0, x.1) && x.1.stop == StopIn(v.pending, c.stops)
  {
    hide FirstStop, IsFirst, Held, Utf8Len;
  }

  lemma PushedTells(c: Config, v: DecoderView, token: Token)
    requires Pushed(c, v, token).Some?
    ensures var x := Pushed(c, v, token).value; Tells(v, x.0, x.1)
  {
    hide Flushed;
    if !v.finished {
      var ids := v.ids + [token];
      var full := c.decode(ids).value;
      var kept := if |v.pending| <= |v.decoded| then |v.decoded| - |v.pending| else 0;
      FlushedTells(c, v.(ids := ids, decoded := full, pending := full[kept..]), false);
    }
  }

  class TokenDecoder {
    const config: Config
    var ids: seq<Token>
    var decoded: string
    var pending: string
    var emittedBytes: nat
    var finished: bool
    ghost var emitted: string

    ghost function View(): DecoderView
      reads this
    {
      DecoderView(ids, decoded, pending, emittedBytes, finished, emitted)
    }

    constructor (config: Config)
      requires config.Valid()
      ensures this.config == config && View() == DecoderView([], "", "", 0, false, "")
    {
      this.config := config;
      ids, decoded, pending, emittedBytes, finished, emitted := [], "", "", 0, false, "";
    }

    method AccountOutput(output: string) returns (ok: bool)
      modifies this`emittedBytes, this`emitted
      ensures emittedBytes == old(emittedBytes) + Utf8Len(output) && (ok <==> emittedBytes <= config.maxBytes)
      ensures emitted == old(emitted) + output
    {
      emittedBytes := emittedBytes + Utf8Len(output);
      emitted := emitted + output;
      ok := emittedBytes <= config.maxBytes;
    }

    method FlushPending(final: bool) returns (r: Option<Chunk>)
      modifies this
      ensures match Flushed(config, old(View()), final)
              case None => r.None?
              case Some(x) => r == Some(x.1) && View() == x.0
      ensures r.Some? ==> Tells(old(View()), View(), r.value)
      ensures r.Some? ==> r.value.stop == StopIn(old(pending), config.stops)
    {
      hide FirstStop, IsFirst, Utf8Len, LongestHold, Tells, StopIn, Flushed;
      ghost var v := View();
      FlushedCases(config, v, final);
      if Flushed(config, v, final).Some? {
        FlushedTells(config, v, final);
      }
      var stop := FindStop(pending, config.stops);
      if stop.Some? {
        var output := pending[..stop.value.0];
        pending := "";
        finished := true;
        var ok := AccountOutput(output);
        return if ok then Some(Chunk(output, Some(stop.value.1), true)) else None;
      }
      if final {
        var output := pending;
        pending := "";
        finished := true;
        var ok := AccountOutput(output);
        return if ok then Some(Chunk(output, None, true)) else None;
      }
      var hold := LongestStopPrefixSuffix(pending, config.stops);
      var splitAt := |pending| - (if hold < Unstable(pending) then Unstable(pending) else hold);
      var output := pending[..splitAt];
      pending := pending[splitAt..];
      var ok := AccountOutput(output);
      r := if ok then Some(Chunk(output, None, finished)) else None;
    }

    method Push(token: Token) returns (r: Option<Chunk>)
      modifies this
      ensures match Pushed(config, old(View()), token)
              case None => r.None?
              case Some(x) => r == Some(x.1) && View() == x.0
      ensures r.Some? ==> Tells(old(View()), View(), r.value)
    {
      hide Flushed;
      if finished {
        return Some(Chunk("", None, true));
      }
      ids := ids + [token];
      var full :- config.decode(ids);
      var kept := if |pending| <= |decoded| then |decoded| - |pending| else 0;
      if !(decoded[..kept] <= full) {
        return None;
      }
      decoded := full;
      pending := full[kept..];
      r := FlushPending(false);
    }

    method Finish() returns (r: Option<Chunk>)
      modifies this
      ensures match Closed(config, old(View()))
              case None => r.None?
              case Some(x) => r == Some(x.1) && View() == x.0
      ensures r.Some? ==> Tells(old(View()), View(), r.value)
    {
      hide Flushed;
      if finished {
        return Some(Chunk("", None, true));
      }
      finished := true;
      r := FlushPending(true);
    }
  }

  // ---------------------------------------------------------------- what a stream of tokens keeps

  function PushAll(c: Config, tokens: seq<Token>): Option<DecoderView> {
    if |tokens| == 0 then Some(DecoderView([], "", "", 0, false, ""))
    else
      var v :- PushAll(c, tokens[..|tokens| - 1]);
      var (v', chunk) :- Pushed(c, v, tokens[|tokens| - 1]);
      Some(v')
  }

  /** What the pushes return. */
  function ChunksOf(c: Config, tokens: seq<Token>): (r: seq<Chunk>)
    requires PushAll(c, tokens).Some?
    ensures |r| == |tokens|
  {
    if |tokens| == 0 then []
    else
      var before := tokens[..|tokens| - 1];
      ChunksOf(c, before) + [Pushed(c, PushAll(c, before).value, tokens[|tokens| - 1]).value.1]
  }

  function Texts(chunks: seq<Chunk>): string {
    if |chunks| == 0 then "" else Texts(chunks[..|chunks| - 1]) + chunks[|chunks| - 1].text
  }

  lemma TextsSnoc(chunks: seq<Chunk>, chunk: Chunk)
    ensures Texts(chunks + [chunk]) == Texts(chunks) + chunk.text
  {
    var all := chunks + [chunk];
    assert all[..|all| - 1] == chunks;
  }

  /** No chunk says that the stream ended. */
  ghost predicate Quiet(chunks: seq<Chunk>) {
    forall i | 0 <= i < |chunks| :: chunks[i].stop.None? && !chunks[i].finished
  }

  /** The `n`-th push tells the first stop of the text decoded by then, and nothing else tells anything. */
  ghost predicate TellsStop(c: Config, tokens: seq<Token>, chunks: seq<Chunk>, n: nat)
    requires n <= |tokens| == |chunks|
  {
    && StoppedAt(c, Texts(chunks), tokens, n)
    && Quiet(chunks[..n - 1])
    && chunks[n - 1].stop == StopIn(c.decode(tokens[..n]).value, c.stops) && chunks[n - 1].finished
    && forall i | n <= i < |chunks| :: chunks[i] == Chunk("", None, true)
  }

  /** Every decode of one more token extends the decode before it. */
  ghost predicate Extending(c: Config, tokens: seq<Token>) {
    && c.decode([]) == Some("")
    && forall n | 0 <= n < |tokens| && c.decode(tokens[..n + 1]).Some? ::
         c.decode(tokens[..n]).Some? && c.decode(tokens[..n]).value <= c.decode(tokens[..n + 1]).value
  }

  /** No stop can ever begin before character `n` of any text that begins with `decoded`. */
  ghost predicate Guarded(stops: seq<string>, decoded: string, n: nat) {
    forall z: string, k, j: nat | 0 <= k < |stops| && Occurs(decoded + z, stops[k], j) :: n <= j
  }

  ghost predicate NoStop(c: Config, tokens: seq<Token>)
    requires c.decode(tokens).Some?
  {
    FirstStop(c.decode(tokens).value, c.stops).None?
  }

  /** No stop is complete in any decode so far. */
  ghost predicate ClearSoFar(c: Config, tokens: seq<Token>) {
    forall k | 0 <= k <= |tokens| && c.decode(tokens[..k]).Some? :: NoStop(c, tokens[..k])
  }

  /** Between two tokens of a stream that has not stopped. */
  ghost predicate Flowing(c: Config, v: DecoderView, tokens: seq<Token>) {
    && !v.finished && v.ids == tokens && c.decode(tokens) == Some(v.decoded)
    && v.emitted + v.pending == v.decoded
    && ClearSoFar(c, tokens) && Guarded(c.stops, v.decoded, |v.emitted|)
    && v.emittedBytes == Utf8Len(v.emitted) <= c.maxBytes
  }

  /** After a stop: the emitted text is the decoded text up to the first stop, as of the first token
      with which any stop is complete. */
  ghost predicate Stopped(c: Config, v: DecoderView, tokens: seq<Token>) {
    && v.finished && v.pending == "" && v.emittedBytes == Utf8Len(v.emitted) <= c.maxBytes
    && exists n: nat :: n <= |tokens| && StoppedAt(c, v.emitted, tokens, n)
  }

  ghost predicate StoppedAt(c: Config, emitted: string, tokens: seq<Token>, n: nat)
    requires n <= |tokens|
  {
    && 0 < n && c.decode(tokens[..n]).Some? && FirstStop(c.decode(tokens[..n]).value, c.stops).Some?
    && emitted == c.decode(tokens[..n]).value[..FirstStop(c.decode(tokens[..n]).value, c.stops).value.0]
    && forall k | 0 <= k < n && c.decode(tokens[..k]).Some? :: NoStop(c, tokens[..k])
  }

  /** In a text guarded up to `|e|`, the stops of `e + p` are those of `p`. */
  lemma StopsAfter(e: string, p: string, stops: seq<string>, k: nat, j: nat)
    requires Guarded(stops, e + p, |e|) && k < |stops|
    ensures Occurs(e + p, stops[k], j) <==> |e| <= j && Occurs(p, stops[k], j - |e|)
  {
    assert (e + p) + "" == e + p;
    if Occurs(e + p, stops[k], j) {
      assert Occurs((e + p) + "", stops[k], j);
    }
    if |e| <= j {
      OccursRight(e, p, stops[k], j);
    }
  }

  function Shifted(first: Option<(nat, string)>, n: nat): Option<(nat, string)> {
    if first.None? then None else Some((n + first.value.0, first.value.1))
  }

  lemma FirstStopAfter(e: string, p: string, stops: seq<string>)
    requires Guarded(stops, e + p, |e|)
    ensures FirstStop(e + p, stops) == Shifted(FirstStop(p, stops), |e|)
  {
    hide FirstStop, Occurs, Guarded;
    var a, b := FirstStop(e + p, stops), FirstStop(p, stops);
    if b.Some? {
      var (i, stop) := b.value;
      var k :| 0 <= k < |stops| && stops[k] == stop;
      StopsAfter(e, p, stops, k, |e| + i);
      forall k, j: nat | 0 <= k < |stops| && Occurs(e + p, stops[k], j)
        ensures |e| + i < j || (|e| + i == j && |stop| <= |stops[k]|)
      {
        StopsAfter(e, p, stops, k, j);
      }
      FirstStopIs(e + p, stops, |e| + i, stop);
    } else if a.Some? {
      var k :| 0 <= k < |stops| && stops[k] == a.value.1;
      StopsAfter(e, p, stops, k, a.value.0);
    }
  }

  lemma FirstStopIs(text: string, stops: seq<string>, i: nat, stop: string)
    requires stop in stops && Occurs(text, stop, i)
    requires forall k, j: nat | 0 <= k < |stops| && Occurs(text, stops[k], j) ::
             i < j || (i == j && |stop| <= |stops[k]|)
    ensures FirstStop(text, stops) == Some((i, stop))
  {
    hide FirstStop;
    var k :| 0 <= k < |stops| && stops[k] == stop;
    assert Occurs(text, stops[k], i);
    var first := FirstStop(text, stops).value;
    var l :| 0 <= l < |stops| && stops[l] == first.1;
    assert Occurs(text, stops[l], first.0);
  }

  lemma GuardedGrows(stops: seq<string>, short: string, long: string, n: nat)
    requires Guarded(stops, short, n) && short <= long
    ensures Guarded(stops, long, n)
  {
    forall z: string, k, j: nat | 0 <= k < |stops| && Occurs(long + z, stops[k], j) ensures n <= j {
      assert long + z == short + (long[|short|..] + z);
    }
  }

  /** Holding back `Held` characters of the pending text keeps every later stop out of the emitted text. */
  lemma HeldGuards(stops: seq<string>, e: string, p: string)
    requires Guarded(stops, e + p, |e|) && FirstStop(p, stops).None?
    ensures Guarded(stops, e + p, |e| + |p| - Held(p, stops))
  {
    forall z: string, k, j: nat | 0 <= k < |stops| && Occurs((e + p) + z, stops[k], j)
      ensures |e| + |p| - Held(p, stops) <= j
    {
      assert (e + p) + z == e + (p + z);
      assert Occurs(p + z, stops[k], j - |e|) by { OccursRight(e, p + z, stops[k], j); }
      if j - |e| < |p| {
        if j - |e| + |stops[k]| <= |p| {
          OccursLeft(p, z, stops[k], j - |e|);
        } else {
          StraddleHolds(p, z, stops, k, j - |e|);
        }
      }
    }
  }

  /** The part of a decoded text that follows what was emitted, and its stops. */
  lemma Resumes(c: Config, v: DecoderView, tokens: seq<Token>, full: string)
    requires Flowing(c, v, tokens) && v.decoded <= full
    ensures |v.pending| <= |v.decoded| && |v.decoded| - |v.pending| == |v.emitted| && v.decoded[..|v.emitted|] <= full
    ensures v.emitted + full[|v.emitted|..] == full && Guarded(c.stops, full, |v.emitted|)
    ensures FirstStop(full, c.stops) == Shifted(FirstStop(full[|v.emitted|..], c.stops), |v.emitted|)
  {
    hide FirstStop;
    var e := v.emitted;
    assert v.decoded[..|e|] == e && full[..|e|] == e;
    assert full == e + full[|e|..];
    GuardedGrows(c.stops, v.decoded, full, |e|);
    FirstStopAfter(e, full[|e|..], c.stops);
  }

  lemma StopsHere(c: Config, tokens: seq<Token>, token: Token, full: string)
    requires ClearSoFar(c, tokens) && c.decode(tokens + [token]) == Some(full) && FirstStop(full, c.stops).Some?
    ensures StoppedAt(c, full[..FirstStop(full, c.stops).value.0], tokens + [token], |tokens| + 1)
  {
    hide IsFirst, FirstStop;
    var all := tokens + [token];
    assert all[..|all|] == all;
    forall k | 0 <= k <= |tokens| ensures all[..k] == tokens[..k] {}
  }

  lemma StaysClear(c: Config, tokens: seq<Token>, token: Token, full: string)
    requires ClearSoFar(c, tokens) && c.decode(tokens + [token]) == Some(full) && FirstStop(full, c.stops).None?
    ensures ClearSoFar(c, tokens + [token])
  {
    hide IsFirst, FirstStop;
    var all := tokens + [token];
    assert all[..|all|] == all;
    forall k | 0 <= k <= |tokens| ensures all[..k] == tokens[..k] {}
  }

  /** Text that there is a reason to hold back: it begins a stop, or may still be rewritten. */
  ghost predicate Due(stops: seq<string>, pending: string) {
    pending == "" || pending == [REPLACEMENT] || exists k | 0 <= k < |stops| :: pending <= stops[k]
  }

  lemma HeldDue(p: string, stops: seq<string>)
    ensures Due(stops, p[|p| - Held(p, stops)..])
  {
    hide LongestHold;
    var h := Held(p, stops);
    if h == LongestHold(p, stops) && 0 < h {
      assert Holds(p, stops, h);
      var k :| 0 <= k < |stops| && h <= |stops[k]| && p[|p| - h..] == stops[k][..h];
      assert p[|p| - h..] <= stops[k];
    }
  }

  /** A push decodes again and flushes what follows the emitted text. */
  lemma PushedFlushes(c: Config, v: DecoderView, token: Token, full: string)
    requires !v.finished && v.emitted + v.pending == v.decoded
    requires c.decode(v.ids + [token]) == Some(full) && v.emitted <= full
    ensures Pushed(c, v, token) ==
            Flushed(c, v.(ids := v.ids + [token], decoded := full, pending := full[|v.emitted|..]), false)
  {
    hide Flushed;
    assert |v.decoded| - |v.pending| == |v.emitted| && v.decoded[..|v.emitted|] == v.emitted;
  }

  lemma FlushedIs(c: Config, v: DecoderView)
    requires FirstStop(v.pending, c.stops).None?
    ensures var split := |v.pending| - Held(v.pending, c.stops);
            Flushed(c, v, false) == Account(c, v, v.pending[..split], v.pending[split..], None, v.finished)
  {
    hide IsFirst, FirstStop, Held, Account;
  }

  /** A flush that finds no stop moves text from pending to emitted. */
  lemma FlushedOn(c: Config, v: DecoderView)
    requires v.emittedBytes == Utf8Len(v.emitted) && FirstStop(v.pending, c.stops).None? && Flushed(c, v, false).Some?
    ensures var v', held := Flushed(c, v, false).value.0, Held(v.pending, c.stops);
            && v' == v.(pending := v'.pending, emitted := v'.emitted, emittedBytes := v'.emittedBytes)
            && v'.emitted + v'.pending == v.emitted + v.pending && |v'.pending| == held
            && v'.emittedBytes == Utf8Len(v'.emitted) <= c.maxBytes
  {
    hide IsFirst, FirstStop, Held, Utf8Len, Flushed;
    FlushedIs(c, v);
    var split := |v.pending| - Held(v.pending, c.stops);
    var a, b := v.pending[..split], v.pending[split..];
    assert a + b == v.pending;
    Utf8Plus(v.emitted, a);
    assert (v.emitted + a) + b == v.emitted + (a + b);
  }

  /** A flush that finds a stop emits what precedes it and finishes. */
  lemma FlushedStop(c: Config, v: DecoderView)
    requires v.emittedBytes == Utf8Len(v.emitted) && FirstStop(v.pending, c.stops).Some? && Flushed(c, v, false).Some?
    ensures var v', i := Flushed(c, v, false).value.0, FirstStop(v.pending, c.stops).value.0;
            && v'.finished && v'.pending == "" && v'.emitted == v.emitted + v.pending[..i]
            && v'.emittedBytes == Utf8Len(v'.emitted) <= c.maxBytes
  {
    hide IsFirst, FirstStop, Held, Utf8Len;
    Utf8Plus(v.emitted, v.pending[..FirstStop(v.pending, c.stops).value.0]);
  }

  lemma PushedOn(c: Config, v: DecoderView, token: Token, full: string)
    requires !v.finished && v.emitted + v.pending == v.decoded && v.emittedBytes == Utf8Len(v.emitted)
    requires c.decode(v.ids + [token]) == Some(full) && v.emitted <= full
    requires Pushed(c, v, token).Some?
    requires FirstStop(full[|v.emitted|..], c.stops).None?
    ensures var v', p := Pushed(c, v, token).value.0, full[|v.emitted|..];
            && !v'.finished && v'.ids == v.ids + [token] && v'.decoded == full && v'.emitted + v'.pending == full
            && |v'.emitted| == |v.emitted| + |p| - Held(p, c.stops) &&
                v'.emittedBytes == Utf8Len(v'.emitted) <= c.maxBytes
            && Due(c.stops, v'.pending)
  {
    hide Pushed, Flushed, FirstStop, Held, Utf8Len, Due;
    var p := full[|v.emitted|..];
    HeldDue(p, c.stops);
    PushedFlushes(c, v, token, full);
    FlushedOn(c, v.(ids := v.ids + [token], decoded := full, pending := full[|v.emitted|..]));
    assert v.emitted + p == full;
    var v' := Pushed(c, v, token).value.0;
    assert v'.pending == full[|v'.emitted|..] == p[|p| - Held(p, c.stops)..];
  }

  lemma PushedStop(c: Config, v: DecoderView, token: Token, full: string)
    requires !v.finished && v.emitted + v.pending == v.decoded && v.emittedBytes == Utf8Len(v.emitted)
    requires c.decode(v.ids + [token]) == Some(full) && v.emitted <= full
    requires Pushed(c, v, token).Some?
    requires FirstStop(full[|v.emitted|..], c.stops).Some?
    ensures var v', i := Pushed(c, v, token).value.0, FirstStop(full[|v.emitted|..], c.stops).value.0;
            && v'.finished && v'.pending == "" && v'.emitted == full[..|v.emitted| + i]
            && v'.emittedBytes == Utf8Len(v'.emitted) <= c.maxBytes
  {
    hide Pushed, Flushed, IsFirst, Held, Utf8Len;
    PushedFlushes(c, v, token, full);
    FlushedStop(c, v.(ids := v.ids + [token], decoded := full, pending := full[|v.emitted|..]));
  }

  /** A push tells a stop exactly when what follows the emitted text contains one, the first. */
  lemma PushedStopTold(c: Config, v: DecoderView, token: Token, full: string)
    requires !v.finished && v.emitted + v.pending == v.decoded
    requires c.decode(v.ids + [token]) == Some(full) && v.emitted <= full && Pushed(c, v, token).Some?
    ensures Pushed(c, v, token).value.1.stop == StopIn(full[|v.emitted|..], c.stops)
  {
    hide Pushed, Flushed, FirstStop;
    PushedFlushes(c, v, token, full);
    FlushedTells(c, v.(ids := v.ids + [token], decoded := full, pending := full[|v.emitted|..]), false);
  }

  lemma FlowsOn(c: Config, v: DecoderView, tokens: seq<Token>, token: Token, full: string)
    requires Flowing(c, v, tokens) && c.decode(tokens + [token]) == Some(full) && v.decoded <= full &&
             FirstStop(full, c.stops).None?
    requires Pushed(c, v, token).Some?
    ensures Flowing(c, Pushed(c, v, token).value.0, tokens + [token])
  {
    hide IsFirst, FirstStop, Held, Utf8Len, Guarded, ClearSoFar, Pushed;
    var e, p := v.emitted, full[|v.emitted|..];
    Resumes(c, v, tokens, full);
    PushedOn(c, v, token, full);
    HeldGuards(c.stops, e, p);
    StaysClear(c, tokens, token, full);
  }

  lemma StopsNow(c: Config, v: DecoderView, tokens: seq<Token>, token: Token, full: string)
    requires Flowing(c, v, tokens) && c.decode(tokens + [token]) == Some(full) && v.decoded <= full &&
             FirstStop(full, c.stops).Some?
    requires Pushed(c, v, token).Some?
    ensures Stopped(c, Pushed(c, v, token).value.0, tokens + [token])
  {
    hide IsFirst, FirstStop, Utf8Len, Guarded, ClearSoFar, StoppedAt, Pushed;
    Resumes(c, v, tokens, full);
    PushedStop(c, v, token, full);
    StopsHere(c, tokens, token, full);
  }

  /** One more token of a flowing stream either keeps it flowing or stops it. */
  lemma PushKeeps(c: Config, v: DecoderView, tokens: seq<Token>, token: Token)
    requires c.Valid() && Flowing(c, v, tokens)
    requires c.decode(tokens + [token]).Some? ==> v.decoded <= c.decode(tokens + [token]).value
    requires Pushed(c, v, token).Some?
    ensures var v' := Pushed(c, v, token).value.0; Flowing(c, v', tokens + [token]) || Stopped(c, v', tokens + [token])
  {
    hide IsFirst, Flowing, Stopped, FirstStop, Flushed;
    FlowingIds(c, v, tokens);
    var full := c.decode(tokens + [token]).value;
    if FirstStop(full, c.stops).Some? {
      StopsNow(c, v, tokens, token, full);
    } else {
      FlowsOn(c, v, tokens, token, full);
    }
  }

  lemma FlowingIds(c: Config, v: DecoderView, tokens: seq<Token>)
    requires Flowing(c, v, tokens)
    ensures v.ids == tokens && !v.finished
  {
  }

  /** A stop that has been told stays told. */
  lemma StopToldStays(c: Config, tokens: seq<Token>, token: Token, chunks: seq<Chunk>, n: nat)
    requires n <= |tokens| == |chunks| && TellsStop(c, tokens, chunks, n)
    ensures TellsStop(c, tokens + [token], chunks + [Chunk("", None, true)], n)
  {
    hide IsFirst, FirstStop;
    var chunk := Chunk("", None, true);
    TextsSnoc(chunks, chunk);
    assert Texts(chunks) + "" == Texts(chunks);
    forall k | 0 <= k <= n ensures (tokens + [token])[..k] == tokens[..k] {}
    assert (chunks + [chunk])[..n - 1] == chunks[..n - 1];
  }

  /** What a stream has returned: all emitted text, quietly until a stop and then telling the first one. */
  ghost predicate Told(c: Config, v: DecoderView, tokens: seq<Token>, chunks: seq<Chunk>)
    requires |chunks| == |tokens|
  {
    && Texts(chunks) == v.emitted
    && if v.finished then exists n: nat :: n <= |tokens| && TellsStop(c, tokens, chunks, n)
       else Quiet(chunks) && Due(c.stops, v.pending)
  }

  /** One more push of a stream that has not stopped. */
  lemma TellsOn(c: Config, v: DecoderView, tokens: seq<Token>, token: Token, full: string, chunks: seq<Chunk>)
    requires !v.finished && v.ids == tokens && |chunks| == |tokens| && Told(c, v, tokens, chunks)
    requires v.emitted + v.pending == v.decoded && v.emittedBytes == Utf8Len(v.emitted)
    requires c.decode(tokens + [token]) == Some(full) && v.emitted <= full && ClearSoFar(c, tokens)
    requires FirstStop(full, c.stops) == Shifted(FirstStop(full[|v.emitted|..], c.stops), |v.emitted|)
    requires Pushed(c, v, token).Some?
    ensures var x := Pushed(c, v, token).value; Told(c, x.0, tokens + [token], chunks + [x.1])
  {
    hide IsFirst, FirstStop, Utf8Len, Guarded, ClearSoFar, StoppedAt, Pushed;
    var x := Pushed(c, v, token).value;
    TextsSnoc(chunks, x.1);
    PushedTells(c, v, token);
    PushedStopTold(c, v, token, full);
    if FirstStop(full, c.stops).None? {
      PushedOn(c, v, token, full);
      assert x.1 == [x.1][0];
    } else {
      PushedStop(c, v, token, full);
      StopsHere(c, tokens, token, full);
      assert (chunks + [x.1])[..|tokens|] == chunks && (tokens + [token])[..|tokens| + 1] == tokens + [token];
      assert TellsStop(c, tokens + [token], chunks + [x.1], |tokens| + 1);
    }
  }

  /** Every push after a stop returns nothing more. */
  lemma ToldStays(c: Config, v: DecoderView, tokens: seq<Token>, token: Token, chunks: seq<Chunk>)
    requires v.finished && |chunks| == |tokens| && Told(c, v, tokens, chunks)
    ensures Pushed(c, v, token) == Some((v, Chunk("", None, true)))
    ensures Told(c, v, tokens + [token], chunks + [Chunk("", None, true)])
  {
    hide TellsStop;
    var n: nat :| n <= |tokens| && TellsStop(c, tokens, chunks, n);
    StopToldStays(c, tokens, token, chunks, n);
    TextsSnoc(chunks, Chunk("", None, true));
  }

  /** For every stream whose decodes extend one another: until a stop is complete, emitted and pending
      text make up the decoded text and no stop, now or later, can begin in the emitted text; once one is
      complete, exactly the text before the first stop has been emitted; and the byte limit holds.  The
      texts returned so far add up to the emitted text, and a stop is told once. */
  lemma {:induction false} StreamIsGuarded(c: Config, tokens: seq<Token>)
    requires c.Valid() && Extending(c, tokens) && PushAll(c, tokens).Some?
    ensures var v := PushAll(c, tokens).value; Flowing(c, v, tokens) || Stopped(c, v, tokens)
    ensures Told(c, PushAll(c, tokens).value, tokens, ChunksOf(c, tokens))
    decreases |tokens|
  {
    hide Flowing, Stopped, Pushed, Told;
    if |tokens| == 0 {
      EmptyFlows(c, tokens);
      assert Told(c, DecoderView([], "", "", 0, false, ""), tokens, []) by { NothingTold(c); }
    } else {
      var before, last := tokens[..|tokens| - 1], tokens[|tokens| - 1];
      assert tokens == before + [last] && tokens[..|tokens|] == tokens;
      ExtendingPrefix(c, before, last);
      StreamIsGuarded(c, before);
      var v, chunks := PushAll(c, before).value, ChunksOf(c, before);
      if Flowing(c, v, before) {
        FlowingDecoded(c, v, before);
        PushKeeps(c, v, before, last);
        FlowingTells(c, v, before, last, chunks);
      } else {
        StoppedStays(c, v, before, last);
        StoppedEnds(c, v, before);
        ToldStays(c, v, before, last, chunks);
      }
    }
  }

  lemma NothingTold(c: Config)
    ensures Told(c, DecoderView([], "", "", 0, false, ""), [], [])
  {
  }

  lemma StoppedEnds(c: Config, v: DecoderView, tokens: seq<Token>)
    requires Stopped(c, v, tokens)
    ensures v.finished
  {
  }

  lemma FlowingTells(c: Config, v: DecoderView, tokens: seq<Token>, token: Token, chunks: seq<Chunk>)
    requires Flowing(c, v, tokens) && |chunks| == |tokens| && Told(c, v, tokens, chunks) && Pushed(c, v, token).Some?
    requires c.decode(tokens + [token]).Some? ==> v.decoded <= c.decode(tokens + [token]).value
    ensures var x := Pushed(c, v, token).value; Told(c, x.0, tokens + [token], chunks + [x.1])
  {
    hide IsFirst, FirstStop, Utf8Len, Guarded, ClearSoFar, Pushed, Told;
    PushedDecodes(c, v, token);
    var full := c.decode(tokens + [token]).value;
    Resumes(c, v, tokens, full);
    TellsOn(c, v, tokens, token, full, chunks);
  }

  /** The same on the returned chunks alone. */
  lemma StreamReturns(c: Config, tokens: seq<Token>)
    requires c.Valid() && Extending(c, tokens) && PushAll(c, tokens).Some?
    ensures if exists k :: 0 <= k <= |tokens| && c.decode(tokens[..k]).Some? && !NoStop(c, tokens[..k])
            then exists n: nat :: n <= |tokens| && TellsStop(c, tokens, ChunksOf(c, tokens), n)
            else
              && Quiet(ChunksOf(c, tokens)) && c.decode(tokens).Some?
              && var text, decoded := Texts(ChunksOf(c, tokens)), c.decode(tokens).value;
                 text <= decoded && Guarded(c.stops, decoded, |text|) && Due(c.stops, decoded[|text|..])
  {
    hide Pushed, Texts, FirstStop, IsFirst, Guarded, Utf8Len, TellsStop;
    StreamIsGuarded(c, tokens);
    var v := PushAll(c, tokens).value;
    if Stopped(c, v, tokens) {
      var n: nat :| n <= |tokens| && StoppedAt(c, v.emitted, tokens, n);
      assert c.decode(tokens[..n]).Some? && !NoStop(c, tokens[..n]);
    }
  }

  lemma FlowingDecoded(c: Config, v: DecoderView, tokens: seq<Token>)
    requires Flowing(c, v, tokens)
    ensures c.decode(tokens) == Some(v.decoded)
  {
  }

  lemma EmptyFlows(c: Config, tokens: seq<Token>)
    requires c.Valid() && c.decode([]) == Some("") && tokens == []
    ensures Flowing(c, DecoderView([], "", "", 0, false, ""), tokens)
  {
    assert FirstStop("", c.stops).None?;
    assert tokens[..0] == [];
  }

  lemma ExtendingPrefix(c: Config, before: seq<Token>, last: Token)
    requires Extending(c, before + [last])
    ensures Extending(c, before)
    ensures c.decode(before + [last]).Some? ==>
            c.decode(before).Some? && c.decode(before).value <= c.decode(before + [last]).value
  {
    var tokens := before + [last];
    assert tokens[..|tokens|] == tokens && tokens[..|before|] == before;
    forall n | 0 <= n <= |before| ensures before[..n] == tokens[..n] {}
  }

  lemma StoppedStays(c: Config, v: DecoderView, tokens: seq<Token>, token: Token)
    requires Stopped(c, v, tokens)
    ensures Pushed(c, v, token) == Some((v, Chunk("", None, true))) && Stopped(c, v, tokens + [token])
  {
    var n: nat :| n <= |tokens| && StoppedAt(c, v.emitted, tokens, n);
    forall k | 0 <= k <= n ensures (tokens + [token])[..k] == tokens[..k] {}
    assert StoppedAt(c, v.emitted, tokens + [token], n);
  }

  /** Finishing a stream that has not stopped emits everything that was held back, or exceeds the limit. */
  lemma FinishEmitsAll(c: Config, v: DecoderView, tokens: seq<Token>)
    requires c.Valid() && Flowing(c, v, tokens)
    ensures Closed(c, v).Some? <==> Utf8Len(v.decoded) <= c.maxBytes
    ensures Closed(c, v).Some? ==>
              var x := Closed(c, v).value;
              x.0.emitted == v.decoded && x.0.finished && x.1 == Chunk(v.pending, None, true) &&
                  x.0.emittedBytes == Utf8Len(v.decoded)
  {
    hide IsFirst, FirstStop, Utf8Len;
    assert tokens[..|tokens|] == tokens;
    assert NoStop(c, tokens[..|tokens|]);
    FirstStopAfter(v.emitted, v.pending, c.stops);
    Utf8Plus(v.emitted, v.pending);
  }

  /** So a whole stream in which no stop is ever complete returns, finish included, exactly its decode. */
  lemma FinishedStreamReturns(c: Config, tokens: seq<Token>)
    requires c.Valid() && Extending(c, tokens) && PushAll(c, tokens).Some?
    requires !PushAll(c, tokens).value.finished && Closed(c, PushAll(c, tokens).value).Some?
    ensures var last := Closed(c, PushAll(c, tokens).value).value.1;
            && c.decode(tokens) == Some(Texts(ChunksOf(c, tokens) + [last]))
            && Quiet(ChunksOf(c, tokens)) && last.stop.None? && last.finished
  {
    hide Pushed, FirstStop, IsFirst, Guarded, Utf8Len, TellsStop, Closed, Texts;
    StreamIsGuarded(c, tokens);
    var v := PushAll(c, tokens).value;
    FinishEmitsAll(c, v, tokens);
    TextsSnoc(ChunksOf(c, tokens), Closed(c, v).value.1);
  }

  // ---------------------------------------------------------------- decodes that rewrite their tail

  /** The text that a later decode may not rewrite: all but a final U+FFFD. */
  function Stable(text: string): string {
    text[..|text| - Unstable(text)]
  }

  /** What is held back is enough against every decode that keeps the stable part, exactly when the stable
      part does not itself end in a longer beginning of a stop. */
  lemma HeldIsEnough(stops: seq<string>, p: string)
    requires FirstStop(p, stops).None?
    ensures Guarded(stops, Stable(p), |p| - Held(p, stops)) <==>
            LongestHold(Stable(p), stops) + Unstable(p) <= Held(p, stops)
  {
    hide FirstStop, LongestHold, Held;
    var a, u, n := Stable(p), Unstable(p), |p| - Held(p, stops);
    var h := LongestHold(a, stops);
    assert p == a + p[|a|..];
    if h + u <= Held(p, stops) {
      forall z: string, k, j: nat | 0 <= k < |stops| && Occurs(a + z, stops[k], j) ensures n <= j {
        if j < |a| {
          if j + |stops[k]| <= |a| {
            OccursLeft(a, z, stops[k], j);
            OccursLeft(a, p[|a|..], stops[k], j);
          } else {
            StraddleHolds(a, z, stops, k, j);
          }
        }
      }
    } else {
      assert Holds(a, stops, h);
      var k :| 0 <= k < |stops| && h <= |stops[k]| && a[|a| - h..] == stops[k][..h];
      var z := stops[k][h..];
      assert a + z == a[..|a| - h] + stops[k];
      assert Occurs(a + z, stops[k], |a| - h);
      assert |a| - h < n;
    }
  }

  /** The exact condition of one flush. */
  predicate EnoughHeld(stops: seq<string>, p: string) {
    LongestHold(Stable(p), stops) + Unstable(p) <= Held(p, stops)
  }

  /** The same after text that is already guarded. */
  lemma EnoughAfter(stops: seq<string>, e: string, p: string)
    requires FirstStop(p, stops).None? && Guarded(stops, e + Stable(p), |e|)
    ensures Guarded(stops, e + Stable(p), |e| + |p| - Held(p, stops)) <==> EnoughHeld(stops, p)
  {
    hide FirstStop, LongestHold, Held;
    HeldIsEnough(stops, p);
    var a, n := Stable(p), |p| - Held(p, stops);
    if EnoughHeld(stops, p) {
      forall z: string, k, j: nat | 0 <= k < |stops| && Occurs((e + a) + z, stops[k], j) ensures |e| + n <= j {
        assert (e + a) + z == e + (a + z);
        OccursRight(e, a + z, stops[k], j);
      }
    } else {
      var z: string, k, j: nat :| 0 <= k < |stops| && Occurs(a + z, stops[k], j) && j < n;
      assert (e + a) + z == e + (a + z);
      OccursRight(e, a + z, stops[k], |e| + j);
    }
  }

  /** Every later decode keeps the stable part of the one before it. */
  ghost predicate KeepsStable(c: Config, tokens: seq<Token>) {
    && c.decode([]) == Some("")
    && forall n | 0 <= n < |tokens| && c.decode(tokens[..n + 1]).Some? ::
         c.decode(tokens[..n]).Some? && Stable(c.decode(tokens[..n]).value) <= Stable(c.decode(tokens[..n + 1]).value)
  }

  /** Between two tokens: what is emitted lies in the stable part, and no stop can begin in it whatever
      replaces a final U+FFFD. */
  ghost predicate Steady(c: Config, v: DecoderView, tokens: seq<Token>) {
    && !v.finished && v.ids == tokens && c.decode(tokens) == Some(v.decoded)
    && v.emitted + v.pending == v.decoded && |v.emitted| <= |Stable(v.decoded)|
    && ClearSoFar(c, tokens) && Guarded(c.stops, Stable(v.decoded), |v.emitted|)
    && v.emittedBytes == Utf8Len(v.emitted) <= c.maxBytes
  }

  lemma SteadyResumes(c: Config, v: DecoderView, tokens: seq<Token>, full: string)
    requires Steady(c, v, tokens) && Stable(v.decoded) <= Stable(full)
    ensures v.emitted <= full
    ensures var p := full[|v.emitted|..];
            && v.emitted + p == full && Stable(full) == v.emitted + Stable(p)
            && Guarded(c.stops, Stable(full), |v.emitted|)
            && FirstStop(full, c.stops) == Shifted(FirstStop(p, c.stops), |v.emitted|)
  {
    hide FirstStop, Guarded;
    var e := v.emitted;
    assert Stable(v.decoded)[..|e|] == v.decoded[..|e|] == e && Stable(full)[..|e|] == e && full[..|e|] == e;
    var p := full[|e|..];
    assert full == e + p && Stable(full) == e + Stable(p);
    GuardedGrows(c.stops, Stable(v.decoded), Stable(full), |e|);
    GuardedGrows(c.stops, Stable(full), full, |e|);
    FirstStopAfter(e, p, c.stops);
  }

  /** One more token of a steady stream: it stops exactly before the first stop; or it stays steady, if and
      only if enough is held back. */
  lemma StablePushKeeps(c: Config, v: DecoderView, tokens: seq<Token>, token: Token, full: string)
    requires Steady(c, v, tokens) && c.decode(tokens + [token]) == Some(full) && Stable(v.decoded) <= Stable(full)
    requires Pushed(c, v, token).Some?
    ensures v.emitted <= full
    ensures var v' := Pushed(c, v, token).value.0;
            if FirstStop(full, c.stops).Some? then Stopped(c, v', tokens + [token])
            else Steady(c, v', tokens + [token]) <==> EnoughHeld(c.stops, full[|v.emitted|..])
  {
    hide IsFirst, FirstStop, Utf8Len, Guarded, ClearSoFar, StoppedAt, Pushed, LongestHold, Held;
    SteadyResumes(c, v, tokens, full);
    var p := full[|v.emitted|..];
    if FirstStop(full, c.stops).Some? {
      PushedStop(c, v, token, full);
      StopsHere(c, tokens, token, full);
    } else {
      PushedOn(c, v, token, full);
      StaysClear(c, tokens, token, full);
      EnoughAfter(c.stops, v.emitted, p);
      assert |p| - Held(p, c.stops) <= |Stable(p)|;
    }
  }

  /** Whether the push of `token` after `before` holds enough back. */
  ghost predicate EnoughAt(c: Config, before: seq<Token>, token: Token) {
    PushAll(c, before).Some? && c.decode(before + [token]).Some? ==>
      var e, full := PushAll(c, before).value.emitted, c.decode(before + [token]).value;
      |e| <= |full| ==> EnoughHeld(c.stops, full[|e|..])
  }

  /** For every stream whose decodes keep the stable part: if enough is held back at every push, nothing that
      can belong to a stop, now or after any rewriting of a final U+FFFD, is ever emitted or returned. */
  lemma {:induction false} StableStreamIsGuarded(c: Config, tokens: seq<Token>)
    requires c.Valid() && KeepsStable(c, tokens) && PushAll(c, tokens).Some?
    requires forall n | 0 <= n < |tokens| :: EnoughAt(c, tokens[..n], tokens[n])
    ensures var v := PushAll(c, tokens).value; Steady(c, v, tokens) || Stopped(c, v, tokens)
    ensures Told(c, PushAll(c, tokens).value, tokens, ChunksOf(c, tokens))
    decreases |tokens|
  {
    hide Steady, Stopped, Pushed, EnoughAt, Stable, Told, KeepsStable;
    if |tokens| == 0 {
      KeepsStableStart(c, tokens);
      EmptySteady(c, tokens);
      NothingTold(c);
    } else {
      var n := |tokens| - 1;
      var before, last := tokens[..n], tokens[n];
      assert tokens == before + [last] && tokens[..|tokens|] == tokens;
      forall k | 0 <= k < n ensures EnoughAt(c, before[..k], before[k]) {
        assert before[..k] == tokens[..k];
      }
      KeepsStablePrefix(c, before, last);
      StableStreamIsGuarded(c, before);
      assert EnoughAt(c, tokens[..n], tokens[n]);
      StableNext(c, PushAll(c, before).value, before, last, ChunksOf(c, before));
    }
  }

  lemma StableNext(c: Config, v: DecoderView, tokens: seq<Token>, token: Token, chunks: seq<Chunk>)
    requires Steady(c, v, tokens) || Stopped(c, v, tokens)
    requires |chunks| == |tokens| && Told(c, v, tokens, chunks) && Pushed(c, v, token).Some?
    requires c.decode(tokens + [token]).Some? && c.decode(tokens).Some? ==>
               Stable(c.decode(tokens).value) <= Stable(c.decode(tokens + [token]).value)
    requires PushAll(c, tokens) == Some(v) && EnoughAt(c, tokens, token)
    ensures var x := Pushed(c, v, token).value;
            && (Steady(c, x.0, tokens + [token]) || Stopped(c, x.0, tokens + [token]))
            && Told(c, x.0, tokens + [token], chunks + [x.1])
  {
    hide Steady, Stopped, Pushed, EnoughHeld, Stable, Told;
    if Steady(c, v, tokens) {
      SteadyDecoded(c, v, tokens);
      PushedDecodes(c, v, token);
      var full := c.decode(tokens + [token]).value;
      StablePushKeeps(c, v, tokens, token, full);
      SteadyTells(c, v, tokens, token, full, chunks);
    } else {
      StoppedStays(c, v, tokens, token);
      StoppedEnds(c, v, tokens);
      ToldStays(c, v, tokens, token, chunks);
    }
  }

  lemma SteadyTells(c: Config, v: DecoderView, tokens: seq<Token>, token: Token, full: string, chunks: seq<Chunk>)
    requires Steady(c, v, tokens) && |chunks| == |tokens| && Told(c, v, tokens, chunks) && Pushed(c, v, token).Some?
    requires c.decode(tokens + [token]) == Some(full) && Stable(v.decoded) <= Stable(full)
    ensures var x := Pushed(c, v, token).value; Told(c, x.0, tokens + [token], chunks + [x.1])
  {
    hide IsFirst, FirstStop, Utf8Len, Guarded, ClearSoFar, Pushed, Told, Stable;
    SteadyResumes(c, v, tokens, full);
    TellsOn(c, v, tokens, token, full, chunks);
  }

  lemma SteadyDecoded(c: Config, v: DecoderView, tokens: seq<Token>)
    requires Steady(c, v, tokens)
    ensures c.decode(tokens) == Some(v.decoded) && v.ids == tokens && !v.finished
  {
  }

  lemma PushedDecodes(c: Config, v: DecoderView, token: Token)
    requires !v.finished && Pushed(c, v, token).Some?
    ensures c.decode(v.ids + [token]).Some?
  {
  }

  lemma EmptySteady(c: Config, tokens: seq<Token>)
    requires c.Valid() && c.decode([]) == Some("") && tokens == []
    ensures Steady(c, DecoderView([], "", "", 0, false, ""), tokens)
  {
    assert FirstStop("", c.stops).None?;
    assert tokens[..0] == [] && Stable("") == "";
  }

  lemma KeepsStableStart(c: Config, tokens: seq<Token>)
    requires KeepsStable(c, tokens)
    ensures c.decode([]) == Some("")
  {
  }

  lemma KeepsStablePrefix(c: Config, before: seq<Token>, last: Token)
    requires KeepsStable(c, before + [last])
    ensures KeepsStable(c, before)
    ensures c.decode(before + [last]).Some? ==>
              c.decode(before).Some? && Stable(c.decode(before).value) <= Stable(c.decode(before + [last]).value)
  {
    var tokens := before + [last];
    assert tokens[..|tokens|] == tokens && tokens[..|before|] == before;
    forall n | 0 <= n <= |before| ensures before[..n] == tokens[..n] {}
  }

  /** A stop that ends in a character of three bytes. */
  const SPLIT_STOP: string := "x\U{4F60}"

  lemma NoSplitStop(stops: seq<string>, text: string)
    requires stops == [SPLIT_STOP] && text == ['x', REPLACEMENT]
    ensures FirstStop(text, stops).None? && FirstStop(SPLIT_STOP[1..], stops).None?
  {
    hide FirstStop;
    assert text[0..2][1] != SPLIT_STOP[1];
    assert forall i: nat :: !Occurs(text, SPLIT_STOP, i) && !Occurs(SPLIT_STOP[1..], SPLIT_STOP, i);
  }

  /** Nothing is held for a stop when the last character is in none. */
  lemma LastCharacter(text: string, pats: seq<string>)
    requires 0 < |text| && forall k | 0 <= k < |pats| :: text[|text| - 1] !in pats[k]
    ensures LongestHold(text, pats) == 0
  {
    hide LongestHold;
    forall n: nat, k | 0 < n <= |text| && 0 <= k < |pats| && n <= |pats[k]| ensures text[|text| - n..] != pats[k][..n] {
      assert text[|text| - n..][n - 1] == text[|text| - 1];
      assert pats[k][..n][n - 1] in pats[k];
    }
  }

  /** Flushing without a stop only moves text from pending to emitted. */
  lemma FlushClear(c: Config, v: DecoderView)
    requires FirstStop(v.pending, c.stops).None? && v.emittedBytes + Utf8Len(v.pending) <= c.maxBytes
    ensures Flushed(c, v, false).Some?
    ensures var v' := Flushed(c, v, false).value.0;
            v'.emitted + v'.pending == v.emitted + v.pending && v'.finished == v.finished
  {
    hide IsFirst, FirstStop, Held, Utf8Len, Flushed;
    FlushedIs(c, v);
    var split := |v.pending| - Held(v.pending, c.stops);
    var a, b := v.pending[..split], v.pending[split..];
    assert a + b == v.pending;
    Utf8Plus(a, b);
    assert (v.emitted + a) + b == v.emitted + (a + b);
  }

  lemma PushClear(c: Config, v: DecoderView, token: Token, full: string, n: nat)
    requires !v.finished && c.decode(v.ids + [token]) == Some(full) && n + |v.pending| == |v.decoded| && n <= |full|
    requires v.decoded[..n] == full[..n] && FirstStop(full[n..], c.stops).None?
    requires v.emittedBytes + Utf8Len(full[n..]) <= c.maxBytes
    ensures Pushed(c, v, token).Some?
    ensures var v' := Pushed(c, v, token).value.0; v'.emitted + v'.pending == v.emitted + full[n..] && !v'.finished
  {
    hide IsFirst, FirstStop, Utf8Len, Flushed;
    assert |v.decoded| - |v.pending| == n && v.decoded[..n] <= full;
    FlushClear(c, v.(ids := v.ids + [token], decoded := full, pending := full[n..]));
  }

  lemma FirstPush(c: Config)
    requires c.stops == [SPLIT_STOP] && c.maxBytes == 10 && c.decode([1]) == Some(['x', REPLACEMENT])
    ensures var start, one := DecoderView([], "", "", 0, false, ""),
            DecoderView([1], ['x', REPLACEMENT], [REPLACEMENT], 1, false, "x");
            Pushed(c, start, 1) == Some((one, Chunk("x", None, false)))
  {
    hide IsFirst, FirstStop, LongestHold;
    var start := DecoderView([], "", "", 0, false, "");
    var text: string := ['x', REPLACEMENT];
    NoSplitStop(c.stops, text);
    LastCharacter(text, c.stops);
    assert start.ids + [1] == [1] && start.decoded[..0] == "" && text[0..] == text && text[..1] == "x" &&
        text[1..] == [REPLACEMENT];
    assert "" + "x" == "x" && Utf8Len("x") == 1;
  }

  lemma NotEnough(stops: seq<string>)
    requires stops == [SPLIT_STOP]
    ensures !EnoughHeld(stops, ['x', REPLACEMENT])
  {
    hide LongestHold;
    var text: string := ['x', REPLACEMENT];
    LastCharacter(text, stops);
    assert Stable(text) == "x" && "x"[0..] == stops[0][..1] && Holds("x", stops, 1);
  }

  lemma SecondPush(c: Config)
    requires c.stops == [SPLIT_STOP] && c.maxBytes == 10 && c.decode([1, 2]) == Some(SPLIT_STOP)
    ensures var one := DecoderView([1], ['x', REPLACEMENT], [REPLACEMENT], 1, false, "x");
            Pushed(c, one, 2).Some? &&
            var two := Pushed(c, one, 2).value.0; two.emitted + two.pending == SPLIT_STOP && !two.finished
  {
    hide IsFirst, FirstStop, Held, Pushed;
    var text: string := ['x', REPLACEMENT];
    NoSplitStop(c.stops, text);
    assert [1] + [2] == [1, 2] && text[..1] == "x" && SPLIT_STOP[..1] == "x" && "x" + SPLIT_STOP[1..] == SPLIT_STOP;
    assert SPLIT_STOP[1..] == ['\U{4F60}'] && Utf8Len(['\U{4F60}']) == 3;
    PushClear(c, DecoderView([1], text, [REPLACEMENT], 1, false, "x"), 2, SPLIT_STOP, 1);
  }

  /** So a rewritten tail can let a stop through: when the second character of the stop arrives byte by byte,
      the decodes `x` U+FFFD and then `x` with that character emit the beginning of the stop, and then never
      report it. */
  lemma RewriteLeaks(c: Config)
    requires c.stops == [SPLIT_STOP] && c.maxBytes == 10
    requires c.decode([1]) == Some(['x', REPLACEMENT]) && c.decode([1, 2]) == Some(SPLIT_STOP)
    ensures !EnoughHeld(c.stops, ['x', REPLACEMENT])
    ensures PushAll(c, [1]).Some? && PushAll(c, [1]).value.emitted == "x"
    ensures PushAll(c, [1, 2]).Some?
    ensures var two := PushAll(c, [1, 2]).value; two.emitted + two.pending == SPLIT_STOP && !two.finished
  {
    hide Pushed;
    FirstPush(c);
    SecondPush(c);
    NotEnough(c.stops);
    assert [1, 2][..1] == [1] && [1][..0] == [];
    assert PushAll(c, [1]) == Some(DecoderView([1], ['x', REPLACEMENT], [REPLACEMENT], 1, false, "x"));
  }
}
