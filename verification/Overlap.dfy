/** Start and end markers that overlap: the condition on the two token lists that decides whether
    closing a thinking section can leave another one half begun. */
module Overlap {
  import opened Thinking

  /** The rest of the start marker after `j` tokens does not begin with or contain its first token,
      which is the only token the engine checks before it lets a section open. */
  predicate Unchecked(start: seq<Token>, j: nat)
    requires 0 < |start| && j <= |start|
  {
    start[0] !in start[j..]
  }

  /** The end marker can close a section on a text that ends with the first `j` start tokens. */
  predicate MeetsAt(spec: ThinkingSpec, j: nat)
    requires j <= |spec.startTokens|
  {
    EndsWith(spec.endTokens, spec.startTokens[..j]) || EndsWith(spec.startTokens[..j], spec.endTokens)
  }

  predicate Meets(spec: ThinkingSpec) {
    exists j | 0 < j < |spec.startTokens| :: Unchecked(spec.startTokens, j) && MeetsAt(spec, j)
  }

  /** A whole end marker sent after `n` of its tokens closes too early and then opens again. */
  predicate ReopensAt(spec: ThinkingSpec, n: nat)
    requires n < |spec.endTokens|
  {
    Open(spec.(initiallyInThinking := true), spec.endTokens[..n] + spec.endTokens)
  }

  predicate Reopens(spec: ThinkingSpec) {
    exists n | 0 < n < |spec.endTokens| :: ReopensAt(spec, n)
  }

  /** The start marker ends with two overlapping end markers. */
  predicate Twice(spec: ThinkingSpec) {
    EndsWith(spec.startTokens, spec.endTokens) &&
    exists c | |spec.endTokens| <= c < |spec.startTokens| ::
      |spec.startTokens| < c + |spec.endTokens| && EndsWith(spec.startTokens[..c], spec.endTokens)
  }

  /** What a caller can check before submitting a request with a thinking budget. */
  predicate Overlap(spec: ThinkingSpec) {
    Meets(spec) || Reopens(spec) || Twice(spec)
  }

  // ---------------------------------------------------------------- reading suffixes

  lemma EndsWithLast(tokens: seq<Token>, t: Token, marker: seq<Token>)
    requires EndsWith(tokens + [t], marker)
    ensures marker[|marker| - 1] == t
  {
    assert (tokens + [t])[|tokens| + 1 - |marker|..][|marker| - 1] == t;
  }

  lemma EndsWithShrinks(tokens: seq<Token>, t: Token, marker: seq<Token>, j: nat)
    requires 1 < j <= |marker| && EndsWith(tokens + [t], marker[..j])
    ensures EndsWith(tokens, marker[..j - 1])
  {
    var all := tokens + [t];
    assert tokens[|tokens| - (j - 1)..] == all[|all| - j..][..j - 1];
    assert marker[..j][..j - 1] == marker[..j - 1];
  }

  /** Of two ends of one text the shorter is an end of the longer. */
  lemma EndsNest(tokens: seq<Token>, a: seq<Token>, b: seq<Token>)
    requires EndsWith(tokens, a) && EndsWith(tokens, b) && |a| <= |b|
    ensures EndsWith(b, a)
  {
    assert b[|b| - |a|..] == tokens[|tokens| - |b|..][|b| - |a|..] == tokens[|tokens| - |a|..];
  }

  /** An end of the first `k` tokens is an end of what precedes them as well, and the other way
      round if it is not longer than `k`. */
  lemma EndsInside(before: seq<Token>, tokens: seq<Token>, k: nat, marker: seq<Token>)
    requires k <= |tokens|
    ensures EndsWith(tokens[..k], marker) ==> EndsWith((before + tokens)[..|before| + k], marker)
    ensures |marker| <= k && EndsWith((before + tokens)[..|before| + k], marker) ==> EndsWith(tokens[..k], marker)
  {
    var all := (before + tokens)[..|before| + k];
    assert all == before + tokens[..k];
    if |marker| <= k {
      assert all[|all| - |marker|..] == tokens[..k][k - |marker|..];
    }
  }

  // ---------------------------------------------------------------- reading one token further

  lemma OpenNext(spec: ThinkingSpec, tokens: seq<Token>, k: nat)
    requires 0 < k <= |tokens|
    ensures Open(spec, tokens[..k]) ==
            if Open(spec, tokens[..k - 1]) then !EndsWith(tokens[..k], spec.endTokens)
            else EndsWith(tokens[..k], spec.startTokens)
  {
    assert tokens[..k][..k - 1] == tokens[..k - 1];
  }

  /** A section stays open while no end marker ends. */
  lemma {:induction false} StaysOpen(spec: ThinkingSpec, tokens: seq<Token>, lo: nat, hi: nat)
    requires lo <= hi <= |tokens| && Open(spec, tokens[..lo])
    requires forall k | lo < k <= hi :: !EndsWith(tokens[..k], spec.endTokens)
    ensures forall k | lo <= k <= hi :: Open(spec, tokens[..k])
    decreases hi - lo
  {
    hide Open, EndsWith;
    if lo < hi {
      StaysOpen(spec, tokens, lo, hi - 1);
      OpenNext(spec, tokens, hi);
    }
  }

  /** Text stays outside thinking while no start marker ends. */
  lemma {:induction false} StaysClosed(spec: ThinkingSpec, tokens: seq<Token>, lo: nat, hi: nat)
    requires lo <= hi <= |tokens| && !Open(spec, tokens[..lo])
    requires forall k | lo < k <= hi :: !EndsWith(tokens[..k], spec.startTokens)
    ensures forall k | lo <= k <= hi :: !Open(spec, tokens[..k])
    decreases hi - lo
  {
    hide Open, EndsWith;
    if lo < hi {
      StaysClosed(spec, tokens, lo, hi - 1);
      OpenNext(spec, tokens, hi);
    }
  }

  /** Where the section was last closed. */
  lemma {:induction false} LastClose(spec: ThinkingSpec, tokens: seq<Token>, lo: nat, hi: nat) returns (c: nat)
    requires lo <= hi <= |tokens| && Open(spec, tokens[..lo]) && !Open(spec, tokens[..hi])
    ensures lo < c <= hi && EndsWith(tokens[..c], spec.endTokens)
    ensures forall k | c <= k <= hi :: !Open(spec, tokens[..k])
    decreases hi - lo
  {
    hide Open, EndsWith;
    OpenNext(spec, tokens, hi);
    if Open(spec, tokens[..hi - 1]) {
      c := hi;
    } else {
      c := LastClose(spec, tokens, lo, hi - 1);
    }
  }

  // ---------------------------------------------------------------- what a sent end marker leaves

  /** Text that ends with the end marker ends with no start marker begun unchecked. */
  lemma EndBeginsNothing(spec: ThinkingSpec, tokens: seq<Token>, j: nat)
    requires !Meets(spec) && 0 < j < |spec.startTokens| && Unchecked(spec.startTokens, j)
    requires EndsWith(tokens, spec.endTokens)
    ensures !EndsWith(tokens, spec.startTokens[..j])
  {
    if EndsWith(tokens, spec.startTokens[..j]) {
      BothEndsMeet(spec, tokens, j);
    }
  }

  lemma BothEndsMeet(spec: ThinkingSpec, tokens: seq<Token>, j: nat)
    requires j <= |spec.startTokens| && EndsWith(tokens, spec.endTokens) && EndsWith(tokens, spec.startTokens[..j])
    ensures MeetsAt(spec, j)
  {
    if j <= |spec.endTokens| {
      EndsNest(tokens, spec.startTokens[..j], spec.endTokens);
    } else {
      EndsNest(tokens, spec.endTokens, spec.startTokens[..j]);
    }
  }

  /** A whole end marker sent in an open section leaves it closed, even where it closed early. */
  lemma SentEndCloses(spec: ThinkingSpec, tokens: seq<Token>)
    requires !Reopens(spec) && !Twice(spec) && 0 < |spec.startTokens| && 0 < |spec.endTokens| && Open(spec, tokens)
    ensures !Open(spec, tokens + spec.endTokens)
  {
    if Open(spec, tokens + spec.endTokens) {
      ReopenedOverlaps(spec, tokens);
    }
  }

  /** If it is open in the end, it closed early, and then a start marker ended exactly where the end
      marker did. */
  lemma ReopenedOverlaps(spec: ThinkingSpec, tokens: seq<Token>)
    requires 0 < |spec.startTokens| && 0 < |spec.endTokens| && Open(spec, tokens)
    requires Open(spec, tokens + spec.endTokens)
    ensures Reopens(spec) || Twice(spec)
  {
    hide Open, Reopens, Twice, EndsWith;
    var end, all := spec.endTokens, tokens + spec.endTokens;
    var p, z := |tokens|, |tokens| + |spec.endTokens|;
    assert all[..p] == tokens && all[..z] == all;
    OpenNext(spec, all, z);
    EndsWithItself(tokens, end);
    var c := LastClose(spec, all, p, z - 1);
    if |spec.startTokens| <= z - c + |end| {
      EarlyCloseReopens(spec, tokens, c);
    } else {
      EarlyCloseTwice(spec, tokens, c);
    }
  }

  lemma EndsWithItself(tokens: seq<Token>, marker: seq<Token>)
    requires 0 < |marker|
    ensures EndsWith(tokens + marker, marker)
  {
  }

  ghost predicate ClosedEarly(spec: ThinkingSpec, tokens: seq<Token>, c: nat) {
    var all := tokens + spec.endTokens;
    && |tokens| < c < |all| && EndsWith(all[..c], spec.endTokens) && EndsWith(all, spec.startTokens)
    && forall k | c <= k < |all| :: !Open(spec, all[..k])
  }

  lemma EarlyCloseTwice(spec: ThinkingSpec, tokens: seq<Token>, c: nat)
    requires ClosedEarly(spec, tokens, c)
    requires |spec.startTokens| > |tokens| + |spec.endTokens| - c + |spec.endTokens|
    ensures Twice(spec)
  {
    var start, end, all := spec.startTokens, spec.endTokens, tokens + spec.endTokens;
    var k := |start| - (|all| - c);
    EndsWithItself(tokens, end);
    EndsNest(all, end, start);
    assert all == all[..|all| - |start|] + start;
    EndsInside(all[..|all| - |start|], start, k, end);
  }

  lemma EarlyCloseReopens(spec: ThinkingSpec, tokens: seq<Token>, c: nat)
    requires ClosedEarly(spec, tokens, c)
    requires |spec.startTokens| <= |tokens| + |spec.endTokens| - c + |spec.endTokens|
    ensures Reopens(spec)
  {
    hide Open, EndsWith;
    var all := tokens + spec.endTokens;
    var n := |all| - c;
    EarlyCloseText(tokens, spec.endTokens, c);
    TextReopens(spec, all[..c - |spec.endTokens|], spec.endTokens[..n] + spec.endTokens, all);
    assert ReopensAt(spec, n);
  }

  /** An end marker that ends inside the one just sent overlaps it. */
  lemma EarlyCloseText(tokens: seq<Token>, end: seq<Token>, c: nat)
    requires |tokens| < c < |tokens + end| && EndsWith((tokens + end)[..c], end)
    ensures |end| <= c
    ensures var text := end[..|tokens + end| - c] + end;
            tokens + end == (tokens + end)[..c - |end|] + text && text[..|end|] == end
  {
    var all := tokens + end;
    var n := |all| - c;
    assert all[..c][c - |end|..] == end;
    assert all[c - |end|..c] == end;
    assert all[c - |end|..|tokens|] == end[..n];
    assert all[|tokens|..] == end;
    assert all[c - |end|..] == end[..n] + end;
    assert (end[..n] + end)[..|end|] == all[c - |end|..c];
  }

  lemma TextReopens(spec: ThinkingSpec, before: seq<Token>, text: seq<Token>, all: seq<Token>)
    requires 0 < |spec.endTokens| < |text| && text[..|spec.endTokens|] == spec.endTokens
    requires all == before + text && EndsWith(all, spec.startTokens) && |spec.startTokens| <= |text|
    requires forall k | |before| + |spec.endTokens| <= k < |all| :: !Open(spec, all[..k])
    ensures Open(spec.(initiallyInThinking := true), text)
  {
    hide Open, EndsWith;
    assert all[..|before| + |text|] == all && text[..|text|] == text;
    EndsInside(before, text, |text|, spec.startTokens);
    forall k | |spec.endTokens| < k < |text| ensures !EndsWith(text[..k], spec.startTokens) {
      EndsInside(before, text, k, spec.startTokens);
      OpenNext(spec, all, |before| + k);
    }
    ReadsReopen(spec.(initiallyInThinking := true), text);
  }

  /** Read from inside thinking: open before the first end marker, closed by it, open at the end. */
  lemma ReadsReopen(spec: ThinkingSpec, text: seq<Token>)
    requires spec.initiallyInThinking && 0 < |spec.endTokens| < |text| && text[..|spec.endTokens|] == spec.endTokens
    requires EndsWith(text, spec.startTokens)
    requires forall k | |spec.endTokens| < k < |text| :: !EndsWith(text[..k], spec.startTokens)
    ensures Open(spec, text)
  {
    hide Open;
    var e := |spec.endTokens|;
    OpenEmpty(spec);
    assert text[..0] == [];
    StaysOpen(spec, text, 0, e - 1);
    OpenNext(spec, text, e);
    StaysClosed(spec, text, e, |text| - 1);
    OpenNext(spec, text, |text|);
    assert text[..|text|] == text;
  }

  lemma OpenEmpty(spec: ThinkingSpec)
    ensures Open(spec, []) == spec.initiallyInThinking
  {
  }

  // ---------------------------------------------------------------- simpler conditions

  /** No proper part at the beginning of the marker is also its end. */
  predicate Unbordered(marker: seq<Token>) {
    forall i | 0 < i < |marker| :: !EndsWith(marker, marker[..i])
  }

  lemma BorderBetween(text: seq<Token>, marker: seq<Token>, c: nat)
    requires c < |text| < c + |marker| && EndsWith(text, marker) && EndsWith(text[..c], marker)
    ensures !Unbordered(marker)
  {
    var i := |marker| - (|text| - c);
    assert text[|text| - |marker|..] == marker && text[c - |marker|..c] == marker by {
      assert text[..c][c - |marker|..] == marker;
    }
    assert marker[..i] == text[|text| - |marker|..c] == marker[|marker| - i..];
    assert EndsWith(marker, marker[..i]);
  }

  /** With an end marker that does not overlap itself only `Meets` is left. */
  lemma UnborderedMeets(spec: ThinkingSpec)
    requires 0 < |spec.startTokens| && 0 < |spec.endTokens| && Unbordered(spec.endTokens)
    ensures Overlap(spec) == Meets(spec)
  {
    hide Open, EndsWith, Unbordered, Meets;
    if Reopens(spec) {
      var n :| 0 < n < |spec.endTokens| && ReopensAt(spec, n);
      var c := ReopeningBorders(spec.(initiallyInThinking := true), n);
      BorderBetween(spec.endTokens[..n] + spec.endTokens, spec.endTokens, c);
    } else if Twice(spec) {
      var c :| |spec.endTokens| <= c < |spec.startTokens| && |spec.startTokens| < c + |spec.endTokens|
               && EndsWith(spec.startTokens[..c], spec.endTokens);
      BorderBetween(spec.startTokens, spec.endTokens, c);
    }
  }

  lemma ReopeningBorders(spec: ThinkingSpec, n: nat) returns (c: nat)
    requires spec.initiallyInThinking && 0 < n < |spec.endTokens| && Open(spec, spec.endTokens[..n] + spec.endTokens)
    ensures n < c < n + |spec.endTokens|
    ensures EndsWith((spec.endTokens[..n] + spec.endTokens)[..c], spec.endTokens)
    ensures EndsWith(spec.endTokens[..n] + spec.endTokens, spec.endTokens)
    ensures EndsWith(spec.endTokens[..n] + spec.endTokens, spec.startTokens)
  {
    hide Open;
    var text := spec.endTokens[..n] + spec.endTokens;
    OpenEmpty(spec);
    assert text[..0] == [] && text[..|text|] == text;
    EndsWithItself(spec.endTokens[..n], spec.endTokens);
    OpenNext(spec, text, |text|);
    c := LastClose(spec, text, 0, |text| - 1);
  }

  /** Markers that never overlap: the start marker's first token is not in the end marker, and the end
      marker does not end in the start marker before its last token. */
  lemma SeparateMarkers(spec: ThinkingSpec)
    requires 0 < |spec.startTokens| && 0 < |spec.endTokens| && spec.startTokens[0] !in spec.endTokens
    requires forall j | 0 < j < |spec.startTokens| :: !EndsWith(spec.startTokens[..j], spec.endTokens)
    ensures !Overlap(spec)
  {
    hide Open;
    forall j | 0 < j < |spec.startTokens| ensures !EndsWith(spec.endTokens, spec.startTokens[..j]) {
      FirstIn(spec.endTokens, spec.startTokens[..j]);
    }
    forall n | 0 < n < |spec.endTokens| ensures !ReopensAt(spec, n) {
      var text := spec.endTokens[..n] + spec.endTokens;
      FirstIn(text, spec.startTokens);
      if ReopensAt(spec, n) {
        var c := ReopeningBorders(spec.(initiallyInThinking := true), n);
      }
    }
  }

  lemma FirstIn(text: seq<Token>, marker: seq<Token>)
    ensures EndsWith(text, marker) ==> marker[0] in text
  {
    if EndsWith(text, marker) {
      assert text[|text| - |marker|..][0] == text[|text| - |marker|];
    }
  }
}
