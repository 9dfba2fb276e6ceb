/** The draft model stays exactly one row behind the target, so it never runs out of room or
    positions before the target does. */
module Lockstep {
  import opened Wrappers
  import opened Network
  import opened Forward
  import opened Mtp
  import Chunks
  import Fold

  /** A draft state of `len` rows whose tail waits at position `len`. */
  ghost predicate Aligned(mtp: MtpModel, v: MtpView) {
    && OwnState(mtp, v)
    && |v.sequence.layers[0].rows| == v.sequence.len
    && v.sequence.layers[0].maxTokens == v.sequence.maxContext <= mtp.maxPositions
    && v.tailHidden.Some? && |v.tailHidden.value| == mtp.hidden
    && v.tailPosition == Some(Pos(v.sequence.len, v.sequence.len, v.sequence.len))
  }

  /** A draft state no prompt token has reached. */
  ghost predicate Untouched(mtp: MtpModel, v: MtpView) {
    && OwnState(mtp, v)
    && |v.sequence.layers[0].rows| == v.sequence.len == 0
    && v.sequence.layers[0].maxTokens == v.sequence.maxContext <= mtp.maxPositions
    && v.tailHidden == None && v.tailPosition == None
  }

  ghost predicate InLockstep(mtp: MtpModel, target: StateView, v: MtpView) {
    && Aligned(mtp, v)
    && v.sequence.len + 1 == target.len == target.nextPosition
    && v.sequence.maxContext == target.maxContext
  }

  ghost predicate ValidMtp(mtp: MtpModel) {
    forall x :: mtp.norm(x).Some? ==> |mtp.norm(x).value| == mtp.hidden
  }

  // ---------------------------------------------------------------- growth

  lemma {:induction false} AttentionGrows(b: Block, st: LayerState, xs: seq<Input>)
    requires st.AttentionState? && Fold.Run(BlockStep(b), st, xs).Some?
    ensures var st' := Fold.Run(BlockStep(b), st, xs).value.0;
            st'.AttentionState? && st'.maxTokens == st.maxTokens && |st'.rows| == |st.rows| + |xs|
    decreases |xs|
  {
    if |xs| > 0 {
      AttentionGrows(b, st, xs[..|xs| - 1]);
    }
  }

  lemma StagesGrow(mtp: MtpModel, target: Model, layer: LayerState, rows: seq<MtpRow>)
    requires 0 < |rows| && layer.AttentionState? && LayerStages(mtp, target, layer, rows).Some? && ValidMtp(mtp)
    ensures var (after, output, logits) := LayerStages(mtp, target, layer, rows).value;
            && after.AttentionState? && after.maxTokens == layer.maxTokens && |after.rows| == |layer.rows| + |rows|
            && |output[|output| - 1]| == mtp.hidden
  {
    hide Fold.Run, BlockStep;
    AttentionGrows(mtp.layer, layer, Inputs(Fold.MapRows(StemStep(mtp, target), rows).value, Positions(rows)));
  }

  lemma RanRowsGrow(mtp: MtpModel, target: Model, v: MtpView, rows: seq<MtpRow>)
    requires RanRows(mtp, target, v, rows).Some? && ValidMtp(mtp)
    ensures var v' := RanRows(mtp, target, v, rows).value;
            && OwnState(mtp, v') && v'.sequence.len == v.sequence.len + |rows| <= v.sequence.maxContext
            && v'.sequence.maxContext == v.sequence.maxContext
            && |v'.sequence.layers[0].rows| == |v.sequence.layers[0].rows| + |rows|
            && v'.sequence.layers[0].maxTokens == v.sequence.layers[0].maxTokens
            && |v'.sequence.lastHidden| == mtp.hidden
            && v'.tailHidden == v.tailHidden && v'.tailPosition == v.tailPosition
  {
    hide LayerStages, Forwarded;
    StagesAreRanRows(mtp, target, v, rows);
    StagesGrow(mtp, target, v.sequence.layers[0], rows);
  }

  // ---------------------------------------------------------------- what every operation keeps

  lemma StepKeepsAligned(mtp: MtpModel, target: Model, v: MtpView, token: Token, hidden: Option<Row>)
    requires Aligned(mtp, v) && ValidMtp(mtp) && Stepped(mtp, target, v, token, hidden).Some?
    ensures var v' := Stepped(mtp, target, v, token, hidden).value;
            Aligned(mtp, v') && v'.sequence.len == v.sequence.len + 1 && v'.sequence.maxContext == v.sequence.maxContext
  {
    hide RanRows;
    var source := if hidden.Some? then hidden.value else v.tailHidden.value;
    RanRowsGrow(mtp, target, v, [MtpRow(token, source, v.tailPosition.value)]);
  }

  lemma {:induction false} ReplayKeepsAligned(mtp: MtpModel, target: Model, v: MtpView, tokens: seq<Token>,
      hidden: seq<Row>)
    requires |tokens| == |hidden| && Aligned(mtp, v) && ValidMtp(mtp) && Replayed(mtp, target, v, tokens, hidden).Some?
    ensures var v' := Replayed(mtp, target, v, tokens, hidden).value;
            Aligned(mtp, v') && v'.sequence.len == v.sequence.len + |tokens| &&
                v'.sequence.maxContext == v.sequence.maxContext
    decreases |tokens|
  {
    hide Stepped;
    if |tokens| > 0 {
      var n := |tokens| - 1;
      ReplayKeepsAligned(mtp, target, v, tokens[..n], hidden[..n]);
      StepKeepsAligned(mtp, target, Replayed(mtp, target, v, tokens[..n], hidden[..n]).value, tokens[n],
                       if n == 0 then None else Some(hidden[n - 1]));
    }
  }

  lemma PrefillCount(v: MtpView, tokens: seq<Token>, hidden: seq<Row>, positions: seq<Pos>)
    requires 0 < |tokens| == |hidden| == |positions| && (v.tailHidden.Some? ==> v.tailPosition.Some?)
    ensures |PrefillRows(v, tokens, hidden, positions)| == |tokens| - 1 + if v.tailHidden.Some? then 1 else 0
  {
  }

  /** A prompt chunk at its text positions leaves the draft state one row behind its last token. */
  lemma PrefillAligns(mtp: MtpModel, target: Model, v: MtpView, tokens: seq<Token>, hidden: seq<Row>, first: nat)
    requires ValidMtp(mtp) && (Untouched(mtp, v) || Aligned(mtp, v))
    requires first == if v.tailHidden.Some? then v.sequence.len + 1 else 0
    requires forall h | h in hidden :: |h| == mtp.hidden
    requires Prefilled(mtp, target, v, tokens, hidden, TextPositions(first, |tokens|)).Some?
    ensures var v' := Prefilled(mtp, target, v, tokens, hidden, TextPositions(first, |tokens|)).value;
            Aligned(mtp, v') && v'.sequence.len + 1 == first + |tokens| &&
                v'.sequence.maxContext == v.sequence.maxContext
  {
    hide RanRows, PrefillRows;
    var rows := PrefillRows(v, tokens, hidden, TextPositions(first, |tokens|));
    PrefillCount(v, tokens, hidden, TextPositions(first, |tokens|));
    if |rows| > 0 {
      RanRowsGrow(mtp, target, v, rows);
    }
  }

  // ---------------------------------------------------------------- seeding

  /** Seeding a draft that was never prefilled gives it the tail that prefilling the same tokens would have left. */
  lemma SeedIsPrefillTail(mtp: MtpModel, target: Model, before: StateView, tokens: seq<Token>, v: MtpView,
      empty: MtpView)
    requires ForwardTokens(target, before, tokens, false).Some?
    requires var (ts, out) := ForwardTokens(target, before, tokens, false).value;
             && Prefilled(mtp, target, v, tokens, out.hidden, TextPositions(before.nextPosition, |tokens|)).Some?
             && empty.tailHidden == None && Seeded(mtp, empty, ts).Some?
    ensures var (ts, out) := ForwardTokens(target, before, tokens, false).value;
            var prefilled := Prefilled(mtp, target, v, tokens, out.hidden,
                TextPositions(before.nextPosition, |tokens|));
            var seeded := Seeded(mtp, empty, ts).value;
            && seeded.tailHidden == prefilled.value.tailHidden && seeded.tailPosition == prefilled.value.tailPosition
            && seeded.sequence == empty.sequence
  {
    hide RanRows, PrefillRows, Fold.Run, Fold.MapRows;
    Chunks.TextAdvances(target, before, tokens, false);
  }

  // ---------------------------------------------------------------- room

  /** An aligned draft state short of its window has a free row and a legal position: its next
      step can only fail inside a kernel, never for lack of room. */
  lemma StepHasRoom(mtp: MtpModel, target: Model, v: MtpView)
    requires Aligned(mtp, v) && v.sequence.len < v.sequence.maxContext
    ensures Admits(AsModel(mtp, target), v.sequence, [v.tailPosition.value])
    ensures |v.sequence.layers[0].rows| < v.sequence.layers[0].maxTokens
  {
  }

  /** So no step of a replay that fits the window can fail for lack of room or positions. */
  lemma ReplayHasRoom(mtp: MtpModel, target: Model, v: MtpView, tokens: seq<Token>, hidden: seq<Row>, n: nat)
    requires |tokens| == |hidden| && n < |tokens| && v.sequence.len + |tokens| <= v.sequence.maxContext
    requires Aligned(mtp, v) && ValidMtp(mtp) && Replayed(mtp, target, v, tokens[..n], hidden[..n]).Some?
    ensures var before := Replayed(mtp, target, v, tokens[..n], hidden[..n]).value;
            && Aligned(mtp, before)
            && Admits(AsModel(mtp, target), before.sequence, [before.tailPosition.value])
            && |before.sequence.layers[0].rows| < before.sequence.layers[0].maxTokens
  {
    hide Replayed;
    ReplayKeepsAligned(mtp, target, v, tokens[..n], hidden[..n]);
    StepHasRoom(mtp, target, Replayed(mtp, target, v, tokens[..n], hidden[..n]).value);
  }
}
