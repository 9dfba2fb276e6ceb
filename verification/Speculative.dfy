/** Speculative decoding (src/engine/speculative.rs): propose with the draft model, verify all
    proposals in one target call, re-run what is committed from a checkpoint. */
module Speculative {
  import opened Wrappers
  import opened Network
  import opened Forward
  import opened Greedy
  import opened Mtp
  import opened Lockstep
  import Chunks

  const HARD_DRAFT_LIMIT: nat := 8

  datatype Policy = Policy(maxDraftTokens: nat, acceptanceRate: real, draftVocab: Option<seq<Token>>, sampling: bool) {
    predicate Validates(vocab: nat) {
      && !sampling && 0.0 <= acceptanceRate <= 1.0
      && (draftVocab.Some? ==> 0 < |draftVocab.value| && forall t | t in draftVocab.value :: t < vocab)
    }

    /** The least of the limits on one round: configured drafts, hard limit, tokens left, share of the
        active requests. */
    function DraftLimit(maxTokens: nat, activeCount: nat): (r: nat)
      ensures r <= maxDraftTokens && r <= HARD_DRAFT_LIMIT && r <= maxTokens
      ensures r <= Max(HARD_DRAFT_LIMIT / Max(activeCount, 1), 1)
      ensures r == maxDraftTokens || r == maxTokens || r == Max(HARD_DRAFT_LIMIT / Max(activeCount, 1), 1)
      ensures r == 0 <==> maxDraftTokens == 0 || maxTokens == 0
    {
      Min(Min(Min(maxDraftTokens, HARD_DRAFT_LIMIT), maxTokens), Max(HARD_DRAFT_LIMIT / Max(activeCount, 1), 1))
    }

    /** All of the limit while drafts are mostly accepted, half of it rounded up at a middling rate and a
        single token below that. */
    function DraftBudget(maxTokens: nat, activeCount: nat): (r: nat)
      ensures r <= DraftLimit(maxTokens, activeCount)
      ensures r == 0 <==> DraftLimit(maxTokens, activeCount) == 0
      ensures 0.75 <= acceptanceRate ==> r == DraftLimit(maxTokens, activeCount)
      ensures 0.4 <= acceptanceRate < 0.75 ==> 2 * r - 1 <= DraftLimit(maxTokens, activeCount) <= 2 * r
      ensures acceptanceRate < 0.4 ==> r <= 1
    {
      var budget := Min(Min(maxDraftTokens, HARD_DRAFT_LIMIT), maxTokens);
      if budget == 0 then 0
      else
        var capped := Min(budget, Max(HARD_DRAFT_LIMIT / Max(activeCount, 1), 1));
        if acceptanceRate < 0.4 then 1
        else if acceptanceRate < 0.75 then Min(capped, (capped + 1) / 2)
        else capped
    }
  }

  function Min(a: nat, b: nat): nat {
    if a < b then a else b
  }

  datatype Round = Round(tokens: seq<Token>, logits: Row, accepted: nat, proposed: nat)

  // ---------------------------------------------------------------- what a round promises

  /** The committed tokens are greedy tokens of the target, an EOS can only be the last of them,
      and the new state and logits are those of running the target on exactly these tokens. */
  ghost predicate Commits(m: Model, v: StateView, logits: Row, maxTokens: nat, v': StateView, round: Round) {
    && 1 <= |round.tokens| <= maxTokens && v.len + |round.tokens| <= v.maxContext
    && GreedyDecode(m, v, logits, |round.tokens|) == Some(GreedyRun(v', round.logits, round.tokens))
    && (forall i | 0 <= i < |round.tokens| - 1 :: round.tokens[i] !in m.eos)
    && 1 <= round.accepted <= round.proposed
    && (|round.tokens| == round.accepted || |round.tokens| == round.accepted + 1)
    && (|round.tokens| == round.accepted ==>
          round.accepted == maxTokens || v.len + round.accepted == v.maxContext ||
              round.tokens[round.accepted - 1] in m.eos)
  }

  // ---------------------------------------------------------------- propose

  ghost predicate WellProposed(m: Model, first: Token, budget: nat, proposed: seq<Token>) {
    && 1 <= |proposed| <= Max(budget, 1) && proposed[0] == first
    && forall i | 0 <= i < |proposed| - 1 :: proposed[i] !in m.eos
  }

  /** The draft run from `v`: each next proposal is the draft's restricted argmax after stepping the one
      before, until the budget is full or an EOS is proposed. */
  function Drafts(target: Model, mtp: MtpModel, v: MtpView, first: Token, budget: nat, vocab: Option<seq<Token>>)
    : (r: Option<seq<Token>>)
    ensures r.Some? ==> 1 <= |r.value| <= Max(budget, 1) && r.value[0] == first
    decreases budget
  {
    if budget <= 1 || first in target.eos then Some([first])
    else
      var v' :- Stepped(mtp, target, v, first, None);
      var next :- Restricted(v'.lastLogits, vocab);
      var rest :- Drafts(target, mtp, v', next, budget - 1, vocab);
      Some([first] + rest)
  }

  lemma {:induction false} DraftsWellProposed(target: Model, mtp: MtpModel, v: MtpView, first: Token, budget: nat,
      vocab: Option<seq<Token>>)
    requires Drafts(target, mtp, v, first, budget, vocab).Some?
    ensures WellProposed(target, first, budget, Drafts(target, mtp, v, first, budget, vocab).value)
    decreases budget
  {
    hide Stepped, Restricted;
    if 1 < budget && first !in target.eos {
      var v' := Stepped(mtp, target, v, first, None).value;
      var next := Restricted(v'.lastLogits, vocab).value;
      DraftsWellProposed(target, mtp, v', next, budget - 1, vocab);
    }
  }

  /** The draft state after these tokens. */
  function Drafted(target: Model, mtp: MtpModel, v: MtpView, tokens: seq<Token>): Option<MtpView>
    decreases |tokens|
  {
    if |tokens| == 0 then Some(v)
    else
      var v' :- Stepped(mtp, target, v, tokens[0], None);
      Drafted(target, mtp, v', tokens[1..])
  }

  /** Every proposal after the first is what the draft, having run all those before it, likes best. */
  lemma {:induction false} DraftsFollow(target: Model, mtp: MtpModel, v: MtpView, first: Token, budget: nat,
      vocab: Option<seq<Token>>, i: nat)
    requires Drafts(target, mtp, v, first, budget, vocab).Some?
    requires 0 < i < |Drafts(target, mtp, v, first, budget, vocab).value|
    ensures var proposed := Drafts(target, mtp, v, first, budget, vocab).value;
            && Drafted(target, mtp, v, proposed[..i]).Some?
            && Restricted(Drafted(target, mtp, v, proposed[..i]).value.lastLogits, vocab) == Some(proposed[i])
    decreases i
  {
    hide Stepped, Restricted;
    var proposed := Drafts(target, mtp, v, first, budget, vocab).value;
    var v' := Stepped(mtp, target, v, first, None).value;
    var next := Restricted(v'.lastLogits, vocab).value;
    var rest := Drafts(target, mtp, v', next, budget - 1, vocab).value;
    assert proposed[..i][0] == first && proposed[..i][1..] == rest[..i - 1];
    if 1 < i {
      DraftsFollow(target, mtp, v', next, budget - 1, vocab, i - 1);
    } else {
      assert rest[..0] == [];
    }
  }

  /** What is still to be proposed once the draft has answered. */
  function Further(target: Model, mtp: MtpModel, v: MtpView, proposed: seq<Token>, budget: nat,
      vocab: Option<seq<Token>>)
    : Option<seq<Token>>
  {
    var next :- Restricted(v.lastLogits, vocab);
    var rest :- Drafts(target, mtp, v, next, budget, vocab);
    Some(proposed + rest)
  }

  /** The draft loop. */
  method Propose(target: Model, mtp: MtpModel, first: Token, budget: nat, policy: Policy, draft: MtpState)
    returns (r: Option<seq<Token>>)
    modifies draft
    ensures r == Drafts(target, mtp, old(draft.View()), first, budget, policy.draftVocab)
  {
    hide Stepped, Restricted;
    ghost var start := draft.View();
    var vocab := policy.draftVocab;
    var proposed := [first];
    if budget > 1 && first !in target.eos {
      var draftLogits :- StepWithHidden(mtp, target, first, None, draft);
      while |proposed| < budget
        invariant 0 < |proposed| < budget && draft.lastLogits == draftLogits
        invariant Drafts(target, mtp, start, first, budget, vocab) ==
                  Further(target, mtp, draft.View(), proposed, budget - |proposed|, vocab)
        invariant fresh(draft.sequence) || draft.sequence == old(draft.sequence)
        decreases budget - |proposed|
      {
        ghost var before, v := proposed, draft.View();
        var token :- ArgmaxRestricted(draftLogits, vocab);
        proposed := proposed + [token];
        if token in target.eos || |proposed| == budget {
          break;
        }
        FurtherOne(target, mtp, v, before, token, budget - |before|, vocab);
        draftLogits :- StepWithHidden(mtp, target, token, None, draft);
      }
    }
    r := Some(proposed);
  }

  lemma FurtherOne(target: Model, mtp: MtpModel, v: MtpView, before: seq<Token>, token: Token, budget: nat,
      vocab: Option<seq<Token>>)
    requires 1 < budget && token !in target.eos && Restricted(v.lastLogits, vocab) == Some(token)
    ensures Further(target, mtp, v, before, budget, vocab) ==
            match Stepped(mtp, target, v, token, None)
            case None => None
            case Some(v') => Further(target, mtp, v', before + [token], budget - 1, vocab)
  {
    hide Stepped, Restricted;
    if Stepped(mtp, target, v, token, None).Some? {
      var v' := Stepped(mtp, target, v, token, None).value;
      if Restricted(v'.lastLogits, vocab).Some? {
        var rest := Drafts(target, mtp, v', Restricted(v'.lastLogits, vocab).value, budget - 1, vocab);
        if rest.Some? {
          assert (before + [token]) + rest.value == before + ([token] + rest.value);
        }
      }
    }
  }

  // ---------------------------------------------------------------- room for a round

  /** The next draft row is admitted: what remains that can fail is a kernel. */
  ghost predicate RowAdmitted(target: Model, mtp: MtpModel, v: MtpView) {
    && OwnState(mtp, v) && v.tailPosition.Some? && Admits(AsModel(mtp, target), v.sequence, [v.tailPosition.value])
    && |v.sequence.layers[0].rows| < v.sequence.layers[0].maxTokens
  }

  lemma {:induction false} DraftedKeepsAligned(target: Model, mtp: MtpModel, v: MtpView, tokens: seq<Token>)
    requires Aligned(mtp, v) && ValidMtp(mtp) && Drafted(target, mtp, v, tokens).Some?
    ensures var v' := Drafted(target, mtp, v, tokens).value;
            && Aligned(mtp, v') && v'.sequence.len == v.sequence.len + |tokens|
            && v'.sequence.maxContext == v.sequence.maxContext
    decreases |tokens|
  {
    hide Stepped;
    if 0 < |tokens| {
      StepKeepsAligned(mtp, target, v, tokens[0], None);
      DraftedKeepsAligned(target, mtp, Stepped(mtp, target, v, tokens[0], None).value, tokens[1..]);
    }
  }

  /** Proposals a round may make: never more than the target has room for. */
  function RoundBudget(policy: Policy, maxTokens: nat, activeCount: nat, room: nat): (r: nat)
    requires 0 < maxTokens && 0 < room
    ensures 1 <= r <= maxTokens && r <= room && r <= Max(policy.DraftBudget(maxTokens, activeCount), 1)
    ensures r == room || r == Max(policy.DraftBudget(maxTokens, activeCount), 1)
  {
    Max(Min(policy.DraftBudget(maxTokens, activeCount), room), 1)
  }

  /** In lockstep no draft step and no replay step of a round is ever refused for lack of room, whatever
      is drafted within the budget and whatever is committed within the target's window. */
  lemma RoundHasRoom(target: Model, mtp: MtpModel, ts: StateView, ms: MtpView, policy: Policy, maxTokens: nat,
      activeCount: nat)
    requires ValidMtp(mtp) && InLockstep(mtp, ts, ms) && ts.len < ts.maxContext && 0 < maxTokens
    ensures forall drafted: seq<Token> |
              |drafted| < RoundBudget(policy, maxTokens, activeCount, ts.maxContext - ts.len) &&
              Drafted(target, mtp, ms, drafted).Some? ::
              RowAdmitted(target, mtp, Drafted(target, mtp, ms, drafted).value)
    ensures forall tokens: seq<Token>, hidden: seq<Row>,
            n: nat {:trigger Replayed(mtp, target, ms, tokens[..n], hidden[..n])} |
              |tokens| == |hidden| && n < |tokens| && ts.len + |tokens| <= ts.maxContext &&
              Replayed(mtp, target, ms, tokens[..n], hidden[..n]).Some? ::
              RowAdmitted(target, mtp, Replayed(mtp, target, ms, tokens[..n], hidden[..n]).value)
  {
    hide Drafted, Replayed;
    var budget := RoundBudget(policy, maxTokens, activeCount, ts.maxContext - ts.len);
    forall drafted: seq<Token> | |drafted| < budget && Drafted(target, mtp, ms, drafted).Some?
      ensures RowAdmitted(target, mtp, Drafted(target, mtp, ms, drafted).value)
    {
      DraftedKeepsAligned(target, mtp, ms, drafted);
      StepHasRoom(mtp, target, Drafted(target, mtp, ms, drafted).value);
    }
    forall tokens: seq<Token>, hidden: seq<Row>, n: nat |
      |tokens| == |hidden| && n < |tokens| && ts.len + |tokens| <= ts.maxContext &&
      Replayed(mtp, target, ms, tokens[..n], hidden[..n]).Some?
      ensures RowAdmitted(target, mtp, Replayed(mtp, target, ms, tokens[..n], hidden[..n]).value)
    {
      ReplayHasRoom(mtp, target, ms, tokens, hidden, n);
    }
  }

  // ---------------------------------------------------------------- verify

  /** How many proposals, from the first on, the verifier's rows confirm one after the other. */
  function Confirmed(proposed: seq<Token>, rows: seq<Row>, from: nat): (r: nat)
    requires 0 < from <= |proposed| == |rows|
    ensures from <= r <= |proposed|
    ensures forall i | from <= i < r :: proposed[i] == Argmax(rows[i - 1])
    ensures r < |proposed| ==> proposed[r] != Argmax(rows[r - 1])
    decreases |proposed| - from
  {
    if from < |proposed| && proposed[from] == Argmax(rows[from - 1]) then Confirmed(proposed, rows, from + 1) else from
  }

  lemma ConfirmedIs(proposed: seq<Token>, rows: seq<Row>, n: nat)
    requires 0 < n <= |proposed| == |rows|
    requires forall i | 0 < i < n :: proposed[i] == Argmax(rows[i - 1])
    requires n < |proposed| ==> proposed[n] != Argmax(rows[n - 1])
    ensures Confirmed(proposed, rows, 1) == n
  {
    var r := Confirmed(proposed, rows, 1);
  }

  /** How far the proposals follow the target's own choices, and what the target chooses next. */
  method Accept(first: Token, proposed: seq<Token>, rows: seq<Row>) returns (accepted: nat, correction: Token)
    requires 0 < |proposed| == |rows| && proposed[0] == first
    ensures 1 <= accepted <= |proposed|
    ensures forall i | 0 < i < accepted :: proposed[i] == Argmax(rows[i - 1])
    ensures accepted < |proposed| ==> proposed[accepted] != Argmax(rows[accepted - 1])
    ensures correction == Argmax(rows[accepted - 1])
  {
    accepted := 0;
    var expected := first;
    while accepted < |proposed| && proposed[accepted] == expected
      invariant 0 <= accepted <= |proposed|
      invariant forall i | 0 < i < accepted :: proposed[i] == Argmax(rows[i - 1])
      invariant accepted < |proposed| ==> expected == if accepted == 0 then first else Argmax(rows[accepted - 1])
    {
      accepted := accepted + 1;
      if accepted < |proposed| {
        expected := ArgmaxLoop(rows[accepted - 1]);
      }
    }
    correction := ArgmaxLoop(rows[accepted - 1]);
  }

  // ---------------------------------------------------------------- commit

  /** The tokens to commit. */
  function Committed(m: Model, proposed: seq<Token>, accepted: nat, correction: Token, maxTokens: nat, room: nat)
      : seq<Token>
    requires 1 <= accepted <= |proposed|
  {
    proposed[..accepted] +
    if accepted < maxTokens && accepted < room && proposed[accepted - 1] !in m.eos then [correction] else []
  }

  /** Verified proposals, cut at the first rejection and extended by the correction, are the
      target's greedy continuation. */
  lemma CommitIsGreedy(m: Model, v: StateView, logits: Row, proposed: seq<Token>, accepted: nat, maxTokens: nat)
    requires ForwardTokens(m, v, proposed, true).Some?
    requires 1 <= accepted <= |proposed| && proposed[0] == Argmax(logits)
    requires var rows := ForwardTokens(m, v, proposed, true).value.1.logits;
             forall i | 0 < i < accepted :: proposed[i] == Argmax(rows[i - 1])
    requires v.len <= v.maxContext
    requires var rows := ForwardTokens(m, v, proposed, true).value.1.logits;
             ForwardTokens(m, v, Committed(m, proposed, accepted, Argmax(rows[accepted - 1]), maxTokens,
                 v.maxContext - v.len), false).Some?
    ensures var rows := ForwardTokens(m, v, proposed, true).value.1.logits;
            var tokens := Committed(m, proposed, accepted, Argmax(rows[accepted - 1]), maxTokens, v.maxContext - v.len);
            var (v', out) := ForwardTokens(m, v, tokens, false).value;
            GreedyDecode(m, v, logits, |tokens|) == Some(GreedyRun(v', out.logits[0], tokens))
  {
    hide ForwardTokens, Forwarded, GreedyDecode, Argmax;
    var rows := ForwardTokens(m, v, proposed, true).value.1.logits;
    var front, tail := proposed[..accepted], proposed[accepted..];
    assert front + tail == proposed;
    AcceptedPrefix(m, v, proposed, accepted);
    var part := ForwardTokens(m, v, front, true).value;
    VerifiedIsGreedy(m, v, logits, front);
    Chunks.TextLastRow(m, v, front);
    var tokens := Committed(m, proposed, accepted, Argmax(rows[accepted - 1]), maxTokens, v.maxContext - v.len);
    if |tokens| == accepted {
      assert tokens == front;
    } else {
      var correction := [Argmax(rows[accepted - 1])];
      assert tokens == front + correction;
      Chunks.TextSecondOfWhole(m, v, front, correction);
      Chunks.TextTwoLast(m, v, front, correction);
      GreedyOne(m, v, logits, accepted, GreedyRun(part.0, part.1.logits[accepted - 1], front), correction[0]);
    }
  }

  lemma AcceptedPrefix(m: Model, v: StateView, proposed: seq<Token>, accepted: nat)
    requires ForwardTokens(m, v, proposed, true).Some? && 1 <= accepted <= |proposed|
    ensures ForwardTokens(m, v, proposed[..accepted], true).Some?
    ensures ForwardTokens(m, v, proposed[..accepted], true).value.1.logits ==
            ForwardTokens(m, v, proposed, true).value.1.logits[..accepted]
  {
    hide ForwardTokens, Forwarded;
    var front, tail := proposed[..accepted], proposed[accepted..];
    assert front + tail == proposed;
    if |tail| == 0 {
      assert front == proposed;
    } else {
      Chunks.TextTwoAll(m, v, front, tail);
    }
  }

  function Truncated(s: seq<Token>, n: nat): seq<Token> {
    if |s| > n then s[..n] else s
  }

  predicate RoundOk(target: Model, ts: StateView, ms: MtpView, logits: Row, maxTokens: nat, policy: Policy) {
    && policy.Validates(target.vocab) && |logits| == target.vocab && 0 < maxTokens
    && 0 < ts.len < ts.maxContext && |ts.lastHidden| == target.hidden
    && ts.maxContext == ms.sequence.maxContext
  }

  /** What verification establishes before anything is committed. */
  ghost predicate Plans(m: Model, v: StateView, logits: Row, maxTokens: nat, tokens: seq<Token>, accepted: nat,
      proposed: nat)
  {
    && 1 <= |tokens| <= maxTokens && v.len + |tokens| <= v.maxContext
    && (forall i | 0 <= i < |tokens| - 1 :: tokens[i] !in m.eos)
    && 1 <= accepted <= proposed
    && (|tokens| == accepted || |tokens| == accepted + 1)
    && (|tokens| == accepted ==>
          accepted == maxTokens || v.len + accepted == v.maxContext || tokens[accepted - 1] in m.eos)
    && (ForwardTokens(m, v, tokens, false).Some? ==>
          var (v', out) := ForwardTokens(m, v, tokens, false).value;
          GreedyDecode(m, v, logits, |tokens|) == Some(GreedyRun(v', out.logits[0], tokens)))
  }

  lemma CommittedShape(m: Model, proposed: seq<Token>, accepted: nat, correction: Token, maxTokens: nat, room: nat,
      budget: nat)
    requires 1 <= accepted <= |proposed| && WellProposed(m, proposed[0], budget, proposed)
    requires 1 <= budget <= maxTokens && budget <= room
    ensures var tokens := Committed(m, proposed, accepted, correction, maxTokens, room);
            && accepted <= |tokens| <= accepted + 1 && 1 <= |tokens| <= maxTokens && |tokens| <= room
            && (forall i | 0 <= i < |tokens| - 1 :: tokens[i] !in m.eos)
            && (|tokens| == accepted ==> accepted == maxTokens || accepted == room || tokens[accepted - 1] in m.eos)
  {
  }

  /** What a round chooses to commit, how many proposals were accepted and how many were made. */
  datatype Choice = Choice(tokens: seq<Token>, accepted: nat, proposed: nat)

  /** Verification of the proposals and the choice of what to commit. */
  function Chosen(target: Model, ts: StateView, proposed: seq<Token>, maxTokens: nat): (r: Option<Choice>)
    requires 0 < |proposed| && ts.len <= ts.maxContext
    ensures r.Some? ==> r.value.proposed == |proposed|
  {
    var (v, verified) :- ForwardTokens(target, ts, proposed, true);
    var accepted := Confirmed(proposed, verified.logits, 1);
    var correction := Argmax(verified.logits[accepted - 1]);
    Some(Choice(Committed(target, proposed, accepted, correction, maxTokens, ts.maxContext - ts.len), accepted,
                |proposed|))
  }

  /** Drafting and verification: fails exactly when the round is not allowed, there is nothing to seed the
      draft from, a draft step fails, or the target fails on the proposals. */
  function Prepared(target: Model, mtp: MtpModel, ts: StateView, ms: MtpView, logits: Row, maxTokens: nat,
      activeCount: nat, policy: Policy)
    : Option<Choice>
  {
    if !RoundOk(target, ts, ms, logits, maxTokens, policy) then None
    else
      var seeded :- Seeded(mtp, ms, ts);
      var budget := RoundBudget(policy, maxTokens, activeCount, ts.maxContext - ts.len);
      var proposed :- Drafts(target, mtp, seeded, Argmax(logits), budget, policy.draftVocab);
      Chosen(target, ts, proposed, maxTokens)
  }

  /** A whole round: the states after it and what it publishes. */
  function RoundOf(target: Model, mtp: MtpModel, ts: StateView, ms: MtpView, logits: Row, maxTokens: nat,
      activeCount: nat, policy: Policy)
    : Option<(StateView, MtpView, Round)>
  {
    var choice :- Prepared(target, mtp, ts, ms, logits, maxTokens, activeCount, policy);
    var seeded :- Seeded(mtp, ms, ts);
    var (ts', out) :- ForwardTokens(target, ts, choice.tokens, false);
    var ms' :- Replayed(mtp, target, seeded, choice.tokens, out.hidden);
    Some((ts', ms', Round(choice.tokens, out.logits[0], choice.accepted, choice.proposed)))
  }

  /** Verification on a copy, and the choice of what to commit.  Neither of the two truncations nor
      the empty-commit fallback ever changes the tokens. */
  method Plan(target: Model, before: SequenceState, nextLogits: Row, first: Token, proposed: seq<Token>, maxTokens: nat,
      budget: nat)
    returns (r: Option<(seq<Token>, nat)>)
    requires before.len < before.maxContext && first == Argmax(nextLogits)
    requires 1 <= budget <= maxTokens && before.len + budget <= before.maxContext
    requires WellProposed(target, first, budget, proposed)
    ensures match Chosen(target, before.View(), proposed, maxTokens)
            case None => r.None?
            case Some(c) => r == Some((c.tokens, c.accepted))
    ensures r.Some? ==> 0 < |r.value.0|
    ensures r.Some? ==> Plans(target, before.View(), nextLogits, maxTokens, r.value.0, r.value.1, |proposed|)
  {
    hide ForwardTokens, Forwarded, Confirmed, GreedyDecode, Argmax;
    var room := before.maxContext - before.len;
    var verifyState := before.Checkpoint();
    var verified :- ForwardText(target, proposed, verifyState, true);
    var accepted, correction := Accept(first, proposed, verified.logits);
    ConfirmedIs(proposed, verified.logits, accepted);
    var committed := Committed(target, proposed, accepted, correction, maxTokens, room);
    CommittedShape(target, proposed, accepted, correction, maxTokens, room, budget);
    ghost var chosen := committed;
    if |committed| == 0 {
      committed := [first];
    }
    committed := Truncated(Truncated(committed, maxTokens), room);
    assert committed == chosen;
    if ForwardTokens(target, before.View(), committed, false).Some? {
      CommitIsGreedy(target, before.View(), nextLogits, proposed, accepted, maxTokens);
    }
    r := Some((committed, accepted));
  }

  /** The draft has run exactly the committed tokens: the first with its tail, every later one with the
      hidden row the target gave the token before it. */
  ghost predicate Follows(target: Model, mtp: MtpModel, ts: StateView, seeded: MtpView, tokens: seq<Token>,
      ms': MtpView)
  {
    && 0 < |tokens| && ForwardTokens(target, ts, tokens, false).Some?
    && Replays(mtp, target, seeded, tokens, ForwardTokens(target, ts, tokens, false).value.1.hidden, ms')
  }

  /** The same for a round from `ms`, which is seeded first. */
  ghost predicate DraftReplays(target: Model, mtp: MtpModel, ts: StateView, ms: MtpView, tokens: seq<Token>,
                               ms': MtpView)
  {
    && Seeded(mtp, ms, ts).Some?
    && Follows(target, mtp, ts, Seeded(mtp, ms, ts).value, tokens, ms')
  }

  /** The re-run of the committed tokens from the checkpoints, on copies. */
  method Commit(target: Model, mtp: MtpModel, tokens: seq<Token>, targetBefore: SequenceState, seeded: MtpState)
    returns (r: Option<Row>)
    requires seeded.sequence != targetBefore
    modifies targetBefore, seeded
    ensures fresh(seeded.sequence) || seeded.sequence == old(seeded.sequence)
    ensures var run := ForwardTokens(target, old(targetBefore.View()), tokens, false);
            if run.None? then r.None?
            else match Replayed(mtp, target, old(seeded.View()), tokens, run.value.1.hidden)
              case None => r.None?
              case Some(ms) => r.Some? && seeded.View() == ms
    ensures r.Some? ==> ForwardTokens(target, old(targetBefore.View()), tokens, false).Some?
    ensures r.Some? ==> targetBefore.View() == ForwardTokens(target, old(targetBefore.View()), tokens, false).value.0
    ensures r.Some? ==> r.value == ForwardTokens(target, old(targetBefore.View()), tokens, false).value.1.logits[0]
    ensures r.Some? && 0 < |tokens| ==>
              Follows(target, mtp, old(targetBefore.View()), old(seeded.View()), tokens, seeded.View())
    ensures r.Some? && ValidMtp(mtp) && InLockstep(mtp, old(targetBefore.View()), old(seeded.View())) ==>
              InLockstep(mtp, targetBefore.View(), seeded.View())
  {
    hide ForwardTokens, Forwarded, Replayed, Replays;
    ghost var v0, s0 := targetBefore.View(), seeded.View();
    var output :- ForwardText(target, tokens, targetBefore, false);
    var replayed := Replay(mtp, target, tokens, output.hidden, seeded);
    if !replayed {
      return None;
    }
    if ValidMtp(mtp) && InLockstep(mtp, v0, s0) {
      ReplayKeepsAligned(mtp, target, s0, tokens, output.hidden);
      Chunks.TextAdvances(target, v0, tokens, false);
    }
    r := Some(output.logits[0]);
  }

  /** A round that is not seeded anew verifies the draft run of its budget from the target's first choice. */
  ghost predicate Proposes(target: Model, mtp: MtpModel, ts: StateView, ms: MtpView, logits: Row, maxTokens: nat,
      activeCount: nat,
                           policy: Policy, proposed: nat)
  {
    && 0 < maxTokens && ts.len < ts.maxContext
    && var drafts := Drafts(target, mtp, ms, Argmax(logits),
        RoundBudget(policy, maxTokens, activeCount, ts.maxContext - ts.len),
                            policy.draftVocab);
      drafts.Some? && |drafts.value| == proposed
  }

  /** Everything up to the choice of tokens; works on copies only. */
  method Prepare(target: Model, mtp: MtpModel, targetState: SequenceState, mtpState: MtpState,
                 nextLogits: Row, maxTokens: nat, activeCount: nat, policy: Policy)
    returns (r: Option<(seq<Token>, nat, nat)>, seeded: MtpState)
    ensures match Prepared(target, mtp, targetState.View(), mtpState.View(), nextLogits, maxTokens, activeCount, policy)
            case None => r.None?
            case Some(c) => r == Some((c.tokens, c.accepted, c.proposed))
    ensures r.Some? ==> fresh(seeded) && fresh(seeded.sequence)
    ensures r.Some? ==> Plans(target, targetState.View(), nextLogits, maxTokens, r.value.0, r.value.1, r.value.2)
    ensures r.Some? ==> 0 < |r.value.0|
    ensures r.Some? ==> Seeded(mtp, mtpState.View(), targetState.View()) == Some(seeded.View())
    ensures r.Some? && mtpState.tailHidden.Some? ==>
              && seeded.View() == mtpState.View()
              && Proposes(target, mtp, targetState.View(), mtpState.View(), nextLogits, maxTokens, activeCount, policy,
                  r.value.2)
  {
    hide ForwardTokens, Forwarded, GreedyDecode, Plans, Drafts, Chosen;
    seeded := mtpState;
    if !RoundOk(target, targetState.View(), mtpState.View(), nextLogits, maxTokens, policy) {
      return None, seeded;
    }
    var room := targetState.maxContext - targetState.len;
    var draft := mtpState.Checkpoint();
    var seededOk := SeedFromTarget(mtp, targetState, draft);
    if !seededOk {
      return None, seeded;
    }
    seeded := draft.Checkpoint();
    var budget := RoundBudget(policy, maxTokens, activeCount, room);
    var first := ArgmaxLoop(nextLogits);
    ghost var start := draft.View();
    var proposed := Propose(target, mtp, first, budget, policy, draft);
    if proposed.None? {
      return None, seeded;
    }
    DraftsWellProposed(target, mtp, start, first, budget, policy.draftVocab);
    var plan := Plan(target, targetState, nextLogits, first, proposed.value, maxTokens, budget);
    if plan.None? {
      return None, seeded;
    }
    r := Some((plan.value.0, plan.value.1, |proposed.value|));
  }

  lemma PlanCommits(m: Model, v: StateView, logits: Row, maxTokens: nat, tokens: seq<Token>, accepted: nat,
      proposed: nat, next: Row)
    requires Plans(m, v, logits, maxTokens, tokens, accepted, proposed)
    requires ForwardTokens(m, v, tokens, false).Some? && next == ForwardTokens(m, v, tokens, false).value.1.logits[0]
    ensures Commits(m, v, logits, maxTokens, ForwardTokens(m, v, tokens, false).value.0,
            Round(tokens, next, accepted, proposed))
  {
    hide ForwardTokens, GreedyDecode;
  }

  /** One transaction: on any error both states are untouched. */
  method DecodeRound(target: Model, mtp: MtpModel, targetState: SequenceState, mtpState: MtpState,
                     nextLogits: Row, maxTokens: nat, activeCount: nat, policy: Policy) returns (r: Option<Round>)
    requires mtpState.sequence != targetState
    modifies targetState, mtpState
    ensures fresh(mtpState.sequence) || mtpState.sequence == old(mtpState.sequence)
    ensures match RoundOf(target, mtp, old(targetState.View()), old(mtpState.View()), nextLogits, maxTokens,
                          activeCount, policy)
            case None => r.None?
            case Some(x) => targetState.View() == x.0 && mtpState.View() == x.1 && r == Some(x.2)
    ensures r.None? ==> targetState.View() == old(targetState.View()) && mtpState.View() == old(mtpState.View())
    ensures r.Some? ==> Commits(target, old(targetState.View()), nextLogits, maxTokens, targetState.View(), r.value)
    ensures r.Some? ==> DraftReplays(target, mtp, old(targetState.View()), old(mtpState.View()), r.value.tokens,
                                     mtpState.View())
    ensures r.Some? && InLockstep(mtp, old(targetState.View()), old(mtpState.View())) ==>
              && Proposes(target, mtp, old(targetState.View()), old(mtpState.View()), nextLogits, maxTokens,
                  activeCount, policy,
                          r.value.proposed)
              && (ValidMtp(mtp) ==> InLockstep(mtp, targetState.View(), mtpState.View()))
  {
    hide ForwardTokens, Forwarded, GreedyDecode, Plans, Commits, Proposes, Follows, Prepared, Replayed;
    ghost var v0 := targetState.View();
    var plan, seeded := Prepare(target, mtp, targetState, mtpState, nextLogits, maxTokens, activeCount, policy);
    if plan.None? {
      return None;
    }
    var tokens, accepted, proposed := plan.value.0, plan.value.1, plan.value.2;
    var committed := targetState.Checkpoint();
    var logits :- Commit(target, mtp, tokens, committed, seeded);
    PlanCommits(target, v0, nextLogits, maxTokens, tokens, accepted, proposed, logits);
    targetState.Become(committed);
    mtpState.sequence := seeded.sequence;
    mtpState.tailHidden, mtpState.tailPosition, mtpState.lastLogits := seeded.tailHidden, seeded.tailPosition,
        seeded.lastLogits;
    r := Some(Round(tokens, logits, accepted, proposed));
  }
}
