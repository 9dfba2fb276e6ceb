/** `ThinkingController` (src/frontend/mod.rs): tracks thinking sections in the generated tokens
    with a bounded window, and asks for the end marker when the budget is used up. */
module Thinking {
  import opened Wrappers

  type Token = nat

  datatype ThinkingSpec = ThinkingSpec(
    supported: bool, enabled: bool, budget: Option<nat>, startTokens: seq<Token>, endTokens: seq<Token>,
    initiallyInThinking: bool)
  {
    predicate Active() {
      supported && enabled
    }

    function Window(): nat {
      if |startTokens| < |endTokens| then |endTokens| else |startTokens|
    }
  }

  datatype Action = Disabled | Continue | Entered | Exited | ForceClose(endTokens: seq<Token>)

  datatype ControllerView = ControllerView(inThinking: bool, used: nat, forced: bool, recent: seq<Token>)

  predicate EndsWith(s: seq<Token>, suffix: seq<Token>) {
    |suffix| > 0 && |s| >= |suffix| && s[|s| - |suffix|..] == suffix
  }

  function Suffix(s: seq<Token>, n: nat): seq<Token> {
    if |s| > n then s[|s| - n..] else s
  }

  // ---------------------------------------------------------------- the controller

  function Initial(spec: ThinkingSpec): ControllerView {
    ControllerView(spec.Active() && spec.initiallyInThinking, 0, false, [])
  }

  function CloseRequested(spec: ThinkingSpec, v: ControllerView): bool {
    spec.Active() && v.inThinking && !v.forced && spec.budget.Some? && v.used >= spec.budget.value
  }

  function Observed(spec: ThinkingSpec, v: ControllerView, token: Token): (ControllerView, Action) {
    if !spec.Active() then (v, Disabled)
    else
      var recent := Suffix(v.recent + [token], spec.Window());
      if !v.inThinking && EndsWith(recent, spec.startTokens) then
        (ControllerView(true, 0, false, recent), Entered)
      else if v.inThinking && EndsWith(recent, spec.endTokens) then
        (ControllerView(false, v.used, v.forced, recent), Exited)
      else if v.inThinking then
        if !v.forced && spec.budget.Some? && v.used + 1 >= spec.budget.value then
          (ControllerView(true, v.used + 1, true, recent), ForceClose(spec.endTokens))
        else (ControllerView(true, v.used + 1, v.forced, recent), Continue)
      else (ControllerView(false, v.used, v.forced, recent), Continue)
  }

  class ThinkingController {
    const spec: ThinkingSpec
    var inThinking: bool
    var used: nat
    var forced: bool
    var recent: seq<Token>

    function View(): ControllerView
      reads this
    {
      ControllerView(inThinking, used, forced, recent)
    }

    constructor (spec: ThinkingSpec)
      ensures this.spec == spec && View() == Initial(spec)
    {
      this.spec := spec;
      inThinking := spec.supported && spec.enabled && spec.initiallyInThinking;
      used, forced, recent := 0, false, [];
    }

    /** `before_step` and `take_force_close`: asks for the end marker once. */
    method TakeForceClose() returns (tokens: Option<seq<Token>>)
      modifies this
      ensures tokens == if CloseRequested(spec, old(View())) then Some(spec.endTokens) else None
      ensures View() == old(View()).(forced := old(forced) || CloseRequested(spec, old(View())))
    {
      tokens := None;
      if spec.supported && spec.enabled {
        if inThinking && !forced && spec.budget.Some? && used >= spec.budget.value {
          forced := true;
          tokens := Some(spec.endTokens);
        }
      }
    }

    method Observe(token: Token) returns (action: Action)
      modifies this
      ensures (View(), action) == Observed(spec, old(View()), token)
    {
      hide EndsWith;
      if !spec.supported || !spec.enabled {
        return Disabled;
      }
      var maxLen := spec.Window();
      recent := recent + [token];
      if |recent| > maxLen {
        recent := recent[|recent| - maxLen..];
      }
      if !inThinking && EndsWith(recent, spec.startTokens) {
        inThinking, used, forced := true, 0, false;
        return Entered;
      }
      if inThinking && EndsWith(recent, spec.endTokens) {
        inThinking := false;
        return Exited;
      }
      if inThinking {
        used := used + 1;
        if !forced && spec.budget.Some? && used >= spec.budget.value {
          forced := true;
          return ForceClose(spec.endTokens);
        }
      }
      action := Continue;
    }
  }

  // ---------------------------------------------------------------- reading the published tokens

  /** Whether a thinking section is open after all of `tokens`, read from the whole text. */
  function Open(spec: ThinkingSpec, tokens: seq<Token>): bool {
    if |tokens| == 0 then spec.initiallyInThinking
    else
      var before := Open(spec, tokens[..|tokens| - 1]);
      if before then !EndsWith(tokens, spec.endTokens) else EndsWith(tokens, spec.startTokens)
  }

  /** Tokens since the current or just closed section opened, the closing token included. */
  function SinceOpen(spec: ThinkingSpec, tokens: seq<Token>): nat {
    if |tokens| == 0 then 0
    else
      var before := tokens[..|tokens| - 1];
      if Open(spec, before) then SinceOpen(spec, before) + 1 else 0
  }

  /** The controller's window and counters agree with a reading of the whole text. */
  ghost predicate Tracks(spec: ThinkingSpec, v: ControllerView, tokens: seq<Token>) {
    && v.inThinking == Open(spec, tokens)
    && v.recent == Suffix(tokens, spec.Window())
    && (v.inThinking ==> v.used == SinceOpen(spec, tokens))
  }

  lemma WindowSuffices(s: seq<Token>, n: nat, suffix: seq<Token>)
    requires |suffix| <= n
    ensures EndsWith(Suffix(s, n), suffix) <==> EndsWith(s, suffix)
  {
    if |s| > n && 0 < |suffix| {
      assert Suffix(s, n)[n - |suffix|..] == s[|s| - |suffix|..];
    }
  }

  lemma WindowSlides(s: seq<Token>, n: nat, t: Token)
    ensures Suffix(Suffix(s, n) + [t], n) == Suffix(s + [t], n)
  {
  }

  /** Observing a token keeps the controller in step with the text, whatever the token. */
  lemma ObserveTracks(spec: ThinkingSpec, v: ControllerView, tokens: seq<Token>, t: Token)
    requires spec.Active() && Tracks(spec, v, tokens)
    ensures Tracks(spec, Observed(spec, v, t).0, tokens + [t])
  {
    assert (tokens + [t])[..|tokens|] == tokens;
    WindowSlides(tokens, spec.Window(), t);
    WindowSuffices(tokens + [t], spec.Window(), spec.startTokens);
    WindowSuffices(tokens + [t], spec.Window(), spec.endTokens);
  }
}
