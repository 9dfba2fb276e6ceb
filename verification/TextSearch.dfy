/** Searching text for markers and stop strings (src/frontend/decoder.rs). */
module TextSearch {
  import opened Wrappers

  predicate Occurs(text: string, pat: string, i: nat) {
    i + |pat| <= |text| && text[i..i + |pat|] == pat
  }

  /** `str::find`: the first occurrence. */
  function Find(text: string, pat: string): (r: Option<nat>)
    ensures r.Some? ==> Occurs(text, pat, r.value) && forall j: nat | j < r.value :: !Occurs(text, pat, j)
    ensures r.None? ==> forall j: nat :: !Occurs(text, pat, j)
  {
    FindFrom(text, pat, 0)
  }

  function FindFrom(text: string, pat: string, i: nat): (r: Option<nat>)
    requires forall j: nat | j < i :: !Occurs(text, pat, j)
    ensures r.Some? ==> Occurs(text, pat, r.value) && forall j: nat | j < r.value :: !Occurs(text, pat, j)
    ensures r.None? ==> forall j: nat :: !Occurs(text, pat, j)
    decreases |text| - i
  {
    if i + |pat| > |text| then None
    else if Occurs(text, pat, i) then Some(i)
    else FindFrom(text, pat, i + 1)
  }

  /** The last `n` characters of `text` begin one of `pats`. */
  predicate Holds(text: string, pats: seq<string>, n: nat) {
    n <= |text| && exists k | 0 <= k < |pats| :: n <= |pats[k]| && text[|text| - n..] == pats[k][..n]
  }

  /** The longest end of `text` that begins one of `pats`. */
  function LongestHold(text: string, pats: seq<string>): (r: nat)
    ensures r <= |text|
    ensures r == 0 || Holds(text, pats, r)
    ensures forall n: nat | r < n <= |text| :: !Holds(text, pats, n)
  {
    HoldUpTo(text, pats, |text|)
  }

  function HoldUpTo(text: string, pats: seq<string>, n: nat): (r: nat)
    requires n <= |text| && forall k: nat | n < k <= |text| :: !Holds(text, pats, k)
    ensures r <= n
    ensures r == 0 || Holds(text, pats, r)
    ensures forall k: nat | r < k <= |text| :: !Holds(text, pats, k)
  {
    if n == 0 || Holds(text, pats, n) then n else HoldUpTo(text, pats, n - 1)
  }

  /** `longest_stop_prefix_suffix`: every length of every pattern. */
  method LongestStopPrefixSuffix(text: string, stops: seq<string>) returns (longest: nat)
    ensures longest == LongestHold(text, stops)
  {
    longest := 0;
    for k := 0 to |stops|
      invariant longest <= |text| && (longest == 0 || Holds(text, stops, longest))
      invariant forall j, n: nat | 0 <= j < k && longest < n <= |text| && n <= |stops[j]| ::
                text[|text| - n..] != stops[j][..n]
    {
      var stop := stops[k];
      var limit := if |text| < |stop| then |text| else |stop|;
      for length := 1 to limit + 1
        invariant longest <= |text| && (longest == 0 || Holds(text, stops, longest))
        invariant forall j, n: nat | 0 <= j < k && longest < n <= |text| && n <= |stops[j]| ::
                  text[|text| - n..] != stops[j][..n]
        invariant forall n: nat | longest < n < length :: text[|text| - n..] != stop[..n]
      {
        if text[|text| - length..] == stop[..length] {
          assert length <= |stops[k]| && text[|text| - length..] == stops[k][..length];
          longest := if longest < length then length else longest;
        }
      }
    }
    assert forall n: nat | longest < n <= |text| :: !Holds(text, stops, n);
  }

  // ---------------------------------------------------------------- occurrences across a cut

  /** An occurrence in `a + b` either ends inside `a`, or begins in `b`, or straddles the cut. */
  lemma OccursLeft(a: string, b: string, pat: string, i: nat)
    requires i + |pat| <= |a|
    ensures Occurs(a + b, pat, i) <==> Occurs(a, pat, i)
  {
    assert (a + b)[i..i + |pat|] == a[i..i + |pat|];
  }

  lemma OccursRight(a: string, b: string, pat: string, i: nat)
    requires |a| <= i
    ensures Occurs(a + b, pat, i) <==> Occurs(b, pat, i - |a|)
  {
    if i + |pat| <= |a + b| {
      assert (a + b)[i..i + |pat|] == b[i - |a|..i - |a| + |pat|];
    }
  }

  /** A straddling occurrence leaves its beginning at the end of `a`. */
  lemma StraddleHolds(a: string, b: string, pats: seq<string>, k: nat, i: nat)
    requires k < |pats| && i < |a| < i + |pats[k]| && Occurs(a + b, pats[k], i)
    ensures Holds(a, pats, |a| - i)
  {
    var n := |a| - i;
    assert a[|a| - n..] == (a + b)[i..i + |pats[k]|][..n] == pats[k][..n];
  }
}
