/** The prefix cache (src/engine/scheduler.rs, `PrefixCache`): prefilled states by prompt, evicted
    least recently used first, within a byte budget. */
module PrefixCache {
  import opened Wrappers
  import opened Network
  import opened Forward
  import Chunks

  datatype Prefix = Prefix(tokens: seq<Token>, state: StateView, logits: Row, bytes: nat)

  // ---------------------------------------------------------------- what an entry means

  /** `state` and `logits` are those of prefilling `tokens` from the empty state `start`. */
  ghost predicate PrefilledAt(m: Model, start: StateView, tokens: seq<Token>, state: StateView, logits: Row) {
    && ForwardTokens(m, start, tokens, false).Some?
    && ForwardTokens(m, start, tokens, false).value.0 == state
    && ForwardTokens(m, start, tokens, false).value.1.logits == [logits]
  }

  /** Prefilling the rest of a prompt on top of a prefilled prefix prefills the prompt. */
  lemma PrefillExtends(m: Model, start: StateView, done: seq<Token>, state: StateView, logits: Row, more: seq<Token>)
    requires PrefilledAt(m, start, done, state, logits) && ForwardTokens(m, state, more, false).Some?
    ensures var (state', out) := ForwardTokens(m, state, more, false).value;
            PrefilledAt(m, start, done + more, state', out.logits[0])
  {
    hide ForwardTokens, Forwarded;
    Chunks.TextAdvances(m, start, done, false);
    Chunks.TextAdvances(m, state, more, false);
    Chunks.TextTwoLast(m, start, done, more);
    OneLogitsRow(m, state, more);
  }

  lemma OneLogitsRow(m: Model, v: StateView, tokens: seq<Token>)
    requires ForwardTokens(m, v, tokens, false).Some?
    ensures |ForwardTokens(m, v, tokens, false).value.1.logits| == 1
  {
  }

  /** A whole prefill in chunks, from nothing or from a cached prefix. */
  ghost predicate PrefillPath(m: Model, state: StateView, chunks: seq<seq<Token>>, end: StateView, logits: Row)
    decreases |chunks|
  {
    0 < |chunks| && ForwardTokens(m, state, chunks[0], false).Some? &&
    var (next, out) := ForwardTokens(m, state, chunks[0], false).value;
    if |chunks| == 1 then end == next && [logits] == out.logits
    else PrefillPath(m, next, chunks[1..], end, logits)
  }

  function Flat(chunks: seq<seq<Token>>): seq<Token> {
    if |chunks| == 0 then [] else chunks[0] + Flat(chunks[1..])
  }

  lemma {:induction false} PathPrefills(m: Model, start: StateView, done: seq<Token>, state: StateView,
      chunks: seq<seq<Token>>, end: StateView, logits: Row)
    requires PrefillPath(m, state, chunks, end, logits)
    requires (done == [] && state == start) || exists l :: PrefilledAt(m, start, done, state, l)
    ensures PrefilledAt(m, start, done + Flat(chunks), end, logits)
    decreases |chunks|
  {
    hide ForwardTokens, Forwarded;
    var (next, out) := ForwardTokens(m, state, chunks[0], false).value;
    OneLogitsRow(m, state, chunks[0]);
    var l := out.logits[0];
    if done == [] && state == start {
      assert [] + chunks[0] == chunks[0];
      assert PrefilledAt(m, start, done + chunks[0], next, l);
    } else {
      var before :| PrefilledAt(m, start, done, state, before);
      PrefillExtends(m, start, done, state, before, chunks[0]);
    }
    assert (done + chunks[0]) + Flat(chunks[1..]) == done + Flat(chunks);
    if |chunks| == 1 {
      assert chunks[1..] == [] && done + Flat(chunks) == done + chunks[0];
    } else {
      PathPrefills(m, start, done + chunks[0], next, chunks[1..], end, logits);
    }
  }

  /** Resuming from a cached prefix and prefilling from nothing, with whatever chunk sizes, end in
      the same state with the same logits. */
  lemma ResumeEqualsScratch(m: Model, start: StateView, hit: Prefix, rest: seq<seq<Token>>, end: StateView, logits: Row,
                            chunks: seq<seq<Token>>, end': StateView, logits': Row)
    requires PrefilledAt(m, start, hit.tokens, hit.state, hit.logits)
    requires if |rest| == 0 then end == hit.state && logits == hit.logits
             else PrefillPath(m, hit.state, rest, end, logits)
    requires PrefillPath(m, start, chunks, end', logits')
    requires hit.tokens + Flat(rest) == Flat(chunks)
    ensures end == end' && logits == logits'
  {
    hide ForwardTokens, Forwarded;
    PathPrefills(m, start, [], start, chunks, end', logits');
    assert [] + Flat(chunks) == Flat(chunks);
    if |rest| == 0 {
      assert hit.tokens + Flat(rest) == hit.tokens;
    } else {
      PathPrefills(m, start, hit.tokens, hit.state, rest, end, logits);
    }
  }

  // ---------------------------------------------------------------- bytes

  function Bytes(entries: seq<Prefix>): nat {
    if |entries| == 0 then 0 else entries[0].bytes + Bytes(entries[1..])
  }

  lemma {:induction false} BytesPlus(a: seq<Prefix>, b: seq<Prefix>)
    ensures Bytes(a + b) == Bytes(a) + Bytes(b)
    decreases |a|
  {
    if |a| == 0 {
      assert a + b == b;
    } else {
      assert (a + b)[1..] == a[1..] + b;
      BytesPlus(a[1..], b);
    }
  }

  lemma BytesOne(e: Prefix)
    ensures Bytes([e]) == e.bytes
  {
  }

  function Without(entries: seq<Prefix>, i: nat): seq<Prefix>
    requires i < |entries|
  {
    entries[..i] + entries[i + 1..]
  }

  lemma BytesWithout(entries: seq<Prefix>, i: nat)
    requires i < |entries|
    ensures Bytes(entries) == Bytes(Without(entries, i)) + entries[i].bytes
  {
    BytesPlus(entries[..i], entries[i + 1..]);
    BytesPlus(entries[..i], entries[i..]);
    assert entries == entries[..i] + entries[i..];
    assert entries[i..][0] == entries[i] && entries[i..][1..] == entries[i + 1..];
  }

  ghost predicate Distinct(entries: seq<Prefix>) {
    forall i, j | 0 <= i < j < |entries| :: entries[i].tokens != entries[j].tokens
  }

  predicate Matches(e: Prefix, tokens: seq<Token>) {
    e.tokens <= tokens
  }

  /** The entries once the old entry for `tokens`, if any, is dropped. */
  ghost predicate Dropped(before: seq<Prefix>, tokens: seq<Token>, after: seq<Prefix>) {
    if exists i :: 0 <= i < |before| && before[i].tokens == tokens
    then exists i :: 0 <= i < |before| && before[i].tokens == tokens && after == Without(before, i)
    else after == before
  }

  /** Moving an entry to the end keeps keys distinct and the total size. */
  lemma MovedLast(entries: seq<Prefix>, i: nat)
    requires i < |entries| && Distinct(entries)
    ensures var after := Without(entries, i) + [entries[i]];
            Distinct(after) && Bytes(after) == Bytes(entries)
  {
    hide Bytes;
    var after := Without(entries, i) + [entries[i]];
    BytesWithout(entries, i);
    BytesPlus(Without(entries, i), [entries[i]]);
    BytesOne(entries[i]);
    forall j, k | 0 <= j < k < |after| ensures after[j].tokens != after[k].tokens {
      var x, y := if j < i then j else j + 1, if k < i then k else k + 1;
      assert after[j] == entries[x];
      assert k < |after| - 1 ==> after[k] == entries[y];
    }
  }

  /** The new entry comes last; its old version is dropped, then `evicted` entries from the front, the last
      of them because the rest and the new entry did not fit. */
  ghost predicate Stored(before: seq<Prefix>, entry: Prefix, capacity: nat, kept: seq<Prefix>, evicted: nat,
      after: seq<Prefix>)
  {
    && Dropped(before, entry.tokens, kept) && evicted <= |kept| && after == kept[evicted..] + [entry]
    && (0 < evicted ==> Bytes(kept[evicted - 1..]) + entry.bytes > capacity)
  }

  /** What an insertion does: an entry larger than the whole cache changes nothing. */
  ghost predicate Inserted(before: seq<Prefix>, tokens: seq<Token>, state: StateView, logits: Row, residentBytes: nat,
      capacity: nat, after: seq<Prefix>)
  {
    var entry := Prefix(tokens, state, logits, residentBytes + (|tokens| + |logits|) * 4);
    if entry.bytes > capacity then after == before
    else exists kept: seq<Prefix>, evicted: nat :: Stored(before, entry, capacity, kept, evicted, after)
  }

  class Cache {
    var entries: seq<Prefix>
    var used: nat
    const capacity: nat

    ghost predicate Valid()
      reads this
    {
      used == Bytes(entries) <= capacity && Distinct(entries)
    }

    /** Every entry holds what prefilling its tokens gives. */
    ghost predicate Faithful(m: Model, start: StateView)
      reads this
    {
      forall e | e in entries :: PrefilledAt(m, start, e.tokens, e.state, e.logits)
    }

    constructor (capacity: nat)
      ensures Valid() && entries == [] && this.capacity == capacity
    {
      entries, used := [], 0;
      this.capacity := capacity;
    }

    /** The longest stored prefix of `tokens`, which also becomes the most recently used entry. */
    method Lookup(tokens: seq<Token>) returns (r: Option<Prefix>)
      requires Valid()
      modifies this
      ensures Valid()
      ensures forall e | e in entries :: e in old(entries)
      ensures r.None? ==> entries == old(entries) && forall e | e in old(entries) :: !Matches(e, tokens)
      ensures r.Some? ==>
                && r.value in old(entries) && Matches(r.value, tokens)
                && (forall e | e in old(entries) && Matches(e, tokens) :: |e.tokens| <= |r.value.tokens|)
                && exists i ::
                    0 <= i < |old(entries)| && old(entries)[i] == r.value &&
                    entries == Without(old(entries), i) + [r.value]
    {
      var best: Option<nat> := None;
      for i := 0 to |entries|
        invariant entries == old(entries)
        invariant best.Some? ==> best.value < i && Matches(entries[best.value], tokens)
        invariant forall j | 0 <= j < i && Matches(entries[j], tokens) ::
                  best.Some? && |entries[j].tokens| <= |entries[best.value].tokens|
      {
        if Matches(entries[i], tokens) && (best.None? || |entries[i].tokens| >= |entries[best.value].tokens|) {
          best := Some(i);
        }
      }
      if best.None? {
        return None;
      }
      var entry := entries[best.value];
      MovedLast(entries, best.value);
      entries := Without(entries, best.value) + [entry];
      r := Some(entry);
    }

    /** Drops the entry stored for exactly these tokens. */
    method Drop(tokens: seq<Token>)
      requires Valid()
      modifies this
      ensures Valid() && Dropped(old(entries), tokens, entries)
      ensures forall e | e in entries :: e in old(entries) && e.tokens != tokens
    {
      for i := 0 to |entries|
        invariant entries == old(entries) && used == old(used)
        invariant forall j | 0 <= j < i :: entries[j].tokens != tokens
      {
        if entries[i].tokens == tokens {
          BytesWithout(entries, i);
          used := used - entries[i].bytes;
          entries := Without(entries, i);
          assert entries == Without(old(entries), i);
          return;
        }
      }
    }

    /** Pops entries from the front until `bytes` more fit. */
    method Evict(bytes: nat) returns (ghost evicted: nat)
      requires Valid() && bytes <= capacity
      modifies this
      ensures used == Bytes(entries) && used + bytes <= capacity
      ensures evicted <= |old(entries)| && entries == old(entries)[evicted..]
      ensures 0 < evicted ==> Bytes(old(entries)[evicted - 1..]) + bytes > capacity
    {
      evicted := 0;
      while used > capacity - bytes
        invariant evicted <= |old(entries)| && entries == old(entries)[evicted..] && used == Bytes(entries) <= capacity
        invariant 0 < evicted ==> Bytes(old(entries)[evicted - 1..]) + bytes > capacity
        decreases |entries|
      {
        if |entries| == 0 {
          break;
        }
        used := used - entries[0].bytes;
        entries := entries[1..];
        evicted := evicted + 1;
      }
    }

    /** Stores a prefilled prompt; evicts the least recently used entries, and no more of them than
        the byte budget requires. */
    method Insert(tokens: seq<Token>, state: StateView, logits: Row, residentBytes: nat)
      requires Valid()
      modifies this
      ensures Valid()
      ensures Inserted(old(entries), tokens, state, logits, residentBytes, capacity, entries)
      ensures forall e | e in entries ::
              e in old(entries) || (e.tokens == tokens && e.state == state && e.logits == logits)
    {
      hide Stored, Bytes, Distinct;
      var bytes := residentBytes + (|tokens| + |logits|) * 4;
      if bytes > capacity {
        return;
      }
      ghost var kept, evicted := Replace(Prefix(tokens, state, logits, bytes));
    }

    /** Drops the old version, evicts and appends. */
    method Replace(entry: Prefix) returns (ghost kept: seq<Prefix>, ghost evicted: nat)
      requires Valid() && entry.bytes <= capacity
      modifies this
      ensures Valid() && Stored(old(entries), entry, capacity, kept, evicted, entries)
      ensures forall e | e in entries :: e in old(entries) || e == entry
    {
      hide Bytes;
      Drop(entry.tokens);
      kept := entries;
      evicted := Evict(entry.bytes);
      assert forall e | e in entries :: e in kept;
      assert Distinct(entries);
      Push(entry);
    }

    /** Appends an entry that fits. */
    method Push(entry: Prefix)
      requires used == Bytes(entries) && used + entry.bytes <= capacity
      requires Distinct(entries) && forall e | e in entries :: e.tokens != entry.tokens
      modifies this`entries, this`used
      ensures Valid() && entries == old(entries) + [entry]
    {
      hide Bytes;
      BytesPlus(entries, [entry]);
      BytesOne(entry);
      entries := entries + [entry];
      used := used + entry.bytes;
    }
  }
}
