/** The two top-k selections of the engine sampler (src/engine/sampler.rs), for data without NaN. */
module TopK {
  /** The order of the selection: larger values first, and of equal values the smaller index. */
  predicate Better(data: seq<real>, i: nat, j: nat)
    requires i < |data| && j < |data|
  {
    data[i] > data[j] || (data[i] == data[j] && i < j)
  }

  ghost predicate Below(s: set<nat>, n: nat) {
    forall i | i in s :: i < n
  }

  /** `s` holds the `k` best of the first `n` indices. */
  ghost predicate Selects(data: seq<real>, n: nat, k: nat, s: set<nat>)
    requires n <= |data|
  {
    && Below(s, n) && |s| == (if k < n then k else n)
    && forall i, j | i in s && 0 <= j < n && j !in s :: Better(data, i, j)
  }

  /** The `k` best are the same set however they are found. */
  lemma SelectsUnique(data: seq<real>, n: nat, k: nat, s: set<nat>, t: set<nat>)
    requires n <= |data| && Selects(data, n, k, s) && Selects(data, n, k, t)
    ensures s == t
  {
    if !(s <= t) {
      var i :| i in s && i !in t;
      var j := NotAllIn(t, s);
      assert false;
    }
    SameSize(s, t);
  }

  lemma SameSize(s: set<nat>, t: set<nat>)
    requires s <= t && |s| == |t|
    ensures s == t
  {
    assert |t - s| == |t| - |s|;
  }

  lemma NotAllIn(t: set<nat>, s: set<nat>) returns (j: nat)
    requires !(s <= t) && |s| == |t|
    ensures j in t && j !in s
  {
    if t <= s {
      SameSize(t, s);
    }
    j :| j in t && j !in s;
  }

  // ---------------------------------------------------------------- one more index

  function UpTo(n: nat): (all: set<nat>)
    ensures |all| == n && forall i: nat :: i in all <==> i < n
  {
    if n == 0 then {} else UpTo(n - 1) + {n - 1}
  }

  lemma BelowAll(s: set<nat>, n: nat)
    requires Below(s, n) && |s| == n
    ensures s == UpTo(n)
  {
    SameSize(s, UpTo(n));
  }

  /** While fewer than `k` are kept, everything is kept. */
  lemma KeepAll(data: seq<real>, n: nat, k: nat, s: set<nat>)
    requires n < |data| && Selects(data, n, k, s) && |s| < k
    ensures Selects(data, n + 1, k, s + {n})
  {
    BelowAll(s, n);
  }

  /** The worst of a selection. */
  ghost predicate Worst(data: seq<real>, s: set<nat>, w: nat) {
    && Below(s, |data|) && w in s
    && forall i | i in s && i != w :: Better(data, i, w)
  }

  /** A new index that beats the worst replaces it. */
  lemma Replaces(data: seq<real>, n: nat, k: nat, s: set<nat>, w: nat)
    requires n < |data| && Selects(data, n, k, s) && |s| == k && Worst(data, s, w) && Better(data, n, w)
    ensures Selects(data, n + 1, k, s + {n} - {w})
  {
    var t := s + {n} - {w};
    assert |s + {n}| == k + 1 && |t| == k;
    forall i, j | i in t && 0 <= j < n + 1 && j !in t ensures Better(data, i, j) {
      if i == n && j != w {
        assert Better(data, w, j);
      }
    }
  }

  /** A new index that does not is dropped. */
  lemma Drops(data: seq<real>, n: nat, k: nat, s: set<nat>, w: nat)
    requires n < |data| && Selects(data, n, k, s) && |s| == k && Worst(data, s, w) && Better(data, w, n)
    ensures Selects(data, n + 1, k, s)
  {
    forall i, j | i in s && 0 <= j < n + 1 && j !in s ensures Better(data, i, j) {
      if j == n && i != w {
        assert Better(data, i, w);
      }
    }
  }

  // ---------------------------------------------------------------- the insertion list

  function Members(c: seq<nat>): set<nat> {
    set i | i in c
  }

  /** Best first. */
  ghost predicate Ordered(data: seq<real>, c: seq<nat>) {
    && (forall a | 0 <= a < |c| :: c[a] < |data|)
    && forall a, b | 0 <= a < b < |c| :: Better(data, c[a], c[b])
  }

  lemma {:induction false} OrderedSize(data: seq<real>, c: seq<nat>)
    requires Ordered(data, c)
    ensures |Members(c)| == |c|
  {
    if |c| > 0 {
      var n := |c| - 1;
      OrderedSize(data, c[..n]);
      assert c[n] !in c[..n];
      assert Members(c) == Members(c[..n]) + {c[n]};
    }
  }

  /** `insert_desc`: before the first candidate of a smaller value. */
  method InsertDesc(c: seq<nat>, idx: nat, data: seq<real>) returns (r: seq<nat>)
    requires Ordered(data, c) && idx < |data| && forall a | 0 <= a < |c| :: c[a] < idx
    ensures Ordered(data, r) && |r| == |c| + 1 && Members(r) == Members(c) + {idx}
    ensures |c| > 0 && data[idx] > data[c[|c| - 1]] ==> r[|c|] == c[|c| - 1]
  {
    var pos := 0;
    while pos < |c| && !(data[idx] > data[c[pos]])
      invariant pos <= |c| && forall a | 0 <= a < pos :: data[c[a]] >= data[idx]
    {
      pos := pos + 1;
    }
    r := c[..pos] + [idx] + c[pos..];
    InsertOrdered(data, c, pos, idx);
    InsertMembers(c, pos, idx);
  }

  lemma InsertOrdered(data: seq<real>, c: seq<nat>, pos: nat, idx: nat)
    requires Ordered(data, c) && idx < |data| && pos <= |c| && forall a | 0 <= a < |c| :: c[a] < idx
    requires forall a | 0 <= a < pos :: data[c[a]] >= data[idx]
    requires pos < |c| ==> data[idx] > data[c[pos]]
    ensures Ordered(data, c[..pos] + [idx] + c[pos..])
  {
    var r := c[..pos] + [idx] + c[pos..];
    forall b | pos <= b < |c| ensures data[idx] > data[c[b]] {
      assert b == pos || Better(data, c[pos], c[b]);
    }
    forall a, b | 0 <= a < b < |r| ensures Better(data, r[a], r[b]) {
      var x, y := if a < pos then a else a - 1, if b < pos then b else b - 1;
      if a != pos && b != pos {
        assert r[a] == c[x] && r[b] == c[y];
      }
    }
  }

  lemma InsertMembers(c: seq<nat>, pos: nat, idx: nat)
    requires pos <= |c|
    ensures Members(c[..pos] + [idx] + c[pos..]) == Members(c) + {idx}
  {
    assert c == c[..pos] + c[pos..];
  }

  method InsertionTopK(data: seq<real>, k: nat) returns (c: seq<nat>)
    requires 0 < k
    ensures Ordered(data, c) && Selects(data, |data|, k, Members(c)) && |c| == |Members(c)|
  {
    c := [];
    for i := 0 to |data|
      invariant Ordered(data, c) && Selects(data, i, k, Members(c)) && |c| == |Members(c)|
    {
      forall a | 0 <= a < |c| ensures c[a] < i { assert c[a] in Members(c); }
      ghost var s := Members(c);
      if |c| < k {
        KeepAll(data, i, k, s);
        c := InsertDesc(c, i, data);
      } else {
        ghost var w := c[|c| - 1];
        LastIsWorst(data, c);
        if data[i] > data[c[|c| - 1]] {
          Replaces(data, i, k, s, w);
          var longer := InsertDesc(c, i, data);
          PopLast(data, longer);
          c := longer[..|longer| - 1];
        } else {
          assert w in s;
          Drops(data, i, k, s, w);
        }
      }
      OrderedSize(data, c);
    }
  }

  lemma LastIsWorst(data: seq<real>, c: seq<nat>)
    requires Ordered(data, c) && 0 < |c|
    ensures Worst(data, Members(c), c[|c| - 1])
  {
    forall i | i in Members(c) ensures i < |data| && (i != c[|c| - 1] ==> Better(data, i, c[|c| - 1])) {
      var a :| 0 <= a < |c| && c[a] == i;
    }
  }

  lemma PopLast(data: seq<real>, c: seq<nat>)
    requires Ordered(data, c) && 0 < |c|
    ensures Ordered(data, c[..|c| - 1]) && Members(c[..|c| - 1]) == Members(c) - {c[|c| - 1]}
  {
    var n := |c| - 1;
    assert forall a | 0 <= a < n :: c[a] != c[n] by { assert forall a | 0 <= a < n :: Better(data, c[a], c[n]); }
    assert c == c[..n] + [c[n]];
  }

  // ---------------------------------------------------------------- the heap

  /** What `peek` on the heap of reversed candidates shows: its least candidate. */
  lemma {:induction false} HasWorst(data: seq<real>, s: set<nat>)
    requires Below(s, |data|) && s != {}
    ensures exists w :: Worst(data, s, w)
    decreases |s|
  {
    var x :| x in s;
    var rest := s - {x};
    if rest == {} {
      assert s == {x};
      assert Worst(data, s, x);
    } else {
      HasWorst(data, rest);
      var w :| Worst(data, rest, w);
      if Better(data, w, x) {
        forall i | i in s && i != x ensures Better(data, i, x) {
          assert i == w || Better(data, i, w);
        }
        assert Worst(data, s, x);
      } else {
        assert Worst(data, s, w);
      }
    }
  }

  lemma {:induction false} HasLargest(data: seq<real>, s: set<nat>)
    requires Below(s, |data|) && s != {}
    ensures exists x :: x in s && forall i | i in s :: data[i] <= data[x]
    decreases |s|
  {
    var y :| y in s;
    var rest := s - {y};
    if rest == {} {
      assert s == {y};
      assert y in s && forall i | i in s :: data[i] <= data[y];
    } else {
      HasLargest(data, rest);
      var x :| x in rest && forall i | i in rest :: data[i] <= data[x];
      if data[x] < data[y] {
        assert y in s && forall i | i in s :: data[i] <= data[y];
      } else {
        assert x in s && forall i | i in s :: data[i] <= data[x];
      }
    }
  }

  ghost predicate ByValue(data: seq<real>, c: seq<nat>) {
    && (forall a | 0 <= a < |c| :: c[a] < |data|)
    && (forall a, b | 0 <= a < b < |c| :: c[a] != c[b] && data[c[a]] >= data[c[b]])
  }

  /** No value still to come exceeds one already placed. */
  ghost predicate Leads(data: seq<real>, c: seq<nat>, rest: set<nat>) {
    && Below(rest, |data|) && ByValue(data, c) && Members(c) !! rest
    && forall a, i | 0 <= a < |c| && i in rest :: data[c[a]] >= data[i]
  }

  lemma NextLargest(data: seq<real>, c: seq<nat>, rest: set<nat>, x: nat)
    requires Leads(data, c, rest) && x in rest && forall i | i in rest :: data[i] <= data[x]
    ensures Leads(data, c + [x], rest - {x}) && Members(c + [x]) == Members(c) + {x}
  {
    forall a | 0 <= a < |c| ensures c[a] != x { assert c[a] in Members(c); }
    InsertMembers(c, |c|, x);
    assert c[..|c|] + [x] + c[|c|..] == c + [x];
  }

  /** `sort_unstable_by` value: equal values come out in no particular order. */
  method SortByValue(data: seq<real>, s: set<nat>) returns (c: seq<nat>)
    requires Below(s, |data|)
    ensures ByValue(data, c) && Members(c) == s && |c| == |s|
  {
    hide Leads, Members, ByValue;
    c := [];
    var rest := s;
    NothingPlaced(data, s);
    while rest != {}
      invariant Below(rest, |data|) && Leads(data, c, rest) && Members(c) + rest == s && |c| + |rest| == |s|
      decreases |rest|
    {
      HasLargest(data, rest);
      var x :| x in rest && forall i | i in rest :: data[i] <= data[x];
      NextLargest(data, c, rest, x);
      c := c + [x];
      rest := rest - {x};
    }
    AllPlaced(data, c);
  }

  lemma NothingPlaced(data: seq<real>, s: set<nat>)
    requires Below(s, |data|)
    ensures Leads(data, [], s) && Members([]) == {}
  {
  }

  lemma AllPlaced(data: seq<real>, c: seq<nat>)
    requires Leads(data, c, {})
    ensures ByValue(data, c)
  {
  }

  /** The heap is a library structure, here the set of its candidates' indices. */
  method HeapTopK(data: seq<real>, k: nat) returns (c: seq<nat>)
    requires 0 < k
    ensures ByValue(data, c) && Selects(data, |data|, k, Members(c)) && |c| == |Members(c)|
  {
    var heap: set<nat> := {};
    for i := 0 to |data|
      invariant Selects(data, i, k, heap)
    {
      if |heap| < k {
        KeepAll(data, i, k, heap);
        heap := heap + {i};
      } else {
        HasWorst(data, heap);
        var least :| least in heap && forall j | j in heap && j != least :: Better(data, j, least);
        if Better(data, i, least) {
          Replaces(data, i, k, heap, least);
          heap := heap + {i} - {least};
        } else {
          Drops(data, i, k, heap, least);
        }
      }
    }
    c := SortByValue(data, heap);
  }

  /** `top_k_indices`: short lists by insertion, long ones by heap. */
  method TopKIndices(data: seq<real>, k: nat) returns (c: seq<nat>)
    ensures ByValue(data, c) && Selects(data, |data|, k, Members(c)) && |c| == |Members(c)|
    ensures k <= 64 ==> Ordered(data, c)
  {
    if k == 0 {
      return [];
    }
    if k > 64 {
      c := HeapTopK(data, k);
    } else {
      c := InsertionTopK(data, k);
    }
  }

  /** Both forms keep the same candidates; the insertion form is the one order best first. */
  lemma FormsAgree(data: seq<real>, k: nat, list: seq<nat>, heap: seq<nat>)
    requires Ordered(data, list) && Selects(data, |data|, k, Members(list))
    requires ByValue(data, heap) && Selects(data, |data|, k, Members(heap))
    ensures Members(list) == Members(heap) && ByValue(data, list)
    ensures (forall a, b | 0 <= a < b < |heap| :: data[heap[a]] != data[heap[b]]) ==> Ordered(data, heap)
  {
    SelectsUnique(data, |data|, k, Members(list), Members(heap));
  }
}
