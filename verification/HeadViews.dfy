/** Head permutation of the GDN value heads (src/model/gguf.rs) and lazy row and column views
    (src/artifact/mod.rs). */
module HeadViews {
  import opened Nonlinear
  import opened Wrappers

  // ---------------------------------------------------------------- grouped and tiled head order

  /** Where the tile-major writer puts logical head `h`, and which logical head it puts at `p`. */
  function Tiled(keyHeads: nat, groups: nat, h: nat): nat
    requires 0 < groups
  {
    h % groups * keyHeads + h / groups
  }

  function Grouped(keyHeads: nat, groups: nat, p: nat): nat
    requires 0 < keyHeads
  {
    p % keyHeads * groups + p / keyHeads
  }

  /** The two orders are inverse to each other: exchanging the factors exchanges their roles. */
  lemma TiledGrouped(keyHeads: nat, groups: nat, h: nat)
    requires 0 < keyHeads && 0 < groups && h < keyHeads * groups
    ensures Tiled(keyHeads, groups, h) < keyHeads * groups
    ensures Grouped(keyHeads, groups, Tiled(keyHeads, groups, h)) == h
  {
    var q, t := h / groups, h % groups;
    assert h == q * groups + t;
    QuotientBelow(h, groups, keyHeads);
    DivUnique(t * keyHeads + q, keyHeads, t, q);
    MulSteps(t, groups, keyHeads);
    assert t * keyHeads + q < groups * keyHeads;
  }

  lemma QuotientBelow(n: nat, d: nat, q: nat)
    requires 0 < d && n < q * d
    ensures n / d < q
  {
    MulSteps(q, n / d, d);
  }

  lemma GroupedTiled(keyHeads: nat, groups: nat, p: nat)
    requires 0 < keyHeads && 0 < groups && p < keyHeads * groups
    ensures Grouped(keyHeads, groups, p) < keyHeads * groups
    ensures Tiled(keyHeads, groups, Grouped(keyHeads, groups, p)) == p
  {
    assert keyHeads * groups == groups * keyHeads;
    TiledGrouped(groups, keyHeads, p);
  }

  // ---------------------------------------------------------------- the index mapping

  /** Index `i` of the logical order and its place among whole heads of `width`. */
  function Physical(keyHeads: nat, groups: nat, width: nat, i: nat): nat
    requires 0 < groups && 0 < width
  {
    Tiled(keyHeads, groups, i / width) * width + i % width
  }

  function Logical(keyHeads: nat, groups: nat, width: nat, i: nat): nat
    requires 0 < keyHeads && 0 < width
  {
    Grouped(keyHeads, groups, i / width) * width + i % width
  }

  ghost predicate Shape(keyHeads: nat, valueHeads: nat, width: nat) {
    0 < keyHeads && 0 < valueHeads && 0 < width && valueHeads % keyHeads == 0
  }

  lemma GroupCount(keyHeads: nat, valueHeads: nat)
    requires 0 < keyHeads && 0 < valueHeads && valueHeads % keyHeads == 0
    ensures 0 < valueHeads / keyHeads && keyHeads * (valueHeads / keyHeads) == valueHeads
  {
  }

  lemma PhysicalAt(keyHeads: nat, groups: nat, width: nat, head: nat, offset: nat)
    requires 0 < groups && offset < width
    ensures Physical(keyHeads, groups, width, head * width + offset) == Tiled(keyHeads, groups, head) * width + offset
  {
    DivUnique(head * width + offset, width, head, offset);
  }

  lemma LogicalPlace(keyHeads: nat, groups: nat, width: nat, p: nat, l: nat, offset: nat)
    requires 0 < keyHeads && offset < width && Grouped(keyHeads, groups, p) == l
    ensures Logical(keyHeads, groups, width, p * width + offset) == l * width + offset
  {
    hide Grouped;
    DivUnique(p * width + offset, width, p, offset);
  }

  /** The mapping is a bijection, and the tile-major writer's order is its inverse. */
  lemma Bijection(keyHeads: nat, valueHeads: nat, width: nat, i: nat)
    requires Shape(keyHeads, valueHeads, width) && i < valueHeads * width
    ensures var groups := valueHeads / keyHeads;
            && 0 < groups
            && Physical(keyHeads, groups, width, i) < valueHeads * width &&
                Logical(keyHeads, groups, width, i) < valueHeads * width
            && Logical(keyHeads, groups, width, Physical(keyHeads, groups, width, i)) == i
            && Physical(keyHeads, groups, width, Logical(keyHeads, groups, width, i)) == i
  {
    hide Physical, Logical, Tiled, Grouped;
    GroupCount(keyHeads, valueHeads);
    var groups := valueHeads / keyHeads;
    var h, o := i / width, i % width;
    assert i == h * width + o;
    QuotientBelow(i, width, valueHeads);
    TiledGrouped(keyHeads, groups, h);
    GroupedTiled(keyHeads, groups, h);
    var p, l := Tiled(keyHeads, groups, h), Grouped(keyHeads, groups, h);
    PhysicalAt(keyHeads, groups, width, h, o);
    PhysicalAt(keyHeads, groups, width, l, o);
    LogicalPlace(keyHeads, groups, width, h, l, o);
    LogicalPlace(keyHeads, groups, width, p, h, o);
    MulSteps(p, valueHeads, width);
    MulSteps(l, valueHeads, width);
  }

  /** `v_head_permutation` */
  method VHeadPermutation(keyHeads: nat, valueHeads: nat, width: nat) returns (r: Option<seq<nat>>)
    ensures r.Some? <==> Shape(keyHeads, valueHeads, width)
    ensures r.Some? ==> IsHeadOrder(keyHeads, valueHeads, width, r.value)
  {
    hide Physical;
    if keyHeads == 0 || valueHeads == 0 || width == 0 || valueHeads % keyHeads != 0 {
      return None;
    }
    GroupCount(keyHeads, valueHeads);
    var groups := valueHeads / keyHeads;
    var mapping: seq<nat> := [];
    for head := 0 to valueHeads
      invariant |mapping| == head * width
      invariant forall i | 0 <= i < |mapping| :: mapping[i] == Physical(keyHeads, groups, width, i)
    {
      ghost var base := head * width;
      var start := (head % groups * keyHeads + head / groups) * width;
      for offset := 0 to width
        invariant |mapping| == base + offset
        invariant forall i | 0 <= i < |mapping| :: mapping[i] == Physical(keyHeads, groups, width, i)
      {
        PhysicalAt(keyHeads, groups, width, head, offset);
        mapping := mapping + [start + offset];
      }
      assert (head + 1) * width == head * width + width;
    }
    r := Some(mapping);
  }

  ghost predicate IsHeadOrder(keyHeads: nat, valueHeads: nat, width: nat, mapping: seq<nat>)
    requires Shape(keyHeads, valueHeads, width)
  {
    && |mapping| == valueHeads * width && 0 < valueHeads / keyHeads
    && forall i | 0 <= i < |mapping| :: mapping[i] == Physical(keyHeads, valueHeads / keyHeads, width, i)
  }

  /** No two indices are mapped alike, and every index below the length is reached. */
  ghost predicate Permutation(mapping: seq<nat>) {
    && (forall i | 0 <= i < |mapping| :: mapping[i] < |mapping|)
    && (forall i, j | 0 <= i < j < |mapping| :: mapping[i] != mapping[j])
    && forall p: nat | p < |mapping| :: p in mapping
  }

  lemma HeadOrderIsPermutation(keyHeads: nat, valueHeads: nat, width: nat, mapping: seq<nat>)
    requires Shape(keyHeads, valueHeads, width) && IsHeadOrder(keyHeads, valueHeads, width, mapping)
    ensures Permutation(mapping)
  {
    hide Physical, Logical;
    var groups := valueHeads / keyHeads;
    forall i | 0 <= i < |mapping| ensures mapping[i] < |mapping| && Logical(keyHeads, groups, width, mapping[i]) == i {
      Bijection(keyHeads, valueHeads, width, i);
    }
    forall p: nat | p < |mapping| ensures p in mapping {
      Bijection(keyHeads, valueHeads, width, p);
      assert mapping[Logical(keyHeads, groups, width, p)] == p;
    }
  }

  /** `v_rows_qkv`: queries and keys stay, value heads are permuted behind them. */
  method QkvPermutation(keyHeads: nat, keyDim: nat, valueHeads: nat, valueDim: nat) returns (r: Option<seq<nat>>)
    ensures r.Some? <==> Shape(keyHeads, valueHeads, valueDim)
    ensures r.Some? ==> Permutation(r.value) && |r.value| == keyHeads * keyDim * 2 + valueHeads * valueDim
    ensures r.Some? ==> forall i | 0 <= i < keyHeads * keyDim * 2 :: r.value[i] == i
    ensures r.Some? ==> exists m ::
            IsHeadOrder(keyHeads, valueHeads, valueDim, m) && r.value == Shifted(keyHeads * keyDim * 2, m)
  {
    var prefix := keyHeads * keyDim * 2;
    var heads := VHeadPermutation(keyHeads, valueHeads, valueDim);
    if heads.None? {
      return None;
    }
    HeadOrderIsPermutation(keyHeads, valueHeads, valueDim, heads.value);
    ShiftedIsPermutation(prefix, heads.value);
    r := Some(Shifted(prefix, heads.value));
  }

  /** `0..prefix` followed by the mapping moved up by `prefix`. */
  function Shifted(prefix: nat, mapping: seq<nat>): (r: seq<nat>)
    ensures |r| == prefix + |mapping|
  {
    seq(prefix, i => i) + seq(|mapping|, i requires 0 <= i < |mapping| => prefix + mapping[i])
  }

  lemma ShiftedIsPermutation(prefix: nat, mapping: seq<nat>)
    requires Permutation(mapping)
    ensures Permutation(Shifted(prefix, mapping))
  {
    var r := Shifted(prefix, mapping);
    forall p: nat | p < |r| ensures p in r {
      if p < prefix {
        assert r[p] == p;
      } else {
        assert p - prefix in mapping;
        var i :| 0 <= i < |mapping| && mapping[i] == p - prefix;
        assert r[prefix + i] == p;
      }
    }
  }

  // ---------------------------------------------------------------- lazy views

  /** An immutable tensor: decoded physical rows seen through optional row and column maps. */
  datatype Spec = Spec(rows: nat, width: nat, physical: seq<seq<real>>, rowMap: Option<seq<nat>>,
      colMap: Option<seq<nat>>) {
    /** Views never change the shape, and every map stays inside the physical tensor. */
    ghost predicate Valid() {
      && |physical| == rows && (forall i | 0 <= i < rows :: |physical[i]| == width)
      && (rowMap.Some? ==> Inside(rowMap.value, rows)) && (colMap.Some? ==> Inside(colMap.value, width))
    }

    function At(m: Option<seq<nat>>, i: nat): nat
      requires m.Some? ==> i < |m.value|
    {
      if m.Some? then m.value[i] else i
    }

    /** The logical cell at row `i` and column `j`. */
    ghost function Cell(i: nat, j: nat): real
      requires Valid() && i < rows && j < width
    {
      physical[At(rowMap, i)][At(colMap, j)]
    }
  }

  ghost predicate Inside(m: seq<nat>, n: nat) {
    |m| == n && forall i | 0 <= i < n :: m[i] < n
  }

  /** The composition of a view map with the map that is already there. */
  ghost function Composed(existing: Option<seq<nat>>, mapping: seq<nat>): seq<nat>
    requires existing.Some? ==> forall i | 0 <= i < |mapping| :: mapping[i] < |existing.value|
  {
    seq(|mapping|, i requires 0 <= i < |mapping| => if existing.Some? then existing.value[mapping[i]] else mapping[i])
  }

  /** `compose_view_map` */
  method ComposeViewMap(existing: Option<seq<nat>>, mapping: seq<nat>, physicalLen: nat) returns (r: Option<seq<nat>>)
    requires existing.Some? ==> Inside(existing.value, physicalLen)
    ensures r.Some? <==> forall i | 0 <= i < |mapping| :: mapping[i] < physicalLen
    ensures r.Some? ==> r.value == Composed(existing, mapping) && forall i | 0 <= i < |mapping| ::
            r.value[i] < physicalLen
  {
    var logicalLen := if existing.Some? then |existing.value| else physicalLen;
    var composed: seq<nat> := [];
    for i := 0 to |mapping|
      invariant |composed| == i
      invariant forall k | 0 <= k < i :: mapping[k] < physicalLen && composed[k] < physicalLen
      invariant forall k | 0 <= k < i :: composed[k] == if existing.Some? then existing.value[mapping[k]]
                else mapping[k]
    {
      var index := mapping[i];
      if index >= logicalLen {
        return None;
      }
      var physical := if existing.Some? then existing.value[index] else index;
      if physical >= physicalLen {
        return None;
      }
      composed := composed + [physical];
    }
    r := Some(composed);
  }

  /** `permute_rows`: row `i` of the view is row `m[i]` of the tensor it was made from, nested or not. */
  method PermuteRows(t: Spec, m: seq<nat>) returns (r: Option<Spec>)
    requires t.Valid()
    ensures r.Some? <==> Inside(m, t.rows)
    ensures r.Some? ==> r.value == RowView(t, m)
  {
    if |m| != t.rows {
      return None;
    }
    var rowMap :- ComposeViewMap(t.rowMap, m, t.rows);
    r := Some(t.(rowMap := Some(rowMap)));
  }

  method PermuteColumns(t: Spec, m: seq<nat>) returns (r: Option<Spec>)
    requires t.Valid()
    ensures r.Some? <==> Inside(m, t.width)
    ensures r.Some? ==> r.value == ColumnView(t, m)
  {
    if |m| != t.width {
      return None;
    }
    var colMap :- ComposeViewMap(t.colMap, m, t.width);
    r := Some(t.(colMap := Some(colMap)));
  }

  ghost function RowView(t: Spec, m: seq<nat>): Spec
    requires t.Valid() && Inside(m, t.rows)
  {
    t.(rowMap := Some(Composed(t.rowMap, m)))
  }

  ghost function ColumnView(t: Spec, m: seq<nat>): Spec
    requires t.Valid() && Inside(m, t.width)
  {
    t.(colMap := Some(Composed(t.colMap, m)))
  }

  /** A view of a view reads through both maps, on either axis. */
  lemma ViewReads(t: Spec, m: seq<nat>, i: nat, j: nat)
    requires t.Valid() && i < t.rows && j < t.width
    ensures Inside(m, t.rows) ==> RowView(t, m).Valid() && RowView(t, m).Cell(i, j) == t.Cell(m[i], j)
    ensures Inside(m, t.width) ==> ColumnView(t, m).Valid() && ColumnView(t, m).Cell(i, j) == t.Cell(i, m[j])
  {
  }

  lemma NestedRows(t: Spec, m1: seq<nat>, m2: seq<nat>, i: nat, j: nat)
    requires t.Valid() && Inside(m1, t.rows) && Inside(m2, t.rows) && i < t.rows && j < t.width
    ensures RowView(t, m1).Valid() && RowView(RowView(t, m1), m2).Valid()
    ensures RowView(RowView(t, m1), m2).Cell(i, j) == t.Cell(m1[m2[i]], j)
  {
    ViewReads(t, m1, m2[i], j);
    ViewReads(RowView(t, m1), m2, i, j);
  }

  lemma NestedColumns(t: Spec, m1: seq<nat>, m2: seq<nat>, i: nat, j: nat)
    requires t.Valid() && Inside(m1, t.width) && Inside(m2, t.width) && i < t.rows && j < t.width
    ensures ColumnView(t, m1).Valid() && ColumnView(ColumnView(t, m1), m2).Valid()
    ensures ColumnView(ColumnView(t, m1), m2).Cell(i, j) == t.Cell(i, m1[m2[j]])
  {
    ViewReads(t, m1, i, m2[j]);
    ViewReads(ColumnView(t, m1), m2, i, j);
  }

  /** Row and column views commute: they are the same tensor in either order. */
  lemma ViewsCommute(t: Spec, rows: seq<nat>, columns: seq<nat>)
    requires t.Valid() && Inside(rows, t.rows) && Inside(columns, t.width)
    ensures RowView(t, rows).Valid() && ColumnView(t, columns).Valid()
    ensures ColumnView(RowView(t, rows), columns) == RowView(ColumnView(t, columns), rows)
  {
  }

  /** `read_row`: the logical row, through both maps. */
  method ReadRow(t: Spec, row: nat, out: array<real>) returns (ok: bool)
    requires t.Valid()
    modifies out
    ensures ok <==> row < t.rows && out.Length == t.width
    ensures ok ==> forall j | 0 <= j < t.width :: out[j] == t.Cell(row, j)
  {
    if row >= t.rows || out.Length != t.width {
      return false;
    }
    var physical := t.physical[if t.rowMap.Some? then t.rowMap.value[row] else row];
    for j := 0 to t.width
      invariant forall k | 0 <= k < j :: out[k] == t.Cell(row, k)
    {
      out[j] := physical[if t.colMap.Some? then t.colMap.value[j] else j];
    }
    ok := true;
  }

  /** `v_rows`: logical row `i` of the view is the row that the tiled order keeps it at. */
  method VRows(t: Spec, keyHeads: nat, valueHeads: nat, headWidth: nat) returns (r: Option<Spec>)
    requires t.Valid()
    ensures r.Some? <==> Shape(keyHeads, valueHeads, headWidth) && t.rows == valueHeads * headWidth
    ensures r.Some? ==> r.value.Valid() && r.value.rows == t.rows && r.value.width == t.width
                        && 0 < valueHeads / keyHeads
                        && forall i, j | 0 <= i < t.rows && 0 <= j < t.width ::
                             && Physical(keyHeads, valueHeads / keyHeads, headWidth, i) < t.rows
                             && r.value.Cell(i, j) == t.Cell(Physical(keyHeads, valueHeads / keyHeads, headWidth, i), j)
  {
    hide Physical;
    if t.rows != valueHeads * headWidth {
      return None;
    }
    var mapping :- VHeadPermutation(keyHeads, valueHeads, headWidth);
    HeadOrderIsPermutation(keyHeads, valueHeads, headWidth, mapping);
    r := PermuteRows(t, mapping);
    forall i, j | 0 <= i < t.rows && 0 <= j < t.width
      ensures Physical(keyHeads, valueHeads / keyHeads, headWidth, i) < t.rows
              && r.value.Cell(i, j) == t.Cell(Physical(keyHeads, valueHeads / keyHeads, headWidth, i), j)
    {
      ViewReads(t, mapping, i, j);
    }
  }

  /** Column `j` of the view is the column that the tiled order keeps it at. */
  ghost predicate ColumnsTiled(t: Spec, view: Spec, keyHeads: nat, groups: nat, width: nat) {
    && t.Valid() && view.Valid() && view.rows == t.rows && view.width == t.width && 0 < groups && 0 < width
    && forall i, j | 0 <= i < t.rows && 0 <= j < t.width ::
         Physical(keyHeads, groups, width, j) < t.width &&
             view.Cell(i, j) == t.Cell(i, Physical(keyHeads, groups, width, j))
  }

  /** `v_columns`: the same for columns. */
  method VColumns(t: Spec, keyHeads: nat, valueHeads: nat, valueDim: nat) returns (r: Option<Spec>)
    requires t.Valid()
    ensures r.Some? <==> Shape(keyHeads, valueHeads, valueDim) && t.width == valueHeads * valueDim
    ensures r.Some? ==> ColumnsTiled(t, r.value, keyHeads, valueHeads / keyHeads, valueDim)
  {
    if t.width != valueHeads * valueDim {
      return None;
    }
    r := ViewColumns(t, keyHeads, valueHeads, valueDim);
  }

  /** The permuted columns of a tensor whose width fits. */
  method ViewColumns(t: Spec, keyHeads: nat, valueHeads: nat, width: nat) returns (r: Option<Spec>)
    requires t.Valid() && t.width == valueHeads * width
    ensures r.Some? <==> Shape(keyHeads, valueHeads, width)
    ensures r.Some? ==> ColumnsTiled(t, r.value, keyHeads, valueHeads / keyHeads, width)
  {
    hide Physical;
    var mapping :- VHeadPermutation(keyHeads, valueHeads, width);
    HeadOrderIsPermutation(keyHeads, valueHeads, width, mapping);
    r := PermuteColumns(t, mapping);
    forall i, j | 0 <= i < t.rows && 0 <= j < t.width
      ensures Physical(keyHeads, valueHeads / keyHeads, width, j) < t.width
              && r.value.Cell(i, j) == t.Cell(i, Physical(keyHeads, valueHeads / keyHeads, width, j))
    {
      ViewReads(t, mapping, i, j);
    }
  }

  /** `v_vector`: a single row, its heads one column wide. */
  method VVector(t: Spec, keyHeads: nat, valueHeads: nat) returns (r: Option<Spec>)
    requires t.Valid()
    ensures r.Some? <==> t.rows == 1 && t.width == valueHeads && Shape(keyHeads, valueHeads, 1)
    ensures r.Some? ==> VectorTiled(t, r.value, keyHeads, valueHeads / keyHeads)
  {
    if t.rows != 1 || t.width != valueHeads {
      return None;
    }
    UnitTimes(valueHeads);
    r := ViewColumns(t, keyHeads, valueHeads, 1);
    if r.Some? {
      VectorReads(t, r.value, keyHeads, valueHeads / keyHeads);
    }
  }

  /** Entry `j` of the view is the entry of the head that the tiled order keeps it at. */
  ghost predicate VectorTiled(t: Spec, view: Spec, keyHeads: nat, groups: nat) {
    && t.Valid() && view.Valid() && view.rows == t.rows == 1 && view.width == t.width && 0 < groups
    && forall j | 0 <= j < t.width ::
        Tiled(keyHeads, groups, j) < t.width && view.Cell(0, j) == t.Cell(0, Tiled(keyHeads, groups, j))
  }

  lemma VectorReads(t: Spec, view: Spec, keyHeads: nat, groups: nat)
    requires ColumnsTiled(t, view, keyHeads, groups, 1) && t.rows == 1
    ensures VectorTiled(t, view, keyHeads, groups)
  {
    hide Physical, Tiled;
    forall j | 0 <= j < t.width ensures Physical(keyHeads, groups, 1, j) == Tiled(keyHeads, groups, j) {
      UnitWidth(keyHeads, groups, j);
    }
  }

  lemma UnitWidth(keyHeads: nat, groups: nat, h: nat)
    requires 0 < groups
    ensures Physical(keyHeads, groups, 1, h) == Tiled(keyHeads, groups, h)
  {
    hide Tiled;
    DivUnique(h, 1, h, 0);
    UnitTimes(Tiled(keyHeads, groups, h));
  }

  lemma UnitTimes(n: nat)
    ensures n * 1 == n
  {
  }

  /** `v_rows_qkv`: query and key rows stay; a value row is the one that the tiled order keeps it at. */
  method VRowsQkv(t: Spec, keyHeads: nat, keyDim: nat, valueHeads: nat, valueDim: nat) returns (r: Option<Spec>)
    requires t.Valid()
    ensures var prefix := keyHeads * keyDim * 2;
            r.Some? <==> t.rows == prefix + valueHeads * valueDim && Shape(keyHeads, valueHeads, valueDim)
    ensures r.Some? ==>
              r.value.Valid() && r.value.rows == t.rows && r.value.width == t.width && 0 < valueHeads / keyHeads
    ensures r.Some? ==> forall i, j | 0 <= i < keyHeads * keyDim * 2 && 0 <= j < t.width ::
            r.value.Cell(i, j) == t.Cell(i, j)
    ensures r.Some? ==> forall i, j | 0 <= i < valueHeads * valueDim && 0 <= j < t.width ::
              ValueRowAt(t, r.value, keyHeads * keyDim * 2, Physical(keyHeads, valueHeads / keyHeads, valueDim, i), i,
                  j)
  {
    hide Physical;
    var prefix := keyHeads * keyDim * 2;
    if t.rows != prefix + valueHeads * valueDim {
      return None;
    }
    var mapping :- QkvPermutation(keyHeads, keyDim, valueHeads, valueDim);
    r := PermuteRows(t, mapping);
    ghost var m :| IsHeadOrder(keyHeads, valueHeads, valueDim, m) && mapping == Shifted(prefix, m);
    HeadOrderIsPermutation(keyHeads, valueHeads, valueDim, m);
    ShiftedReads(t, prefix, m);
    forall i, j | 0 <= i < valueHeads * valueDim && 0 <= j < t.width
      ensures ValueRowAt(t, r.value, prefix, Physical(keyHeads, valueHeads / keyHeads, valueDim, i), i, j)
    {
      assert ValueRowAt(t, r.value, prefix, m[i], i, j);
    }
  }

  lemma ShiftedReads(t: Spec, prefix: nat, m: seq<nat>)
    requires t.Valid() && t.rows == prefix + |m| && Permutation(m)
    ensures Inside(Shifted(prefix, m), t.rows)
    ensures RowView(t, Shifted(prefix, m)).Valid()
    ensures forall i, j | 0 <= i < prefix && 0 <= j < t.width ::
            RowView(t, Shifted(prefix, m)).Cell(i, j) == t.Cell(i, j)
    ensures forall i, j | 0 <= i < |m| && 0 <= j < t.width ::
              ValueRowAt(t, RowView(t, Shifted(prefix, m)), prefix, m[i], i, j)
  {
  }

  /** Row `prefix + i` of the view is row `prefix + at` of the tensor. */
  ghost predicate ValueRowAt(t: Spec, view: Spec, prefix: nat, at: nat, i: nat, j: nat) {
    && t.Valid() && view.Valid() && prefix + i < view.rows && prefix + at < t.rows && j < t.width == view.width
    && view.Cell(prefix + i, j) == t.Cell(prefix + at, j)
  }

  // ---------------------------------------------------------------- tiling and then viewing

  /** The tile-major order of the file: tile by tile, in each tile one head of every key head. */
  method TileMajor<T>(logical: seq<T>, keyHeads: nat, groups: nat, width: nat) returns (physical: seq<T>)
    requires 0 < keyHeads && 0 < width && |logical| == keyHeads * groups * width
    ensures |physical| == |logical|
    ensures forall p | 0 <= p < |physical| ::
              Logical(keyHeads, groups, width, p) < |logical| &&
                  physical[p] == logical[Logical(keyHeads, groups, width, p)]
  {
    hide Logical;
    physical := [];
    for tile := 0 to groups
      invariant |physical| == tile * keyHeads * width && InTiles(logical, keyHeads, groups, width, physical)
    {
      for keyHead := 0 to keyHeads
        invariant |physical| == (tile * keyHeads + keyHead) * width &&
                  InTiles(logical, keyHeads, groups, width, physical)
      {
        for offset := 0 to width
          invariant |physical| == (tile * keyHeads + keyHead) * width + offset
          invariant InTiles(logical, keyHeads, groups, width, physical)
        {
          LogicalAt(keyHeads, groups, width, tile, keyHead, offset);
          physical := physical + [logical[(keyHead * groups + tile) * width + offset]];
        }
        NextHead(tile * keyHeads + keyHead, width);
      }
      NextTile(tile, keyHeads, width);
    }
    assert groups * keyHeads == keyHeads * groups;
  }

  ghost predicate InTiles<T>(logical: seq<T>, keyHeads: nat, groups: nat, width: nat, physical: seq<T>)
    requires 0 < keyHeads && 0 < width
  {
    forall p | 0 <= p < |physical| ::
      Logical(keyHeads, groups, width, p) < |logical| && physical[p] == logical[Logical(keyHeads, groups, width, p)]
  }

  lemma NextHead(head: nat, width: nat)
    ensures head * width + width == (head + 1) * width
  {
  }

  lemma NextTile(tile: nat, keyHeads: nat, width: nat)
    ensures (tile * keyHeads + keyHeads) * width == (tile + 1) * keyHeads * width
  {
  }

  /** What stands at place `offset` of the head that tile `tile` keeps for `keyHead`. */
  lemma LogicalAt(keyHeads: nat, groups: nat, width: nat, tile: nat, keyHead: nat, offset: nat)
    requires tile < groups && keyHead < keyHeads && offset < width
    ensures var at := (keyHead * groups + tile) * width + offset;
            && Logical(keyHeads, groups, width, (tile * keyHeads + keyHead) * width + offset) == at
            && at < keyHeads * groups * width
  {
    hide Grouped, Logical;
    GroupedAt(keyHeads, groups, tile, keyHead);
    LogicalPlace(keyHeads, groups, width, tile * keyHeads + keyHead, keyHead * groups + tile, offset);
    MulSteps(keyHead * groups + tile, keyHeads * groups, width);
  }

  lemma GroupedAt(keyHeads: nat, groups: nat, tile: nat, keyHead: nat)
    requires tile < groups && keyHead < keyHeads
    ensures Grouped(keyHeads, groups, tile * keyHeads + keyHead) == keyHead * groups + tile < keyHeads * groups
  {
    DivUnique(tile * keyHeads + keyHead, keyHeads, tile, keyHead);
    MulSteps(keyHead, keyHeads, groups);
  }

  /** Rows written in tiled order and read through `v_rows` are the logical rows. */
  method TiledRowsRoundTrip(logical: seq<seq<real>>, columns: nat, keyHeads: nat, valueHeads: nat, width: nat)
      returns (view: Spec)
    requires Shape(keyHeads, valueHeads, width) && |logical| == valueHeads * width
    requires forall i | 0 <= i < |logical| :: |logical[i]| == columns
    ensures view.Valid() && view.rows == |logical| && view.width == columns
    ensures forall i, j | 0 <= i < |logical| && 0 <= j < columns :: view.Cell(i, j) == logical[i][j]
  {
    hide Physical, Logical;
    GroupCount(keyHeads, valueHeads);
    var groups := valueHeads / keyHeads;
    var physical := TileMajor(logical, keyHeads, groups, width);
    var stored := Spec(|logical|, columns, physical, None, None);
    var r := VRows(stored, keyHeads, valueHeads, width);
    view := r.value;
    forall i, j | 0 <= i < |logical| && 0 <= j < columns ensures view.Cell(i, j) == logical[i][j] {
      Bijection(keyHeads, valueHeads, width, i);
    }
  }

  /** Columns written in tiled order and read through `v_columns` are the logical columns. */
  method TiledColumnsRoundTrip(logical: seq<seq<real>>, keyHeads: nat, valueHeads: nat, width: nat) returns (view: Spec)
    requires Shape(keyHeads, valueHeads, width) && forall i | 0 <= i < |logical| :: |logical[i]| == valueHeads * width
    ensures view.Valid() && view.rows == |logical| && view.width == valueHeads * width
    ensures forall i, j | 0 <= i < |logical| && 0 <= j < valueHeads * width :: view.Cell(i, j) == logical[i][j]
  {
    hide Physical, Logical;
    GroupCount(keyHeads, valueHeads);
    var groups, columns := valueHeads / keyHeads, valueHeads * width;
    var physical: seq<seq<real>> := [];
    for i := 0 to |logical|
      invariant |physical| == i && forall k | 0 <= k < i ::
                |physical[k]| == columns && InTiles(logical[k], keyHeads, groups, width, physical[k])
    {
      var row := TileMajor(logical[i], keyHeads, groups, width);
      physical := physical + [row];
    }
    var stored := Spec(|logical|, columns, physical, None, None);
    var r := VColumns(stored, keyHeads, valueHeads, width);
    view := r.value;
    forall i, j | 0 <= i < |logical| && 0 <= j < columns ensures view.Cell(i, j) == logical[i][j] {
      Bijection(keyHeads, valueHeads, width, j);
      assert InTiles(logical[i], keyHeads, groups, width, physical[i]);
    }
  }
}
