/** The data layout of GGUF files: the tensor table checks of `parse_gguf` and the row slices of
    `read_physical_row` (src/artifact/mod.rs), with the row lengths of the decoders (src/artifact/quant.rs). */
module Gguf {
  import opened Nonlinear
  import opened Wrappers

  // ---------------------------------------------------------------- formats

  datatype Format = F32 | F16 | BF16 | Q4_0 | Q8_0 | Q4K | Q6K

  /** `gguf_format`: elements and bytes of one block; a plain format's block is one element. */
  function GgufFormat(dtype: nat): Option<Format> {
    if dtype == 0 then Some(F32)
    else if dtype == 1 then Some(F16)
    else if dtype == 2 then Some(Q4_0)
    else if dtype == 8 then Some(Q8_0)
    else if dtype == 12 then Some(Q4K)
    else if dtype == 14 then Some(Q6K)
    else if dtype == 30 then Some(BF16)
    else None
  }

  function BlockElems(f: Format): (n: nat)
    ensures 0 < n
  {
    match f
    case F32 => 1
    case F16 => 1
    case BF16 => 1
    case Q4_0 => 32
    case Q8_0 => 32
    case Q4K => 256
    case Q6K => 256
  }

  /** Bits of one quantised weight, and bytes of scales and minima at each block: half-precision scales, and
      for the 256-element formats one small scale per group. */
  function WeightBits(f: Format): nat {
    match f
    case F32 => 32
    case F16 => 16
    case BF16 => 16
    case Q4_0 => 4
    case Q8_0 => 8
    case Q4K => 4
    case Q6K => 6
  }

  function ScaleBytes(f: Format): nat {
    match f
    case F32 => 0
    case F16 => 0
    case BF16 => 0
    case Q4_0 => 2
    case Q8_0 => 2
    case Q4K => 2 + 2 + 12
    case Q6K => 2 + 16
  }

  function BlockBytes(f: Format): (n: nat)
    ensures 8 * n == 8 * ScaleBytes(f) + BlockElems(f) * WeightBits(f) && 0 < n
  {
    match f
    case F32 => 4
    case F16 => 2
    case BF16 => 2
    case Q4_0 => 18
    case Q8_0 => 34
    case Q4K => 144
    case Q6K => 210
  }

  /** The length at which the format's row decoder accepts a row of `width` floats. */
  function RowBytes(f: Format, width: nat): Option<nat> {
    if width == 0 || width % BlockElems(f) != 0 then None else Some(width / BlockElems(f) * BlockBytes(f))
  }

  // ---------------------------------------------------------------- shapes

  function Elements(shape: seq<nat>): nat {
    if |shape| == 0 then 1 else Elements(shape[..|shape| - 1]) * shape[|shape| - 1]
  }

  function Reversed(shape: seq<nat>): (r: seq<nat>)
    ensures |r| == |shape|
  {
    seq(|shape|, i requires 0 <= i < |shape| => shape[|shape| - 1 - i])
  }

  lemma {:induction false} ElementsPositive(shape: seq<nat>)
    requires 0 !in shape
    ensures 0 < Elements(shape)
  {
    if |shape| > 0 {
      ElementsPositive(shape[..|shape| - 1]);
      MulSteps(0, Elements(shape[..|shape| - 1]), shape[|shape| - 1]);
    }
  }

  /** `shape_rows_width` */
  method ShapeRowsWidth(shape: seq<nat>) returns (rows: nat, width: nat)
    requires 0 < |shape|
    ensures rows == Elements(shape[..|shape| - 1]) && width == shape[|shape| - 1] && Elements(shape) == rows * width
  {
    width := shape[|shape| - 1];
    rows := 1;
    for i := 0 to |shape| - 1
      invariant rows == Elements(shape[..i])
    {
      assert shape[..i + 1][..i] == shape[..i];
      rows := rows * shape[i];
    }
  }

  // ---------------------------------------------------------------- one tensor

  /** A tensor as the header lists it. */
  datatype Raw = Raw(rawShape: seq<nat>, dtype: nat, offset: nat)

  datatype Spec = Spec(shape: seq<nat>, format: Format, offset: nat, len: nat) {
    function End(): nat {
      offset + len
    }

    function Rows(): nat
      requires 0 < |shape|
    {
      Elements(shape[..|shape| - 1])
    }

    function Width(): nat
      requires 0 < |shape|
    {
      shape[|shape| - 1]
    }
  }

  /** What the table demands of a tensor by itself. */
  ghost predicate WellFormed(t: Raw) {
    && 0 < |t.rawShape| && 0 !in t.rawShape
    && GgufFormat(t.dtype).Some? && t.rawShape[0] % BlockElems(GgufFormat(t.dtype).value) == 0
  }

  ghost function SpecOf(t: Raw, dataStart: nat): Spec
    requires WellFormed(t)
  {
    var f := GgufFormat(t.dtype).value;
    Spec(Reversed(t.rawShape), f, dataStart + t.offset, Elements(Reversed(t.rawShape)) / BlockElems(f) * BlockBytes(f))
  }

  method MeasureTensor(t: Raw, dataStart: nat) returns (r: Option<Spec>)
    ensures r.Some? <==> WellFormed(t)
    ensures r.Some? ==> r.value == SpecOf(t, dataStart)
  {
    var format :- GgufFormat(t.dtype);
    var shape := Reversed(t.rawShape);
    forall d ensures d in shape <==> d in t.rawShape {
      if d in t.rawShape {
        var i :| 0 <= i < |t.rawShape| && t.rawShape[i] == d;
        assert shape[|shape| - 1 - i] == d;
      }
    }
    if |shape| == 0 || 0 in shape {
      return None;
    }
    var elements := Elements(shape);
    var rows, width := ShapeRowsWidth(shape);
    var block := BlockElems(format);
    if width % block != 0 {
      return None;
    }
    MultipleOf(rows, width, block);
    if elements % block != 0 {
      return None;
    }
    r := Some(Spec(shape, format, dataStart + t.offset, elements / block * BlockBytes(format)));
  }

  lemma MultipleOf(rows: nat, width: nat, block: nat)
    requires 0 < block && width % block == 0
    ensures (rows * width) % block == 0 && rows * width / block == rows * (width / block)
  {
    var q := width / block;
    assert width == q * block;
    assert rows * width == (rows * q) * block + 0;
    DivUnique(rows * width, block, rows * q, 0);
  }

  /** A measured tensor's rows: `len / rows` is exact and is the length its decoder demands. */
  lemma RowsExact(t: Raw, dataStart: nat)
    requires WellFormed(t)
    ensures var s := SpecOf(t, dataStart);
            && 0 < s.Rows() && 0 < s.Width() && 0 < s.len
            && RowBytes(s.format, s.Width()).Some? && s.len == s.Rows() * RowBytes(s.format, s.Width()).value
            && s.len / s.Rows() == RowBytes(s.format, s.Width()).value
  {
    var s := SpecOf(t, dataStart);
    var rows, width, block, bytes := s.Rows(), s.Width(), BlockElems(s.format), BlockBytes(s.format);
    assert forall d | d in s.shape :: d in t.rawShape;
    assert width in s.shape;
    ElementsPositive(s.shape[..|s.shape| - 1]);
    MultipleOf(rows, width, block);
    assert s.len == rows * width / block * bytes;
    EvenRows(rows, width / block, bytes, s.len);
  }

  lemma EvenRows(rows: nat, blocks: nat, bytes: nat, len: nat)
    requires 0 < rows && 0 < blocks && 0 < bytes && len == rows * blocks * bytes
    ensures len == rows * (blocks * bytes) && 0 < len && len / rows == blocks * bytes
  {
    var perRow := blocks * bytes;
    MulSteps(0, blocks, bytes);
    MulSteps(0, rows, perRow);
    assert rows * blocks * bytes == rows * perRow == perRow * rows;
    DivUnique(len, rows, perRow, 0);
  }

  /** The slice of a row, and how the slices tile the tensor's bytes. */
  lemma RowSlices(t: Raw, dataStart: nat, row: nat, other: nat)
    requires WellFormed(t) && row < SpecOf(t, dataStart).Rows() && other < SpecOf(t, dataStart).Rows()
    ensures var s := SpecOf(t, dataStart);
            var size := s.len / s.Rows();
            && row * size + size <= s.len
            && (row < other ==> row * size + size <= other * size)
            && (row + 1 == s.Rows() ==> row * size + size == s.len)
  {
    var s := SpecOf(t, dataStart);
    var size := s.len / s.Rows();
    RowsExact(t, dataStart);
    MulSteps(row, s.Rows(), size);
    MulSteps(row, other, size);
    assert (row + 1) * size == row * size + size;
  }

  /** `read_physical_row`: the byte range handed to the row decoder, which checks its length. */
  method RowSlice(s: Spec, row: nat, outLen: nat) returns (r: Option<(nat, nat)>)
    requires 0 < |s.shape|
    ensures r.Some? <==> row < s.Rows() && outLen == s.Width() && RowBytes(s.format, outLen) == Some(s.len / s.Rows())
    ensures r.Some? ==> r.value == (row * (s.len / s.Rows()), row * (s.len / s.Rows()) + s.len / s.Rows())
  {
    var rows, width := ShapeRowsWidth(s.shape);
    if row >= rows || outLen != width {
      return None;
    }
    var rowBytes := s.len / rows;
    var start := row * rowBytes;
    var end := start + rowBytes;
    var expected :- RowBytes(s.format, outLen);
    r := if end - start == expected then Some((start, end)) else None;
  }

  // ---------------------------------------------------------------- the whole table

  ghost predicate Disjoint(a: Spec, b: Spec) {
    a.End() <= b.offset || b.End() <= a.offset
  }

  /** What an accepted table guarantees, and all that it demands. */
  ghost predicate LaidOut(specs: seq<Spec>, dataStart: nat, fileLen: nat) {
    && (forall i | 0 <= i < |specs| :: dataStart <= specs[i].offset && specs[i].End() <= fileLen)
    && forall i, j | 0 <= i < j < |specs| :: Disjoint(specs[i], specs[j])
  }

  /** Indices of all tensors in order of their starts. */
  ghost predicate StartOrder(specs: seq<Spec>, order: seq<nat>, n: nat)
    requires n <= |specs|
  {
    && |order| == n && (forall k | 0 <= k < n :: order[k] < n)
    && (forall i: nat | i < n :: i in order)
    && forall a, b | 0 <= a < b < n :: Before(specs, order[a], order[b])
  }

  ghost predicate Before(specs: seq<Spec>, i: nat, j: nat)
    requires i < |specs| && j < |specs|
  {
    i != j && specs[i].offset <= specs[j].offset
  }

  function Inserted(order: seq<nat>, pos: nat, n: nat): (r: seq<nat>)
    requires pos <= |order|
    ensures |r| == |order| + 1
  {
    order[..pos] + [n] + order[pos..]
  }

  lemma InsertedAt(order: seq<nat>, pos: nat, n: nat, a: nat)
    requires pos <= |order| && a <= |order|
    ensures Inserted(order, pos, n)[a] == if a < pos then order[a] else if a == pos then n else order[a - 1]
  {
  }

  /** `sort_by_key` on the start: each tensor goes behind those that do not start after it. */
  method SortByStart(specs: seq<Spec>) returns (order: seq<nat>)
    ensures StartOrder(specs, order, |specs|)
  {
    order := [];
    for n := 0 to |specs|
      invariant StartOrder(specs, order, n)
    {
      var pos := n;
      while 0 < pos && specs[order[pos - 1]].offset > specs[n].offset
        invariant pos <= n
        invariant forall k | pos <= k < n :: specs[order[k]].offset > specs[n].offset
      {
        pos := pos - 1;
      }
      InsertStart(specs, order, n, pos);
      order := Inserted(order, pos, n);
    }
  }

  lemma InsertStart(specs: seq<Spec>, order: seq<nat>, n: nat, pos: nat)
    requires n < |specs| && StartOrder(specs, order, n) && pos <= n
    requires forall k | pos <= k < n :: specs[order[k]].offset > specs[n].offset
    requires 0 < pos ==> specs[order[pos - 1]].offset <= specs[n].offset
    ensures StartOrder(specs, Inserted(order, pos, n), n + 1)
  {
    hide Inserted, Before;
    var after := Inserted(order, pos, n);
    forall i: nat | i < n + 1 ensures i in after {
      InsertedHolds(order, pos, n, i);
    }
    forall a, b | 0 <= a < b < n + 1 ensures after[a] < n + 1 && after[b] < n + 1 && Before(specs, after[a], after[b]) {
      InsertedAt(order, pos, n, a);
      InsertedAt(order, pos, n, b);
      InsertBefore(specs, order, n, pos, if a < pos then a else a - 1, if b < pos then b else b - 1);
    }
    forall a | 0 <= a < n + 1 ensures after[a] < n + 1 {
      InsertedAt(order, pos, n, a);
    }
  }

  lemma InsertedHolds(order: seq<nat>, pos: nat, n: nat, i: nat)
    requires pos <= |order| == n && (i == n || i in order)
    ensures i in Inserted(order, pos, n)
  {
    if i == n {
      assert Inserted(order, pos, n)[pos] == n;
    } else {
      var k :| 0 <= k < n && order[k] == i;
      assert Inserted(order, pos, n)[if k < pos then k else k + 1] == i;
    }
  }

  /** How the new tensor compares with any that keep their order around it. */
  lemma InsertBefore(specs: seq<Spec>, order: seq<nat>, n: nat, pos: nat, x: int, y: int)
    requires n < |specs| && StartOrder(specs, order, n) && pos <= n
    requires forall k | pos <= k < n :: specs[order[k]].offset > specs[n].offset
    requires 0 < pos ==> specs[order[pos - 1]].offset <= specs[n].offset
    ensures 0 <= x < y < n ==> Before(specs, order[x], order[y])
    ensures 0 <= x < pos ==> Before(specs, order[x], n)
    ensures pos <= y < n ==> Before(specs, n, order[y])
  {
    if 0 <= x < pos - 1 {
      assert Before(specs, order[x], order[pos - 1]);
    }
  }

  /** Consecutive ranges in start order do not overlap. */
  ghost predicate Chained(specs: seq<Spec>, order: seq<nat>, dataStart: nat, n: nat)
    requires n <= |order| && forall k | 0 <= k < |order| :: order[k] < |specs|
  {
    forall k | 0 <= k < n :: (if k == 0 then dataStart else specs[order[k - 1]].End()) <= specs[order[k]].offset
  }

  lemma {:induction false} ChainedBefore(specs: seq<Spec>, order: seq<nat>, dataStart: nat, a: nat, b: nat)
    requires StartOrder(specs, order, |specs|) && Chained(specs, order, dataStart, |specs|) && a < b < |specs|
    ensures specs[order[a]].End() <= specs[order[b]].offset
  {
    if a + 1 < b {
      ChainedBefore(specs, order, dataStart, a, b - 1);
    }
  }

  lemma ChainedIsDisjoint(specs: seq<Spec>, order: seq<nat>, dataStart: nat, i: nat, j: nat)
    requires StartOrder(specs, order, |specs|) && Chained(specs, order, dataStart, |specs|) && i < j < |specs|
    ensures Disjoint(specs[i], specs[j])
  {
    assert i in order && j in order;
    var a :| 0 <= a < |specs| && order[a] == i;
    var b :| 0 <= b < |specs| && order[b] == j;
    if a < b {
      ChainedBefore(specs, order, dataStart, a, b);
    } else {
      ChainedBefore(specs, order, dataStart, b, a);
    }
  }

  /** Where neighbours in start order overlap, the tensors are not disjoint. */
  lemma OverlapFound(specs: seq<Spec>, order: seq<nat>, k: nat)
    requires StartOrder(specs, order, |specs|) && 0 < k < |specs| && specs[order[k]].offset < specs[order[k - 1]].End()
    requires forall i | 0 <= i < |specs| :: 0 < specs[i].len
    ensures exists i, j | 0 <= i < j < |specs| :: !Disjoint(specs[i], specs[j])
  {
    var i, j := order[k - 1], order[k];
    assert Before(specs, i, j);
    assert !Disjoint(specs[i], specs[j]) && !Disjoint(specs[j], specs[i]);
    assert i < j || j < i;
  }

  /** `align_up` */
  function AlignUp(value: nat, alignment: nat): (r: nat)
    requires 0 < alignment
    ensures value <= r < value + alignment && r % alignment == 0
  {
    var remainder := value % alignment;
    if remainder == 0 then value
    else
      AlignedAfter(value, alignment);
      value + (alignment - remainder)
  }

  lemma AlignedAfter(value: nat, alignment: nat)
    requires 0 < alignment
    ensures (value + (alignment - value % alignment)) % alignment == 0
  {
    var q := value / alignment;
    DivUnique(value + (alignment - value % alignment), alignment, q + 1, 0);
  }

  /** The table part of `parse_gguf`, after a header that ends at `position`. */
  method ParseTable(fileLen: nat, position: nat, alignment: nat, tensors: seq<Raw>) returns (r: Option<seq<Spec>>)
    requires 0 < alignment
    ensures r.Some? <==>
            AlignUp(position, alignment) <= fileLen && (forall i | 0 <= i < |tensors| :: WellFormed(tensors[i]))
                         && LaidOut(SpecsOf(tensors, AlignUp(position, alignment)), AlignUp(position, alignment),
                             fileLen)
    ensures r.Some? ==> r.value == SpecsOf(tensors, AlignUp(position, alignment))
  {
    var dataStart := AlignUp(position, alignment);
    if dataStart > fileLen {
      return None;
    }
    var specs :- MeasureAll(tensors, dataStart);
    for i := 0 to |specs|
      invariant forall k | 0 <= k < i :: specs[k].End() <= fileLen
    {
      if specs[i].End() > fileLen {
        return None;
      }
    }
    var apart := NoOverlap(specs, dataStart);
    r := if apart then Some(specs) else None;
  }

  method MeasureAll(tensors: seq<Raw>, dataStart: nat) returns (r: Option<seq<Spec>>)
    ensures r.Some? <==> forall i | 0 <= i < |tensors| :: WellFormed(tensors[i])
    ensures r.Some? ==> r.value == SpecsOf(tensors, dataStart)
    ensures r.Some? ==> forall i | 0 <= i < |tensors| :: 0 < r.value[i].len && dataStart <= r.value[i].offset
  {
    hide SpecOf, WellFormed;
    var specs: seq<Spec> := [];
    for i := 0 to |tensors|
      invariant |specs| == i && forall k | 0 <= k < i ::
                WellFormed(tensors[k]) && specs[k] == SpecOf(tensors[k], dataStart)
    {
      var spec :- MeasureTensor(tensors[i], dataStart);
      specs := specs + [spec];
    }
    forall i | 0 <= i < |specs| ensures 0 < specs[i].len && dataStart <= specs[i].offset {
      RowsExact(tensors[i], dataStart);
      StartsInData(tensors[i], dataStart);
    }
    r := Some(specs);
  }

  lemma StartsInData(t: Raw, dataStart: nat)
    requires WellFormed(t)
    ensures dataStart <= SpecOf(t, dataStart).offset
  {
  }

  /** Sorting by start and comparing neighbours finds every overlap. */
  method NoOverlap(specs: seq<Spec>, dataStart: nat) returns (apart: bool)
    requires forall i | 0 <= i < |specs| :: 0 < specs[i].len && dataStart <= specs[i].offset
    ensures apart <==> forall i, j | 0 <= i < j < |specs| :: Disjoint(specs[i], specs[j])
  {
    hide Disjoint;
    var order := SortByStart(specs);
    var previousEnd := dataStart;
    for k := 0 to |order|
      invariant previousEnd == if k == 0 then dataStart else specs[order[k - 1]].End()
      invariant Chained(specs, order, dataStart, k)
    {
      if specs[order[k]].offset < previousEnd {
        OverlapFound(specs, order, k);
        return false;
      }
      previousEnd := specs[order[k]].End();
    }
    forall i, j | 0 <= i < j < |specs| ensures Disjoint(specs[i], specs[j]) {
      ChainedIsDisjoint(specs, order, dataStart, i, j);
    }
    apart := true;
  }

  ghost function SpecsOf(tensors: seq<Raw>, dataStart: nat): seq<Spec> {
    seq(|tensors|, i requires 0 <= i < |tensors| => if WellFormed(tensors[i]) then SpecOf(tensors[i], dataStart)
        else Spec([], F32, 0, 0))
  }
}
