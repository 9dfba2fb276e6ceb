/** `KVCache` (src/engine/cache.rs): per layer one flat buffer with a fixed stride per head that grows by
    doubling. */
module StridedKv {
  import opened Nonlinear
  import opened Wrappers

  // ---------------------------------------------------------------- strips

  /** Head `h`'s strip of a flat buffer. */
  function Strip(buffer: seq<real>, stride: nat, h: nat): (strip: seq<real>)
    requires h * stride + stride <= |buffer|
    ensures |strip| == stride
  {
    buffer[h * stride..h * stride + stride]
  }

  /** A strip with `xs` written at `at`. */
  function Overwritten(strip: seq<real>, at: nat, xs: seq<real>): seq<real>
    requires at + |xs| <= |strip|
  {
    strip[..at] + xs + strip[at + |xs|..]
  }

  /** The strips of the first `done` heads have their block of `source` written at `at`; the others do not. */
  ghost predicate Written(before: seq<real>, after: seq<real>, stride: nat, at: nat, source: seq<real>, block: nat,
      count: nat, heads: nat, done: nat)
    requires |before| == |after| == heads * stride && at + count <= stride && done <= heads && count <= block &&
             heads * block <= |source|
  {
    forall h | 0 <= h < heads ::
      MulSteps(h, heads, stride);
      MulSteps(h, heads, block);
      Strip(after, stride, h) == if h < done then Overwritten(Strip(before, stride, h), at,
          source[h * block..h * block + count]) else Strip(before, stride, h)
  }

  /** Per head, `count` floats of `source` are copied into the head's strip at `at`. */
  method CopyHeads(target: seq<real>, stride: nat, at: nat, source: seq<real>, block: nat, count: nat, heads: nat)
      returns (r: seq<real>)
    requires |target| == heads * stride && at + count <= stride && count <= block && heads * block <= |source|
    ensures |r| == |target| && Written(target, r, stride, at, source, block, count, heads, heads)
  {
    r := target;
    for h := 0 to heads
      invariant |r| == |target| && Written(target, r, stride, at, source, block, count, heads, h)
    {
      MulSteps(h, heads, stride);
      MulSteps(h, heads, block);
      WriteOne(target, r, stride, at, source, block, count, heads, h);
      r := r[..h * stride + at] + source[h * block..h * block + count] + r[h * stride + at + count..];
    }
  }

  lemma WriteOne(target: seq<real>, before: seq<real>, stride: nat, at: nat, source: seq<real>, block: nat, count: nat,
      heads: nat, h: nat)
    requires |target| == |before| == heads * stride && at + count <= stride && h < heads && count <= block &&
             heads * block <= |source|
    requires h * stride + stride <= |before| && h * block + block <= |source|
    requires Written(target, before, stride, at, source, block, count, heads, h)
    ensures var after := before[..h * stride + at] + source[h * block..h * block + count] +
            before[h * stride + at + count..];
            |after| == |target| && Written(target, after, stride, at, source, block, count, heads, h + 1)
  {
    hide Overwritten, Strip;
    var xs := source[h * block..h * block + count];
    var after := before[..h * stride + at] + xs + before[h * stride + at + |xs|..];
    forall g | 0 <= g < heads
      ensures |after| == |before| && g * stride + stride <= |before| && g * block + block <= |source|
      ensures Strip(after, stride, g) == if g == h then Overwritten(Strip(before, stride, g), at, xs)
              else Strip(before, stride, g)
    {
      MulSteps(g, heads, stride);
      MulSteps(g, heads, block);
      StripWrite(before, stride, h, at, xs, g);
    }
  }

  lemma StripWrite(before: seq<real>, stride: nat, h: nat, at: nat, xs: seq<real>, g: nat)
    requires h * stride + stride <= |before| && g * stride + stride <= |before| && at + |xs| <= stride
    ensures var after := before[..h * stride + at] + xs + before[h * stride + at + |xs|..];
            |after| == |before| && Strip(after, stride, g) == if g == h then
                Overwritten(Strip(before, stride, g), at, xs) else Strip(before, stride, g)
  {
    hide Strip, Overwritten;
    MulSteps(g, h, stride);
    MulSteps(h, g, stride);
    StripWriteAt(before, stride, h, h * stride, at, xs, g, g * stride);
  }

  lemma StripWriteAt(before: seq<real>, stride: nat, h: nat, start: nat, at: nat, xs: seq<real>, g: nat, other: nat)
    requires start == h * stride && other == g * stride && start + stride <= |before| && other + stride <= |before| &&
             at + |xs| <= stride
    requires if g == h then other == start else other + stride <= start || start + stride <= other
    ensures var after := before[..start + at] + xs + before[start + at + |xs|..];
            |after| == |before| && Strip(after, stride, g) == if g == h then
                Overwritten(Strip(before, stride, g), at, xs) else Strip(before, stride, g)
  {
    hide Overwritten;
    SliceWrite(before, stride, start, at, xs, other);
    if other == start && g != h {
      EmptyWrite(Strip(before, stride, g), at, xs);
    }
  }

  /** Writing inside the slice at `start` overwrites that slice and no disjoint one. */
  lemma SliceWrite(before: seq<real>, stride: nat, start: nat, at: nat, xs: seq<real>, other: nat)
    requires start + stride <= |before| && other + stride <= |before| && at + |xs| <= stride
    requires other == start || other + stride <= start || start + stride <= other
    ensures var after := before[..start + at] + xs + before[start + at + |xs|..];
            |after| == |before|
            && after[other..other + stride] == if other == start then Overwritten(before[other..other + stride], at, xs)
                else before[other..other + stride]
  {
  }

  lemma EmptyWrite(strip: seq<real>, at: nat, xs: seq<real>)
    requires strip == [] && at + |xs| <= |strip|
    ensures Overwritten(strip, at, xs) == strip
  {
  }

  // ---------------------------------------------------------------- what a layer holds

  /** Per head, the first `used` floats of its strip. */
  function Contents(buffer: seq<real>, stride: nat, used: nat, heads: nat): (c: seq<seq<real>>)
    requires |buffer| == heads * stride && used <= stride
    ensures |c| == heads
  {
    seq(heads, h requires 0 <= h < heads =>
      MulSteps(h, heads, stride);
      Strip(buffer, stride, h)[..used])
  }

  /** Copying the used part of every strip into a buffer with a larger stride keeps the contents. */
  lemma GrownContents(source: seq<real>, block: nat, used: nat, heads: nat, before: seq<real>, after: seq<real>,
      stride: nat)
    requires |source| == heads * block && used <= block && used <= stride && |before| == |after| == heads * stride
    requires Written(before, after, stride, 0, source, block, used, heads, heads)
    ensures Contents(after, stride, used, heads) == Contents(source, block, used, heads)
  {
    hide Overwritten, Strip;
    var a, b := Contents(after, stride, used, heads), Contents(source, block, used, heads);
    forall h | 0 <= h < heads ensures a[h] == b[h] {
      MulSteps(h, heads, stride);
      MulSteps(h, heads, block);
      OverwrittenFront(Strip(before, stride, h), source[h * block..h * block + used]);
      StripFront(source, block, h, used);
    }
  }

  lemma OverwrittenFront(strip: seq<real>, xs: seq<real>)
    requires |xs| <= |strip|
    ensures |Overwritten(strip, 0, xs)| == |strip| && Overwritten(strip, 0, xs)[..|xs|] == xs
  {
  }

  lemma StripFront(buffer: seq<real>, stride: nat, h: nat, used: nat)
    requires h * stride + stride <= |buffer| && used <= stride
    ensures Strip(buffer, stride, h)[..used] == buffer[h * stride..h * stride + used]
  {
  }

  /** Writing a block after the used part of every strip appends it to every head. */
  lemma AppendedContents(before: seq<real>, after: seq<real>, stride: nat, used: nat, source: seq<real>, count: nat,
      heads: nat)
    requires |before| == |after| == heads * stride && used + count <= stride && heads * count <= |source|
    requires Written(before, after, stride, used, source, count, count, heads, heads)
    ensures Contents(after, stride, used + count, heads) == Joined(Contents(before, stride, used, heads), source, count)
  {
    hide Overwritten, Strip;
    var a, b := Contents(after, stride, used + count, heads),
        Joined(Contents(before, stride, used, heads), source, count);
    forall h | 0 <= h < heads ensures a[h] == b[h] {
      MulSteps(h, heads, stride);
      MulSteps(h, heads, count);
      OverwrittenAfter(Strip(before, stride, h), used, source[h * count..h * count + count]);
    }
  }

  lemma OverwrittenAfter(strip: seq<real>, at: nat, xs: seq<real>)
    requires at + |xs| <= |strip|
    ensures |Overwritten(strip, at, xs)| == |strip| && Overwritten(strip, at, xs)[..at + |xs|] == strip[..at] + xs
  {
  }

  /** Each head's floats followed by its block of `source`. */
  function Joined(c: seq<seq<real>>, source: seq<real>, count: nat): (r: seq<seq<real>>)
    requires |c| * count <= |source|
    ensures |r| == |c|
  {
    seq(|c|, h requires 0 <= h < |c| =>
      MulSteps(h, |c|, count);
      c[h] + source[h * count..h * count + count])
  }

  /** The used part of every head, without what lies between. */
  method CompactOf(source: seq<real>, stride: nat, used: nat, heads: nat) returns (compact: seq<real>)
    requires |source| == heads * stride && used <= stride
    ensures |compact| == heads * used && Contents(compact, used, used, heads) == Contents(source, stride, used, heads)
  {
    hide Contents, Written;
    var zeros := seq(heads * used, _ => 0.0);
    compact := CopyHeads(zeros, used, 0, source, stride, used, heads);
    GrownContents(source, stride, used, heads, zeros, compact, used);
  }

  // ---------------------------------------------------------------- one layer

  datatype LayerView = LayerView(heads: nat, dim: nat, len: nat, keys: seq<seq<real>>, values: seq<seq<real>>)

  class KVCacheLayer {
    var key: seq<real>
    var value: seq<real>
    const numHeads: nat
    const headDim: nat
    var currentLen: nat
    var capacityLen: nat

    ghost predicate Valid()
      reads this
    {
      |key| == |value| == numHeads * (capacityLen * headDim) && currentLen <= capacityLen
    }

    ghost function View(): LayerView
      requires Valid()
      reads this
    {
      MulSteps(currentLen, capacityLen, headDim);
      var stride, used := capacityLen * headDim, currentLen * headDim;
      LayerView(numHeads, headDim, currentLen, Contents(key, stride, used, numHeads),
          Contents(value, stride, used, numHeads))
    }

    lemma ViewFields()
      requires Valid()
      ensures View().heads == numHeads == |View().keys| == |View().values| && View().dim == headDim &&
              View().len == currentLen
    {
    }

    constructor (numHeads: nat, headDim: nat)
      ensures this.numHeads == numHeads && this.headDim == headDim && capacityLen == 0 && Valid()
      ensures View() == Empty(numHeads, headDim)
    {
      this.numHeads, this.headDim := numHeads, headDim;
      key, value, currentLen, capacityLen := [], [], 0, 0;
    }

    /** Growth keeps every head's contents and never passes `maxLen`. */
    method EnsureCapacity(required: nat, maxLen: nat) returns (ok: bool)
      requires Valid()
      modifies this`key, this`value, this`capacityLen
      ensures Valid() && View() == old(View())
      ensures ok <==> required <= old(capacityLen) || required <= maxLen
      ensures ok ==> required <= capacityLen
      ensures old(capacityLen) <= maxLen ==> capacityLen <= maxLen
    {
      hide Contents;
      if required <= capacityLen {
        return true;
      }
      var next := if capacityLen < 64 then 64 else capacityLen;
      while next < required
        invariant 0 < next
        decreases required - next
      {
        next := next * 2;
      }
      next := if maxLen < next then maxLen else next;
      if next < required {
        return false;
      }
      Grow(next);
      ok := true;
    }

    /** Every head's used part moves to a buffer with a larger stride. */
    method Grow(next: nat)
      requires Valid() && capacityLen < next
      modifies this`key, this`value, this`capacityLen
      ensures Valid() && View() == old(View()) && capacityLen == next
    {
      hide Contents, Written;
      var oldHeadLen, newHeadLen, used := capacityLen * headDim, next * headDim, currentLen * headDim;
      MulSteps(currentLen, capacityLen, headDim);
      MulSteps(currentLen, next, headDim);
      var zeros := seq(numHeads * newHeadLen, _ => 0.0);
      var newKey := CopyHeads(zeros, newHeadLen, 0, key, oldHeadLen, used, numHeads);
      var newValue := CopyHeads(zeros, newHeadLen, 0, value, oldHeadLen, used, numHeads);
      GrownContents(key, oldHeadLen, used, numHeads, zeros, newKey, newHeadLen);
      GrownContents(value, oldHeadLen, used, numHeads, zeros, newValue, newHeadLen);
      key, value, capacityLen := newKey, newValue, next;
    }

    /** Keeping the first `n` rows of every head. */
    method SetLen(n: nat)
      requires Valid() && n <= capacityLen
      modifies this`currentLen
      ensures Valid() && View().heads == old(View()).heads && View().dim == old(View()).dim && View().len == n
      ensures n <= old(currentLen) ==> View() == Cut(old(View()), n)
    {
      ghost var before := View();
      ghost var used := currentLen * headDim;
      MulSteps(currentLen, capacityLen, headDim);
      MulSteps(n, capacityLen, headDim);
      if n <= currentLen {
        MulSteps(n, currentLen, headDim);
        CutContents(key, capacityLen * headDim, used, n * headDim, numHeads);
        CutContents(value, capacityLen * headDim, used, n * headDim, numHeads);
      }
      currentLen := n;
    }

    /** Every head holds `len` rows of `dim` floats. */
    lemma ViewSized()
      requires Valid()
      ensures Sized(View())
    {
      hide Contents;
      MulSteps(currentLen, capacityLen, headDim);
      ContentsSized(key, capacityLen * headDim, currentLen * headDim, numHeads);
      ContentsSized(value, capacityLen * headDim, currentLen * headDim, numHeads);
    }

    /** Writing `n` rows per head after the current ones. */
    method Write(n: nat, k: seq<real>, v: seq<real>)
      requires Valid() && currentLen + n <= capacityLen && |k| == |v| == numHeads * (n * headDim)
      modifies this`key, this`value, this`currentLen
      ensures Valid() && View() == Appended(old(View()), n, k, v)
    {
      hide Contents, Written;
      var stride, used, count := capacityLen * headDim, currentLen * headDim, n * headDim;
      MulSteps(currentLen + n, capacityLen, headDim);
      assert (currentLen + n) * headDim == used + count;
      var newKey := CopyHeads(key, stride, used, k, count, count, numHeads);
      var newValue := CopyHeads(value, stride, used, v, count, count, numHeads);
      AppendedContents(key, newKey, stride, used, k, count, numHeads);
      AppendedContents(value, newValue, stride, used, v, count, numHeads);
      key, value, currentLen := newKey, newValue, currentLen + n;
    }
  }

  function Empty(heads: nat, dim: nat): LayerView {
    LayerView(heads, dim, 0, seq(heads, _ => []), seq(heads, _ => []))
  }

  ghost predicate Sized(l: LayerView) {
    |l.keys| == |l.values| == l.heads && forall h | 0 <= h < l.heads :: |l.keys[h]| == |l.values[h]| == l.len * l.dim
  }

  function Take(c: seq<seq<real>>, n: nat): seq<seq<real>> {
    seq(|c|, h requires 0 <= h < |c| => if n <= |c[h]| then c[h][..n] else c[h])
  }

  /** The first `n` rows of every head. */
  function Cut(l: LayerView, n: nat): LayerView {
    l.(len := n, keys := Take(l.keys, n * l.dim), values := Take(l.values, n * l.dim))
  }

  lemma ContentsSized(buffer: seq<real>, stride: nat, used: nat, heads: nat)
    requires |buffer| == heads * stride && used <= stride
    ensures forall h | 0 <= h < heads :: |Contents(buffer, stride, used, heads)[h]| == used
  {
    forall h | 0 <= h < heads ensures |Contents(buffer, stride, used, heads)[h]| == used {
      MulSteps(h, heads, stride);
    }
  }

  lemma CutContents(buffer: seq<real>, stride: nat, used: nat, n: nat, heads: nat)
    requires |buffer| == heads * stride && n <= used <= stride
    ensures Contents(buffer, stride, n, heads) == Take(Contents(buffer, stride, used, heads), n)
  {
    var a, b := Contents(buffer, stride, n, heads), Take(Contents(buffer, stride, used, heads), n);
    forall h | 0 <= h < heads ensures a[h] == b[h] {
      MulSteps(h, heads, stride);
    }
  }

  /** `n` more rows per head. */
  ghost function Appended(l: LayerView, n: nat, k: seq<real>, v: seq<real>): LayerView
    requires |l.keys| == |l.values| == l.heads && |k| == |v| == l.heads * (n * l.dim)
  {
    l.(len := l.len + n, keys := Joined(l.keys, k, n * l.dim), values := Joined(l.values, v, n * l.dim))
  }

  // ---------------------------------------------------------------- the cache

  datatype Tensor = Tensor(shape: seq<nat>, data: seq<real>) {
    /** A tensor has as many floats as its shape says. */
    ghost predicate Valid() {
      |shape| == 3 ==> |data| == shape[0] * (shape[1] * shape[2])
    }
  }

  datatype Snapshot = Snapshot(lengths: seq<Option<nat>>, currentLen: nat)

  type CacheView = seq<Option<LayerView>>

  /** The layer that an append finds or creates. */
  ghost function Found(view: CacheView, idx: nat, heads: nat, dim: nat): LayerView
    requires idx < |view|
  {
    if view[idx].Some? then view[idx].value else Empty(heads, dim)
  }

  ghost function ViewOf(layers: seq<KVCacheLayer?>): CacheView
    requires forall i | 0 <= i < |layers| && layers[i] != null :: layers[i].Valid()
    reads layers
  {
    seq(|layers|, i requires 0 <= i < |layers| && (layers[i] != null ==> layers[i].Valid()) reads layers =>
      if layers[i] == null then None else Some(layers[i].View()))
  }

  ghost function CapacitiesOf(layers: seq<KVCacheLayer?>): seq<Option<nat>>
    reads layers
  {
    seq(|layers|, i requires 0 <= i < |layers| reads layers => if layers[i] == null then None
        else Some(layers[i].capacityLen))
  }

  class KVCache {
    var layers: seq<KVCacheLayer?>
    var currentLen: nat
    const maxLen: nat

    ghost predicate Valid()
      reads this`layers, layers
    {
      && (forall i, j | 0 <= i < j < |layers| && layers[i] != null :: layers[i] != layers[j])
      && forall i | 0 <= i < |layers| && layers[i] != null :: layers[i].Valid() && layers[i].capacityLen <= maxLen
    }

    ghost function View(): (view: CacheView)
      requires Valid()
      reads this`layers, layers
      ensures |view| == |layers|
    {
      ViewOf(layers)
    }

    constructor (numLayers: nat, maxLen: nat)
      ensures Valid() && this.maxLen == maxLen && currentLen == 0 && View() == seq(numLayers, _ => None)
    {
      layers, currentLen, this.maxLen := seq(numLayers, _ => null), 0, maxLen;
    }

    /** The part that both appends share: find or create the layer, check it, grow it, write the rows. */
    method AppendRows(idx: nat, heads: nat, dim: nat, n: nat, k: seq<real>, v: seq<real>) returns (ok: bool)
      requires Valid() && idx < |layers| && |k| == |v| == heads * (n * dim)
      modifies this, layers
      ensures Valid() && forall l | l in layers && l != null :: l in old(layers) || fresh(l)
      ensures var l := Found(old(View()), idx, heads, dim);
              && (ok <==> l.heads == heads && l.dim == dim && l.len + n <= maxLen)
              && View() == old(View())[idx := Some(if ok then Appended(l, n, k, v) else l)]
              && currentLen == if ok && idx == 0 then l.len + n else old(currentLen)
    {
      hide Contents, Joined, KVCacheLayer.View, View, Appended;
      var layer := FindOrCreate(idx, heads, dim);
      layer.ViewFields();
      if layer.numHeads != heads || layer.headDim != dim || layer.currentLen + n > maxLen {
        return false;
      }
      StoreRows(layer, idx, n, k, v);
      if idx == 0 {
        currentLen := layer.currentLen;
      }
      ok := true;
    }

    method StoreRows(layer: KVCacheLayer, ghost idx: nat, n: nat, k: seq<real>, v: seq<real>)
      requires Valid() && idx < |layers| && layers[idx] == layer && layer.currentLen + n <= maxLen
      requires |k| == |v| == layer.numHeads * (n * layer.headDim)
      modifies layer
      ensures Valid() && layer.currentLen == old(layer.currentLen) + n
      ensures View() == old(View())[idx := Some(Appended(old(layer.View()), n, k, v))]
    {
      hide Contents, Joined, KVCacheLayer.View;
      ghost var view := View();
      layer.ViewFields();
      var grown := layer.EnsureCapacity(layer.currentLen + n, maxLen);
      layer.Write(n, k, v);
      layer.ViewFields();
      assert forall i | 0 <= i < |layers| && i != idx && layers[i] != null ::
          layers[i].Valid() && Some(layers[i].View()) == view[i];
    }

    /** `get_or_insert_with` */
    method FindOrCreate(idx: nat, heads: nat, dim: nat) returns (layer: KVCacheLayer)
      requires Valid() && idx < |layers|
      modifies this`layers
      ensures Valid() && |layers| == |old(layers)| && layers[idx] == layer && (layer in old(layers) || fresh(layer))
      ensures forall l | l in layers && l != null :: l in old(layers) || fresh(l)
      ensures layer.View() == Found(old(View()), idx, heads, dim)
      ensures View() == old(View())[idx := Some(Found(old(View()), idx, heads, dim))]
    {
      hide Contents, KVCacheLayer.View;
      ghost var view := View();
      if layers[idx] == null {
        var created := new KVCacheLayer(heads, dim);
        layers := layers[idx := created];
      }
      layer := layers[idx];
      assert forall i | 0 <= i < |layers| && i != idx && layers[i] != null :: Some(layers[i].View()) == view[i];
    }

    /** Appending `[heads, n, dim]` tensors to a layer. */
    method Append(idx: nat, k: Tensor, v: Tensor) returns (ok: bool)
      requires Valid() && k.Valid() && v.Valid()
      modifies this, layers
      ensures Valid() && forall l | l in layers && l != null :: l in old(layers) || fresh(l)
      ensures if idx < |old(layers)| && |k.shape| == 3 && k.shape == v.shape then
                var l := Found(old(View()), idx, k.shape[0], k.shape[2]);
                && (ok <==> l.heads == k.shape[0] && l.dim == k.shape[2] && l.len + k.shape[1] <= maxLen)
                && View() == old(View())[idx := Some(if ok then Appended(l, k.shape[1], k.data, v.data) else l)]
                && currentLen == if ok && idx == 0 then l.len + k.shape[1] else old(currentLen)
              else !ok && View() == old(View()) && currentLen == old(currentLen)
    {
      if idx >= |layers| || |k.shape| != 3 || |v.shape| != 3 || k.shape != v.shape {
        return false;
      }
      ok := AppendRows(idx, k.shape[0], k.shape[2], k.shape[1], k.data, v.data);
    }

    /** Appending one `[heads, dim]` row to a layer. */
    method AppendDecodeOneRaw(idx: nat, heads: nat, dim: nat, k: seq<real>, v: seq<real>) returns (ok: bool)
      requires Valid()
      modifies this, layers
      ensures Valid() && forall l | l in layers && l != null :: l in old(layers) || fresh(l)
      ensures if idx < |old(layers)| && |k| == |v| == heads * dim then
                var l := Found(old(View()), idx, heads, dim);
                && (ok <==> l.heads == heads && l.dim == dim && l.len + 1 <= maxLen)
                && View() == old(View())[idx := Some(if ok then Appended(l, 1, k, v) else l)]
                && currentLen == if ok && idx == 0 then l.len + 1 else old(currentLen)
              else !ok && View() == old(View()) && currentLen == old(currentLen)
    {
      if idx >= |layers| || |k| != heads * dim || |v| != heads * dim {
        return false;
      }
      assert 1 * dim == dim;
      ok := AppendRows(idx, heads, dim, 1, k, v);
    }

    /** The compact copy of a layer: per head, exactly the rows appended so far. */
    method Get(idx: nat) returns (r: Option<(Tensor, Tensor)>)
      requires Valid()
      ensures r.Some? <==> idx < |layers| && layers[idx] != null
      ensures r.Some? ==>
                var l, k, v := layers[idx].View(), r.value.0, r.value.1;
                && k.shape == v.shape == [l.heads, l.len, l.dim] && |k.data| == |v.data| == l.heads * (l.len * l.dim)
                && Contents(k.data, l.len * l.dim, l.len * l.dim, l.heads) == l.keys
                && Contents(v.data, l.len * l.dim, l.len * l.dim, l.heads) == l.values
    {
      hide Contents;
      if idx >= |layers| || layers[idx] == null {
        return None;
      }
      var layer := layers[idx];
      MulSteps(layer.currentLen, layer.capacityLen, layer.headDim);
      var stride, used := layer.capacityLen * layer.headDim, layer.currentLen * layer.headDim;
      var k := CompactOf(layer.key, stride, used, layer.numHeads);
      var v := CompactOf(layer.value, stride, used, layer.numHeads);
      var shape := [layer.numHeads, layer.currentLen, layer.headDim];
      r := Some((Tensor(shape, k), Tensor(shape, v)));
    }

    method TakeSnapshot() returns (s: Snapshot)
      requires Valid()
      ensures s == Snapshot(Lengths(View()), currentLen)
    {
      var lengths: seq<Option<nat>> := [];
      for i := 0 to |layers|
        invariant |lengths| == i
        invariant forall j | 0 <= j < i :: lengths[j] == if layers[j] == null then None else Some(layers[j].currentLen)
      {
        lengths := lengths + [if layers[i] == null then None else Some(layers[i].currentLen)];
      }
      s := Snapshot(lengths, currentLen);
    }

    ghost function Capacities(): (capacities: seq<Option<nat>>)
      reads this`layers, layers
      ensures |capacities| == |layers|
    {
      CapacitiesOf(layers)
    }

    /** Restoring cuts every layer back to its length in the snapshot, and layers that had none to nothing. */
    method Restore(s: Snapshot) returns (ok: bool)
      requires Valid()
      modifies this`currentLen, layers
      ensures Valid() && |View()| == |old(View())|
      ensures ok <==> |s.lengths| == |layers| && AllFit(old(Capacities()), s.lengths, |layers|)
      ensures ok ==> currentLen == s.currentLen && AllRestored(old(View()), s.lengths, View(), |layers|)
    {
      hide Contents, KVCacheLayer.View, View, Fits, RestoredAs;
      if |s.lengths| != |layers| {
        return false;
      }
      ghost var view, capacities := View(), Capacities();
      for i := 0 to |layers|
        invariant Valid() && |View()| == |layers| && Capacities() == capacities
        invariant AllFit(capacities, s.lengths, i) && AllRestored(view, s.lengths, View(), i)
        invariant forall j | i <= j < |layers| :: View()[j] == view[j]
      {
        var fits := RestoreLayer(i, s.lengths[i]);
        if !fits {
          return false;
        }
      }
      currentLen := s.currentLen;
      ok := true;
    }

    method RestoreLayer(i: nat, length: Option<nat>) returns (ok: bool)
      requires Valid() && i < |layers|
      modifies layers
      ensures Valid() && |View()| == |layers| == |old(View())| && Capacities() == old(Capacities())
      ensures forall j | 0 <= j < |layers| && j != i :: View()[j] == old(View()[j])
      ensures ok <==> Fits(old(Capacities())[i], length)
      ensures ok ==> RestoredAs(old(View())[i], length, View()[i])
    {
      hide Contents, KVCacheLayer.View, Cut;
      var layer := layers[i];
      ghost var view := View();
      if layer == null {
        return length.None? || length.value == 0;
      }
      var n := if length.Some? then length.value else 0;
      if n > layer.capacityLen {
        return false;
      }
      layer.ViewFields();
      layer.SetLen(n);
      assert forall j | 0 <= j < |layers| && j != i && layers[j] != null :: Some(layers[j].View()) == view[j];
      ok := true;
    }

    lemma ViewsSized()
      requires Valid()
      ensures forall i | 0 <= i < |layers| && layers[i] != null :: View()[i].Some? && Sized(View()[i].value)
    {
      forall i | 0 <= i < |layers| && layers[i] != null ensures View()[i].Some? && Sized(View()[i].value) {
        layers[i].ViewSized();
      }
    }
  }

  ghost function Lengths(view: CacheView): seq<Option<nat>> {
    seq(|view|, i requires 0 <= i < |view| => if view[i].None? then None else Some(view[i].value.len))
  }

  /** Whether a snapshot length fits a layer of that capacity. */
  ghost predicate Fits(capacity: Option<nat>, length: Option<nat>) {
    length.Some? ==> if capacity.None? then length.value == 0 else length.value <= capacity.value
  }

  ghost predicate AllFit(capacities: seq<Option<nat>>, lengths: seq<Option<nat>>, n: nat)
    requires n <= |capacities| == |lengths|
  {
    forall i | 0 <= i < n :: Fits(capacities[i], lengths[i])
  }

  ghost predicate AllRestored(before: CacheView, lengths: seq<Option<nat>>, after: CacheView, n: nat)
    requires n <= |before| == |lengths| == |after|
  {
    forall i | 0 <= i < n :: RestoredAs(before[i], lengths[i], after[i])
  }

  /** What restoring makes of one layer. */
  ghost predicate RestoredAs(before: Option<LayerView>, length: Option<nat>, after: Option<LayerView>) {
    var n := if length.Some? then length.value else 0;
    if before.None? then after.None?
    else after.Some? && after.value.len == n && (n <= before.value.len ==> after == Some(Cut(before.value, n)))
  }

  // ---------------------------------------------------------------- rolling back any run of appends

  /** A layer that has only been appended to. */
  ghost predicate Grew(a: LayerView, b: LayerView) {
    && Sized(a) && Sized(b) && a.heads == b.heads && a.dim == b.dim && a.len <= b.len
    && forall h | 0 <= h < a.heads :: a.keys[h] <= b.keys[h] && a.values[h] <= b.values[h]
  }

  /** A cache that has only been appended to. */
  ghost predicate AllGrew(a: CacheView, b: CacheView) {
    |a| == |b| && forall i | 0 <= i < |a| && a[i].Some? :: b[i].Some? && Grew(a[i].value, b[i].value)
  }

  lemma AppendedGrew(l: LayerView, n: nat, k: seq<real>, v: seq<real>)
    requires Sized(l) && |k| == |v| == l.heads * (n * l.dim)
    ensures Grew(l, Appended(l, n, k, v))
  {
    hide Joined;
    JoinedGrew(l.keys, k, n * l.dim, l.len * l.dim);
    JoinedGrew(l.values, v, n * l.dim, l.len * l.dim);
    LengthsAdd(l.len, n, l.dim);
  }

  lemma LengthsAdd(a: nat, b: nat, d: nat)
    ensures (a + b) * d == a * d + b * d
  {
  }

  lemma JoinedGrew(c: seq<seq<real>>, source: seq<real>, count: nat, len: nat)
    requires |c| * count <= |source| && forall h | 0 <= h < |c| :: |c[h]| == len
    ensures var r := Joined(c, source, count); forall h | 0 <= h < |c| :: |r[h]| == len + count && c[h] <= r[h]
  {
    forall h | 0 <= h < |c|
      ensures |Joined(c, source, count)[h]| == len + count && c[h] <= Joined(c, source, count)[h]
    {
      MulSteps(h, |c|, count);
    }
  }

  lemma GrewCut(a: LayerView, b: LayerView)
    requires Grew(a, b)
    ensures Cut(b, a.len) == a
  {
    MulSteps(a.len, b.len, a.dim);
    TakeBack(a.keys, b.keys, a.len * a.dim);
    TakeBack(a.values, b.values, a.len * a.dim);
  }

  lemma TakeBack(a: seq<seq<real>>, b: seq<seq<real>>, n: nat)
    requires |a| == |b| && forall h | 0 <= h < |a| :: |a[h]| == n && a[h] <= b[h]
    ensures Take(b, n) == a
  {
    forall h | 0 <= h < |a| ensures Take(b, n)[h] == a[h] {}
  }

  lemma GrewTrans(a: CacheView, b: CacheView, c: CacheView)
    requires AllGrew(a, b) && AllGrew(b, c)
    ensures AllGrew(a, c)
  {
    forall i | 0 <= i < |a| && a[i].Some? ensures c[i].Some? && Grew(a[i].value, c[i].value) {
      forall h | 0 <= h < a[i].value.heads
        ensures a[i].value.keys[h] <= c[i].value.keys[h] && a[i].value.values[h] <= c[i].value.values[h]
      {
        assert a[i].value.keys[h] <= b[i].value.keys[h] <= c[i].value.keys[h];
        assert a[i].value.values[h] <= b[i].value.values[h] <= c[i].value.values[h];
      }
    }
  }

  datatype Rows =
    | Block(layer: nat, k: Tensor, v: Tensor)
    | One(layer: nat, heads: nat, dim: nat, key: seq<real>, value: seq<real>)

  /** `n` rows for every head of one layer. */
  datatype Piece = Piece(layer: nat, heads: nat, n: nat, dim: nat, k: seq<real>, v: seq<real>)

  ghost predicate Formed(rows: Rows) {
    rows.Block? ==> rows.k.Valid() && rows.v.Valid()
  }

  /** What an append brings, unless its shapes are refused. */
  ghost function PieceOf(rows: Rows): (p: Option<Piece>)
    requires Formed(rows)
    ensures p.Some? ==> |p.value.k| == |p.value.v| == p.value.heads * (p.value.n * p.value.dim)
  {
    match rows
    case Block(layer, k, v) =>
      if |k.shape| == 3 && k.shape == v.shape then Some(Piece(layer, k.shape[0], k.shape[1], k.shape[2], k.data,
          v.data)) else None
    case One(layer, heads, dim, key, value) =>
      assert 1 * dim == dim;
      if |key| == |value| == heads * dim then Some(Piece(layer, heads, 1, dim, key, value)) else None
  }

  ghost predicate AllSized(view: CacheView) {
    forall i | 0 <= i < |view| && view[i].Some? :: Sized(view[i].value)
  }

  ghost predicate Accepts(l: LayerView, p: Piece, maxLen: nat) {
    l.heads == p.heads && l.dim == p.dim && l.len + p.n <= maxLen
  }

  /** One append on the contents alone: its rows join the layer's, or the layer, perhaps new, stays as it is. */
  ghost function After(view: CacheView, maxLen: nat, rows: Rows): (after: CacheView)
    requires AllSized(view) && Formed(rows)
    ensures AllSized(after) && |after| == |view|
  {
    var p := PieceOf(rows);
    if p.None? || p.value.layer >= |view| then view
    else
      var l := Found(view, p.value.layer, p.value.heads, p.value.dim);
      assert Sized(l);
      if !Accepts(l, p.value, maxLen) then view[p.value.layer := Some(l)]
      else
        AppendedGrew(l, p.value.n, p.value.k, p.value.v);
        view[p.value.layer := Some(Appended(l, p.value.n, p.value.k, p.value.v))]
  }

  /** Any run of appends on the contents alone. */
  ghost function AfterAll(view: CacheView, maxLen: nat, appends: seq<Rows>): (after: CacheView)
    requires AllSized(view) && WellFormed(appends)
    ensures AllSized(after) && |after| == |view|
  {
    if |appends| == 0 then view
    else After(AfterAll(view, maxLen, appends[..|appends| - 1]), maxLen, appends[|appends| - 1])
  }

  /** A layer of the snapshot is as it was; one created since is empty. */
  ghost predicate RolledBack(before: CacheView, after: CacheView) {
    && |after| == |before|
    && forall i | 0 <= i < |before| ::
         if before[i].Some? then after[i] == before[i] else after[i].None? || after[i].value.len == 0
  }

  lemma RestoredRollsBack(before: CacheView, grown: CacheView, after: CacheView)
    requires |before| == |grown| == |after| && AllGrew(before, grown) &&
             AllRestored(grown, Lengths(before), after, |grown|)
    ensures RolledBack(before, after)
  {
    forall i | 0 <= i < |before| && before[i].Some? ensures after[i] == before[i] {
      assert RestoredAs(grown[i], Lengths(before)[i], after[i]);
      GrewCut(before[i].value, grown[i].value);
    }
    forall i | 0 <= i < |before| && before[i].None? ensures after[i].None? || after[i].value.len == 0 {
      assert RestoredAs(grown[i], Lengths(before)[i], after[i]);
    }
  }

  /** One append of either kind, successful or not. */
  method AppendOne(cache: KVCache, rows: Rows)
    requires cache.Valid() && Formed(rows)
    modifies cache, cache.layers
    ensures cache.Valid() && AllSized(old(cache.View())) && cache.View() == After(old(cache.View()), cache.maxLen, rows)
    ensures forall l | l in cache.layers && l != null :: l in old(cache.layers) || fresh(l)
  {
    hide Contents, KVCacheLayer.View, Appended, Sized;
    cache.ViewsSized();
    if rows.Block? {
      var ok := cache.Append(rows.layer, rows.k, rows.v);
    } else {
      assert 1 * rows.dim == rows.dim;
      var ok := cache.AppendDecodeOneRaw(rows.layer, rows.heads, rows.dim, rows.key, rows.value);
    }
  }

  lemma SameGrew(view: CacheView)
    requires AllSized(view)
    ensures AllGrew(view, view)
  {
  }

  /** An append loses nothing. */
  lemma AfterGrew(view: CacheView, maxLen: nat, rows: Rows)
    requires AllSized(view) && Formed(rows)
    ensures AllGrew(view, After(view, maxLen, rows))
  {
    hide Appended;
    SameGrew(view);
    var p := PieceOf(rows);
    if p.Some? && p.value.layer < |view| {
      var l := Found(view, p.value.layer, p.value.heads, p.value.dim);
      assert Sized(l);
      if Accepts(l, p.value, maxLen) {
        AppendedGrew(l, p.value.n, p.value.k, p.value.v);
      }
    }
  }

  lemma {:induction false} AfterAllGrew(view: CacheView, maxLen: nat, appends: seq<Rows>)
    requires AllSized(view) && WellFormed(appends)
    ensures AllGrew(view, AfterAll(view, maxLen, appends))
    decreases |appends|
  {
    hide AllGrew, After;
    if |appends| == 0 {
      SameGrew(view);
    } else {
      var n := |appends| - 1;
      AfterAllGrew(view, maxLen, appends[..n]);
      AfterGrew(AfterAll(view, maxLen, appends[..n]), maxLen, appends[n]);
      GrewTrans(view, AfterAll(view, maxLen, appends[..n]), AfterAll(view, maxLen, appends));
    }
  }

  ghost predicate WellFormed(appends: seq<Rows>) {
    forall i | 0 <= i < |appends| :: Formed(appends[i])
  }

  /** Any run of appends leaves what the same run leaves on the contents alone. */
  method AppendAll(cache: KVCache, appends: seq<Rows>)
    requires cache.Valid() && WellFormed(appends)
    modifies cache, cache.layers
    ensures cache.Valid() && |old(cache.layers)| == |cache.layers| && AllSized(old(cache.View()))
    ensures cache.View() == AfterAll(old(cache.View()), cache.maxLen, appends)
    ensures forall i | 0 <= i < |cache.layers| && cache.layers[i] != null ::
            cache.layers[i] in old(cache.layers) || fresh(cache.layers[i])
  {
    hide Contents, KVCacheLayer.View, KVCache.View, After;
    ghost var view := cache.View();
    SizedView(cache);
    assert appends[..0] == [];
    for i := 0 to |appends|
      invariant cache.Valid() && cache.View() == AfterAll(view, cache.maxLen, appends[..i])
      invariant forall j | 0 <= j < |cache.layers| && cache.layers[j] != null ::
                cache.layers[j] in old(cache.layers) || fresh(cache.layers[j])
    {
      assert appends[..i + 1][..i] == appends[..i];
      AppendOne(cache, appends[i]);
      assert forall j | 0 <= j < |cache.layers| :: cache.layers[j] in cache.layers;
    }
    assert appends[..|appends|] == appends;
  }

  lemma SizedView(cache: KVCache)
    requires cache.Valid()
    ensures AllSized(cache.View()) && |cache.View()| == |cache.layers|
  {
    cache.ViewsSized();
  }

  /** Whatever is appended after a snapshot, restoring the snapshot always succeeds and gives every layer's
      contents back. */
  method SpeculateAndRestore(cache: KVCache, appends: seq<Rows>)
    requires cache.Valid() && WellFormed(appends)
    modifies cache, cache.layers
    ensures cache.Valid() && RolledBack(old(cache.View()), cache.View()) && cache.currentLen == old(cache.currentLen)
  {
    hide Contents, KVCacheLayer.View, KVCache.View, AllGrew, AllRestored, AllFit, KVCache.Valid, AfterAll;
    ghost var view := cache.View();
    var snapshot := cache.TakeSnapshot();
    AppendAll(cache, appends);
    AfterAllGrew(view, cache.maxLen, appends);
    ghost var grown := cache.View();
    GrownFits(cache, view);
    var ok := cache.Restore(snapshot);
    RestoredRollsBack(view, grown, cache.View());
  }

  /** A grown cache has room for the lengths of the snapshot. */
  lemma GrownFits(cache: KVCache, view: CacheView)
    requires cache.Valid() && |view| == |cache.layers| && AllGrew(view, cache.View())
    ensures AllFit(cache.Capacities(), Lengths(view), |view|)
  {
    forall i | 0 <= i < |view| ensures Fits(cache.Capacities()[i], Lengths(view)[i]) {
      if view[i].Some? {
        assert cache.View()[i].Some? && Grew(view[i].value, cache.View()[i].value);
      }
    }
  }
}
