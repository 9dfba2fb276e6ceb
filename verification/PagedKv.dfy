/** `PagedKvCache` (src/engine/state.rs): pages of key and value rows shared between snapshots by reference
    count and copied on write. */
module PagedKv {
  import opened Nonlinear
  import opened Wrappers

  datatype Float = Finite(value: real) | NonFinite

  /** A token's key row and value row. */
  type Row = (seq<Float>, seq<Float>)

  // ---------------------------------------------------------------- growable buffers

  /** `Vec<f32>`: `ReserveExact` reserves exactly, `Extend` doubles when the reservation is too small. */
  datatype Vec = Vec(data: seq<Float>, capacity: nat) {
    function ReserveExact(additional: nat): Vec {
      if |data| + additional <= capacity then this else Vec(data, |data| + additional)
    }

    function Extend(xs: seq<Float>): Vec {
      var n := |data| + |xs|;
      Vec(data + xs, if n <= capacity then capacity else if n < 2 * capacity then 2 * capacity else n)
    }

    function Truncate(n: nat): Vec {
      if n < |data| then Vec(data[..n], capacity) else this
    }
  }

  datatype Geometry = Geometry(width: nat, maxTokens: nat, pageTokens: nat) {
    predicate Valid() {
      0 < width && 0 < maxTokens && 0 < pageTokens
    }

    /** Floats that page `q` may ever hold on each side. */
    function Limit(q: nat): nat {
      if maxTokens <= q * pageTokens then 0 else Min(pageTokens, maxTokens - q * pageTokens) * width
    }

    /** `len.div_ceil(page_tokens)` */
    function Pages(len: nat): nat
      requires Valid()
    {
      (len + pageTokens - 1) / pageTokens
    }
  }

  function Min(a: nat, b: nat): nat {
    if a < b then a else b
  }

  // ---------------------------------------------------------------- what a page stores

  function Part(row: Row, key: bool): seq<Float> {
    if key then row.0 else row.1
  }

  function Flat(rows: seq<Row>, key: bool): seq<Float> {
    if |rows| == 0 then [] else Flat(rows[..|rows| - 1], key) + Part(rows[|rows| - 1], key)
  }

  ghost predicate Wide(rows: seq<Row>, w: nat) {
    forall i | 0 <= i < |rows| :: |rows[i].0| == w && |rows[i].1| == w
  }

  /** Up to `n` rows from row `start`. */
  function RowsAt(rows: seq<Row>, start: nat, n: nat): seq<Row> {
    var first := Min(start, |rows|);
    rows[first..Min(first + n, |rows|)]
  }

  /** The rows of page `q`. */
  function PageRows(rows: seq<Row>, pageTokens: nat, q: nat): seq<Row> {
    RowsAt(rows, q * pageTokens, pageTokens)
  }

  lemma RowsAtAppend(rows: seq<Row>, row: Row, start: nat, n: nat)
    requires start <= |rows|
    ensures start + n <= |rows| ==> RowsAt(rows + [row], start, n) == RowsAt(rows, start, n)
    ensures |rows| < start + n ==> RowsAt(rows + [row], start, n) == RowsAt(rows, start, n) + [row]
    ensures |rows| < start + n ==> |RowsAt(rows, start, n)| == |rows| - start
  {
  }

  lemma RowsAtTake(rows: seq<Row>, m: nat, start: nat, n: nat)
    requires start <= m <= |rows|
    ensures start + n <= m ==> RowsAt(rows[..m], start, n) == RowsAt(rows, start, n)
    ensures m <= start + n ==>
            m - start <= |RowsAt(rows, start, n)| && RowsAt(rows[..m], start, n) == RowsAt(rows, start, n)[..m - start]
  {
    var end := Min(start + n, |rows|);
    if start + n <= m {
      SliceOfTake(rows, m, start, start + n);
    }
    if m <= start + n {
      SliceOfTake(rows, m, start, m);
      assert rows[start..m] == rows[start..end][..m - start];
    }
  }

  lemma SliceOfTake(rows: seq<Row>, m: nat, a: nat, b: nat)
    requires a <= b <= m <= |rows|
    ensures rows[..m][a..b] == rows[a..b]
  {
  }

  /** The buffer of one side of page `q` holds exactly the page's rows, within the page's limit. */
  ghost predicate Stores(g: Geometry, buffer: Vec, rows: seq<Row>, q: nat, key: bool) {
    buffer.data == Flat(PageRows(rows, g.pageTokens, q), key) && |buffer.data| <= buffer.capacity <= g.Limit(q)
  }

  lemma {:induction false} FlatLen(rows: seq<Row>, key: bool, w: nat)
    requires Wide(rows, w)
    ensures |Flat(rows, key)| == |rows| * w
  {
    if |rows| > 0 {
      FlatLen(rows[..|rows| - 1], key, w);
      assert |rows| * w == (|rows| - 1) * w + w;
    }
  }

  lemma {:induction false} FlatTake(rows: seq<Row>, key: bool, w: nat, n: nat)
    requires Wide(rows, w) && n <= |rows|
    ensures n * w <= |Flat(rows, key)| && Flat(rows, key)[..n * w] == Flat(rows[..n], key)
  {
    FlatLen(rows, key, w);
    if n == |rows| {
      assert rows[..n] == rows;
    } else {
      var front := rows[..|rows| - 1];
      FlatTake(front, key, w, n);
      assert front[..n] == rows[..n];
      assert Flat(rows, key)[..n * w] == Flat(front, key)[..n * w];
    }
  }

  /** Row `i` of a page is the `i`th block of `w` floats. */
  lemma FlatAt(rows: seq<Row>, key: bool, w: nat, i: nat)
    requires Wide(rows, w) && i < |rows|
    ensures i * w + w <= |Flat(rows, key)| && Flat(rows, key)[i * w..i * w + w] == Part(rows[i], key)
  {
    FlatTake(rows, key, w, i);
    FlatTake(rows, key, w, i + 1);
    assert (i + 1) * w == i * w + w;
    assert rows[..i + 1][..i] == rows[..i];
    assert Flat(rows, key)[i * w..i * w + w] == Flat(rows, key)[..i * w + w][i * w..];
    assert Flat(rows[..i + 1], key) == Flat(rows[..i], key) + Part(rows[i], key);
    FlatLen(rows[..i], key, w);
  }

  // ---------------------------------------------------------------- pages and token counts

  lemma PageCount(g: Geometry, len: nat)
    requires g.Valid()
    ensures len <= g.Pages(len) * g.pageTokens
    ensures 0 < len ==> 0 < g.Pages(len) && (g.Pages(len) - 1) * g.pageTokens < len
    ensures len == 0 ==> g.Pages(len) == 0
  {
    var pt, m := g.pageTokens, g.Pages(len);
    assert m * pt <= len + pt - 1 < m * pt + pt;
    MulSteps(m, 0, pt);
    MulSteps(0, m, pt);
    assert (m - 1) * pt == m * pt - pt;
  }

  /** The page that token `len` goes to is the last one, after a new page if the last one is full. */
  lemma AppendPage(g: Geometry, len: nat)
    requires g.Valid()
    ensures g.Pages(len + 1) == g.Pages(len) + (if len % g.pageTokens == 0 then 1 else 0)
    ensures g.Pages(len + 1) == len / g.pageTokens + 1
    ensures len == len / g.pageTokens * g.pageTokens + len % g.pageTokens
  {
    var pt := g.pageTokens;
    var q, t := len / pt, len % pt;
    assert len == q * pt + t;
    DivUnique(len + pt, pt, q + 1, t);
    if t == 0 {
      if pt == 1 {
        assert g.Pages(len) == len;
      } else {
        DivUnique(len + pt - 1, pt, q, pt - 1);
      }
    } else {
      DivUnique(len + pt - 1, pt, q + 1, t - 1);
    }
  }

  // ---------------------------------------------------------------- one page under append and truncate

  /** `capacity.saturating_sub(len)` */
  function Missing(capacity: nat, len: nat): nat {
    if capacity < len then 0 else capacity - len
  }

  function Appended(buffer: Vec, limit: nat, xs: seq<Float>): Vec {
    buffer.ReserveExact(Missing(limit, |buffer.data|)).Extend(xs)
  }

  lemma EmptyPage(g: Geometry, rows: seq<Row>, q: nat, key: bool)
    requires |rows| <= q * g.pageTokens
    ensures Stores(g, Vec([], g.Limit(q)), rows, q, key)
  {
    assert PageRows(rows, g.pageTokens, q) == [];
  }

  lemma AppendedRows(g: Geometry, rows: seq<Row>, row: Row, q: nat)
    requires g.Valid() && q == |rows| / g.pageTokens
    ensures PageRows(rows + [row], g.pageTokens, q) == PageRows(rows, g.pageTokens, q) + [row]
    ensures |PageRows(rows, g.pageTokens, q)| == |rows| % g.pageTokens
  {
    hide RowsAt;
    AppendPage(g, |rows|);
    RowsAtAppend(rows, row, q * g.pageTokens, g.pageTokens);
  }

  lemma PageWide(rows: seq<Row>, w: nat, pageTokens: nat, q: nat)
    requires Wide(rows, w)
    ensures Wide(PageRows(rows, pageTokens, q), w)
  {
    RowsAtWide(rows, w, q * pageTokens, pageTokens);
  }

  lemma RowsAtWide(rows: seq<Row>, w: nat, start: nat, n: nat)
    requires Wide(rows, w)
    ensures Wide(RowsAt(rows, start, n), w)
  {
    var first := Min(start, |rows|);
    assert forall i | 0 <= i < |RowsAt(rows, start, n)| :: RowsAt(rows, start, n)[i] == rows[first + i];
  }

  lemma AppendToPage(g: Geometry, buffer: Vec, rows: seq<Row>, row: Row, q: nat, key: bool)
    requires g.Valid() && Wide(rows, g.width) && |row.0| == |row.1| == g.width && Stores(g, buffer, rows, q, key)
    requires q == |rows| / g.pageTokens && |rows| < g.maxTokens
    ensures Stores(g, Appended(buffer, g.Limit(q), Part(row, key)), rows + [row], q, key)
  {
    var w, pt, t := g.width, g.pageTokens, |rows| % g.pageTokens;
    var here := PageRows(rows, pt, q);
    AppendedRows(g, rows, row, q);
    PageWide(rows, w, pt, q);
    FlatLen(here, key, w);
    assert (here + [row])[..t] == here;
    assert Flat(here + [row], key) == Flat(here, key) + Part(row, key);
    LimitRoom(g, |rows|);
  }

  lemma LimitRoom(g: Geometry, len: nat)
    requires g.Valid() && len < g.maxTokens
    ensures len % g.pageTokens * g.width + g.width <= g.Limit(len / g.pageTokens)
  {
    AppendPage(g, len);
    var t, q := len % g.pageTokens, len / g.pageTokens;
    MulSteps(t + 1, Min(g.pageTokens, g.maxTokens - q * g.pageTokens), g.width);
    assert (t + 1) * g.width == t * g.width + g.width;
  }

  /** A clone of a buffer may have any smaller capacity that holds its data. */
  lemma CloneStores(g: Geometry, buffer: Vec, capacity: nat, rows: seq<Row>, q: nat, key: bool)
    requires Stores(g, buffer, rows, q, key) && |buffer.data| <= capacity <= buffer.capacity
    ensures Stores(g, Vec(buffer.data, capacity), rows, q, key)
  {
  }

  lemma StoresFits(g: Geometry, buffer: Vec, rows: seq<Row>, q: nat, key: bool)
    requires Stores(g, buffer, rows, q, key)
    ensures |buffer.data| <= buffer.capacity <= g.Limit(q)
  {
  }

  lemma AppendElsewhere(g: Geometry, buffer: Vec, rows: seq<Row>, row: Row, q: nat, key: bool)
    requires Stores(g, buffer, rows, q, key) && q * g.pageTokens + g.pageTokens <= |rows|
    ensures Stores(g, buffer, rows + [row], q, key)
  {
    hide RowsAt, Flat;
    RowsAtAppend(rows, row, q * g.pageTokens, g.pageTokens);
  }

  lemma CutBuffer(buffer: Vec, here: seq<Row>, key: bool, w: nat, t: nat)
    requires buffer.data == Flat(here, key) && Wide(here, w) && t <= |here|
    ensures buffer.Truncate(t * w) == Vec(Flat(here[..t], key), buffer.capacity) &&
            |Flat(here[..t], key)| <= |buffer.data|
  {
    FlatTake(here, key, w, t);
    assert buffer.data[..|buffer.data|] == buffer.data;
  }

  lemma TruncatePage(g: Geometry, buffer: Vec, rows: seq<Row>, n: nat, q: nat, t: nat, key: bool)
    requires g.Valid() && Wide(rows, g.width) && Stores(g, buffer, rows, q, key)
    requires n == q * g.pageTokens + t && t <= g.pageTokens && n <= |rows|
    ensures Stores(g, buffer.Truncate(t * g.width), rows[..n], q, key)
  {
    hide RowsAt, Wide, Flat;
    RowsAtTake(rows, n, q * g.pageTokens, g.pageTokens);
    PageWide(rows, g.width, g.pageTokens, q);
    CutBuffer(buffer, PageRows(rows, g.pageTokens, q), key, g.width, t);
  }

  lemma TruncateElsewhere(g: Geometry, buffer: Vec, rows: seq<Row>, n: nat, q: nat, key: bool)
    requires Stores(g, buffer, rows, q, key) && q * g.pageTokens + g.pageTokens <= n <= |rows|
    ensures Stores(g, buffer, rows[..n], q, key)
  {
    hide RowsAt, Flat;
    RowsAtTake(rows, n, q * g.pageTokens, g.pageTokens);
  }

  // ---------------------------------------------------------------- handles sharing pages

  /** A page behind its reference count. */
  class KvPage {
    var keys: Vec
    var values: Vec
    var strong: nat

    constructor (keys: Vec, values: Vec)
      ensures this.keys == keys && this.values == values && strong == 1
    {
      this.keys, this.values, strong := keys, values, 1;
    }

    /** A clone's buffers may have any smaller capacity that holds the data. */
    constructor Clone(page: KvPage)
      requires |page.keys.data| <= page.keys.capacity && |page.values.data| <= page.values.capacity
      ensures keys.data == page.keys.data && |keys.data| <= keys.capacity <= page.keys.capacity
      ensures values.data == page.values.data && |values.data| <= values.capacity <= page.values.capacity
      ensures strong == 1
    {
      var keyCapacity: nat :| |page.keys.data| <= keyCapacity <= page.keys.capacity;
      var valueCapacity: nat :| |page.values.data| <= valueCapacity <= page.values.capacity;
      keys, values, strong := Vec(page.keys.data, keyCapacity), Vec(page.values.data, valueCapacity), 1;
    }
  }

  /** Which pages each handle holds. */
  type Holdings = map<PagedKvCache, seq<KvPage>>

  ghost function Sharers(m: Holdings, page: KvPage): set<PagedKvCache> {
    set h | h in m && page in m[h]
  }

  lemma Shares(m: Holdings, h: PagedKvCache, page: KvPage)
    ensures h in Sharers(m, page) <==> h in m && page in m[h]
  {
  }

  ghost function HoldingsOf(family: set<PagedKvCache>): Holdings
    reads family`pages
  {
    map h | h in family :: h.pages
  }

  ghost function PagesOf(family: set<PagedKvCache>): (held: set<KvPage>)
    reads family`pages
    ensures forall h, i | h in family && 0 <= i < |h.pages| :: h.pages[i] in held
  {
    assert forall h, i | h in family && 0 <= i < |h.pages| :: h.pages[i] in h.pages;
    set h, p | h in family && p in h.pages :: p
  }

  /** Every reference count is the number of handles that hold the page. */
  ghost predicate Counted(family: set<PagedKvCache>)
    reads family`pages, PagesOf(family)`strong
  {
    forall p | p in PagesOf(family) :: p.strong == |Sharers(HoldingsOf(family), p)|
  }

  ghost predicate Sound(family: set<PagedKvCache>)
    reads family, PagesOf(family)
  {
    Counted(family) && forall h | h in family :: h.Valid()
  }

  /** Exchanging one handle's last page for a new one takes that handle from the old page's sharers. */
  lemma ExchangedLast(m: Holdings, self: PagedKvCache, copy: KvPage, m': Holdings)
    requires self in m && 0 < |m[self]|
    requires forall i, j | 0 <= i < j < |m[self]| :: m[self][i] != m[self][j]
    requires forall h | h in m :: copy !in m[h]
    requires m' == m[self := m[self][..|m[self]| - 1] + [copy]]
    ensures var page := m[self][|m[self]| - 1];
            && Sharers(m', copy) == {self} && Sharers(m', page) == Sharers(m, page) - {self} && self in Sharers(m, page)
    ensures forall p | p != copy && p != m[self][|m[self]| - 1] :: Sharers(m', p) == Sharers(m, p)
  {
    var n := |m[self]| - 1;
    var page := m[self][n];
    assert page !in m[self][..n];
    forall p | p != copy && p != page ensures Sharers(m', p) == Sharers(m, p) {
      assert p in m'[self] <==> p in m[self];
    }
    assert Sharers(m', copy) == {self} by { assert copy in m'[self]; }
    assert Sharers(m', page) == Sharers(m, page) - {self};
  }

  class PagedKvCache {
    const geometry: Geometry
    var pages: seq<KvPage>
    var len: nat
    ghost var rows: seq<Row>

    /** Each page holds its rows; the handle may hold fewer pages than its rows need. */
    ghost predicate Stored()
      reads this`pages, this`rows, pages`keys, pages`values
    {
      && geometry.Valid() && |rows| <= geometry.maxTokens && Wide(rows, geometry.width)
      && (forall i, j | 0 <= i < j < |pages| :: pages[i] != pages[j])
      && forall q | 0 <= q < |pages| ::
          Stores(geometry, pages[q].keys, rows, q, true) && Stores(geometry, pages[q].values, rows, q, false)
    }

    ghost predicate Valid()
      reads this, pages`keys, pages`values
    {
      Stored() && len == |rows| && |pages| == geometry.Pages(len)
    }

    lemma StoredBounds()
      requires Stored()
      ensures geometry.Valid() && |rows| <= geometry.maxTokens
      ensures forall i, j | 0 <= i < j < |pages| :: pages[i] != pages[j]
    {
    }

    constructor (geometry: Geometry)
      requires geometry.Valid()
      ensures this.geometry == geometry && Valid() && rows == [] && pages == []
    {
      this.geometry, pages, len, rows := geometry, [], 0, [];
      new;
      PageCount(geometry, 0);
    }

    constructor Clone(of: PagedKvCache)
      requires of.Valid()
      ensures geometry == of.geometry && pages == of.pages && rows == of.rows && Valid()
    {
      geometry, pages, len, rows := of.geometry, of.pages, of.len, of.rows;
    }

    /** `Arc::make_mut` on the last page: afterwards no other handle holds the last page. */
    method MakeMut(page: KvPage, ghost family: set<PagedKvCache>)
      requires this in family && Counted(family) && Stored()
      requires 0 < |pages| && page == pages[|pages| - 1]
      modifies this`pages, page`strong
      ensures Counted(family) && Stored()
      ensures |pages| == |old(pages)| && pages[..|pages| - 1] == old(pages[..|pages| - 1])
      ensures var last := pages[|pages| - 1];
              Sharers(HoldingsOf(family), last) == {this} && (fresh(last) || last == page)
      ensures var last := pages[|pages| - 1]; last.keys.data == page.keys.data && last.values.data == page.values.data
    {
      hide Stores, Sharers, Wide;
      var n := |pages| - 1;
      assert pages[n] == page && page in PagesOf(family);
      ghost var was := HoldingsOf(family);
      Shares(was, this, page);
      if page.strong == 1 {
        OnlyMember(Sharers(was, page), this);
      } else {
        CloneLast(page, family);
      }
    }

    /** A page that others hold too is left to them; this handle continues on a copy. */
    method CloneLast(page: KvPage, ghost family: set<PagedKvCache>)
      requires this in family && Counted(family) && Stored()
      requires 0 < |pages| && page == pages[|pages| - 1] && page.strong != 1
      modifies this`pages, page`strong
      ensures Counted(family) && Stored()
      ensures |pages| == |old(pages)| && pages[..|pages| - 1] == old(pages[..|pages| - 1])
      ensures var last := pages[|pages| - 1]; Sharers(HoldingsOf(family), last) == {this} && fresh(last)
      ensures var last := pages[|pages| - 1]; last.keys.data == page.keys.data && last.values.data == page.values.data
    {
      hide Stores, Sharers, Wide;
      var n := |pages| - 1;
      assert pages[n] == page && page in PagesOf(family);
      ghost var was := HoldingsOf(family);
      Shares(was, this, page);
      StoresFits(geometry, page.keys, rows, n, true);
      StoresFits(geometry, page.values, rows, n, false);
      var copy := new KvPage.Clone(page);
      CloneStores(geometry, page.keys, copy.keys.capacity, rows, n, true);
      CloneStores(geometry, page.values, copy.values.capacity, rows, n, false);
      pages := pages[..n] + [copy];
      page.strong := page.strong - 1;
      assert HoldingsOf(family) == was[this := pages];
      ExchangedLast(was, this, copy, HoldingsOf(family));
      forall p | p in PagesOf(family) && p != copy && p != page ensures p in old(PagesOf(family)) {
        var h :| h in family && p in h.pages;
        assert p in old(h.pages);
      }
    }
  
    /** A new page of its own for rows that no page holds yet. */
    method PushPage(ghost family: set<PagedKvCache>)
      requires this in family && Counted(family) && Stored() && |rows| <= |pages| * geometry.pageTokens
      modifies this`pages
      ensures Counted(family) && Stored()
      ensures |pages| == |old(pages)| + 1 && pages[..|pages| - 1] == old(pages) && fresh(pages[|pages| - 1])
    {
      hide Stores, Sharers, Wide;
      var limit := geometry.Limit(|pages|);
      var page := new KvPage(Vec([], limit), Vec([], limit));
      EmptyPage(geometry, rows, |pages|, true);
      EmptyPage(geometry, rows, |pages|, false);
      ghost var was := HoldingsOf(family);
      pages := pages + [page];
      assert HoldingsOf(family) == was[this := pages];
      AddedPage(was, this, page, HoldingsOf(family));
      forall p | p in PagesOf(family) && p != page ensures p in old(PagesOf(family)) {
        var h :| h in family && p in h.pages;
        assert p in old(h.pages);
      }
    }

    /** Writing one row into the last page, which no other handle holds. */
    method WriteLast(page: KvPage, key: seq<Float>, value: seq<Float>, ghost family: set<PagedKvCache>)
      requires this in family && Counted(family) && Stored() && Sharers(HoldingsOf(family), page) == {this}
      requires |key| == |value| == geometry.width && |rows| < geometry.maxTokens
      requires |pages| == |rows| / geometry.pageTokens + 1 && page == pages[|pages| - 1]
      modifies page`keys, page`values, this`rows
      ensures Counted(family) && Stored() && rows == old(rows) + [(key, value)]
    {
      hide Stores, Sharers;
      var q := |pages| - 1;
      var g := geometry;
      AppendPage(g, |rows|);
      forall k | 0 <= k < q
        ensures Stores(g, pages[k].keys, rows + [(key, value)], k, true) &&
                Stores(g, pages[k].values, rows + [(key, value)], k, false)
      {
        MulSteps(k, q, g.pageTokens);
        AppendElsewhere(g, pages[k].keys, rows, (key, value), k, true);
        AppendElsewhere(g, pages[k].values, rows, (key, value), k, false);
      }
      AppendToPage(g, page.keys, rows, (key, value), q, true);
      AppendToPage(g, page.values, rows, (key, value), q, false);
      page.keys := Appended(page.keys, g.Limit(q), key);
      page.values := Appended(page.values, g.Limit(q), value);
      rows := rows + [(key, value)];
    }

    /** The page that the next row goes to, held by no other handle. */
    method NextPage(ghost family: set<PagedKvCache>) returns (page: KvPage)
      requires this in family && Sound(family) && len < geometry.maxTokens
      modifies this`pages, pages`strong
      ensures Counted(family) && Stored() && forall h | h in family && h != this :: h.Valid()
      ensures |pages| == len / geometry.pageTokens + 1 == geometry.Pages(len + 1)
      ensures page == pages[|pages| - 1] && (page in old(pages) || fresh(page)) &&
              Sharers(HoldingsOf(family), page) == {this}
      ensures forall p | p in pages :: p in old(pages) || fresh(p)
    {
      hide Sharers, Counted, PagedKvCache.Stored;
      StoredBounds();
      PageCount(geometry, len);
      AppendPage(geometry, len);
      if len % geometry.pageTokens == 0 {
        PushPage(family);
      }
      assert forall h | h in family && h != this :: h.Valid();
      MakeMut(pages[|pages| - 1], family);
      page := pages[|pages| - 1];
      assert page in pages;
      assert forall h | h in family && h != this :: h.Valid();
    }

    /** Appending stores exactly one more row in this handle and leaves every other handle's rows alone. */
    method Append(key: seq<Float>, value: seq<Float>, ghost family: set<PagedKvCache>) returns (ok: bool)
      requires this in family && Sound(family)
      modifies this, pages
      ensures ok <==>
                && |key| == |value| == geometry.width && old(len) < geometry.maxTokens
                && forall x | x in key + value :: x.Finite?
      ensures rows == if ok then old(rows) + [(key, value)] else old(rows)
      ensures Sound(family) && forall p | p in pages :: p in old(pages) || fresh(p)
    {
      hide Sharers, Counted, PagedKvCache.Stored;
      StoredBounds();
      if |key| != geometry.width || |value| != geometry.width || len == geometry.maxTokens ||
          exists x | x in key + value :: !x.Finite? {
        return false;
      }
      ok := true;
      var page := NextPage(family);
      forall h | h in family && h != this ensures page !in h.pages {
        Shares(HoldingsOf(family), h, page);
      }
      WriteLast(page, key, value, family);
      assert forall h | h in family && h != this :: h.Valid();
      len := len + 1;
      assert forall h | h in family && h != this :: h.Valid();
      assert Valid() && Counted(family);
    }

    /** Giving up the last page. */
    method PopPage(page: KvPage, ghost family: set<PagedKvCache>)
      requires this in family && Counted(family) && Stored() && 0 < |pages| && page == pages[|pages| - 1]
      modifies this`pages, page`strong
      ensures Counted(family) && Stored() && pages == old(pages[..|pages| - 1])
    {
      hide Stores, Sharers, Wide;
      ghost var was := HoldingsOf(family);
      assert pages[|pages| - 1] == page && page in PagesOf(family);
      DroppedPage(was, this, was[this := pages[..|pages| - 1]]);
      pages := pages[..|pages| - 1];
      page.strong := page.strong - 1;
      assert HoldingsOf(family) == was[this := pages];
      forall p | p in PagesOf(family) ensures p in old(PagesOf(family)) {
        var h :| h in family && p in h.pages;
        assert p in old(h.pages);
      }
    }

    /** What the pages before the cut keep. */
    lemma FrontKept(n: nat, last: nat)
      requires Stored() && n <= |rows| && last <= |pages| && last * geometry.pageTokens <= n
      ensures Wide(rows[..n], geometry.width)
      ensures forall q | 0 <= q < last ::
              Stores(geometry, pages[q].keys, rows[..n], q, true) &&
              Stores(geometry, pages[q].values, rows[..n], q, false)
    {
      hide Stores;
      forall q | 0 <= q < last
        ensures Stores(geometry, pages[q].keys, rows[..n], q, true) &&
                Stores(geometry, pages[q].values, rows[..n], q, false)
      {
        MulSteps(q, last, geometry.pageTokens);
        TruncateElsewhere(geometry, pages[q].keys, rows, n, q, true);
        TruncateElsewhere(geometry, pages[q].values, rows, n, q, false);
      }
    }

    /** Cutting the last page, which no other handle holds. */
    method CutLast(page: KvPage, n: nat, ghost family: set<PagedKvCache>)
      requires this in family && Counted(family) && Stored() && Sharers(HoldingsOf(family), page) == {this}
      requires n <= |rows| && |pages| == n / geometry.pageTokens + 1 && page == pages[|pages| - 1]
      modifies page`keys, page`values, this`rows
      ensures Counted(family) && Stored() && rows == old(rows[..n])
    {
      hide Stores, Sharers, Wide;
      var q := |pages| - 1;
      AppendPage(geometry, n);
      FrontKept(n, q);
      TruncatePage(geometry, page.keys, rows, n, q, n % geometry.pageTokens, true);
      TruncatePage(geometry, page.values, rows, n, q, n % geometry.pageTokens, false);
      page.keys := page.keys.Truncate(n % geometry.pageTokens * geometry.width);
      page.values := page.values.Truncate(n % geometry.pageTokens * geometry.width);
      rows := rows[..n];
    }

    /** Cutting the rows to those of the remaining pages: only a partly kept page is copied and cut. */
    method CutRows(n: nat, ghost family: set<PagedKvCache>)
      requires this in family && Counted(family) && Stored() && n <= |rows| && |pages| == geometry.Pages(n)
      modifies this`pages, this`rows, pages
      ensures Counted(family) && Stored() && |pages| == geometry.Pages(n) && rows == old(rows[..n])
      ensures forall p | p in pages :: p in old(pages) || fresh(p)
      ensures (forall h | h in family && h != this :: old(h.Valid())) ==> forall h | h in family && h != this ::
              h.Valid()
    {
      hide Sharers, Counted, PagedKvCache.Stored;
      StoredBounds();
      var tail := n % geometry.pageTokens;
      AppendPage(geometry, n);
      if tail != 0 {
        MakeMut(pages[|pages| - 1], family);
        var page := pages[|pages| - 1];
        assert (forall h | h in family && h != this :: old(h.Valid())) ==> forall h | h in family && h != this ::
            h.Valid();
        forall h | h in family && h != this ensures page !in h.pages {
          Shares(HoldingsOf(family), h, page);
        }
        CutLast(page, n, family);
      } else {
        CutGhost(n);
      }
    }

    /** Truncating keeps the first `n` rows of this handle and leaves every other handle's rows alone. */
    method Truncate(n: nat, ghost family: set<PagedKvCache>) returns (ok: bool)
      requires this in family && Sound(family)
      modifies this, pages
      ensures ok <==> n <= old(len)
      ensures rows == if ok then old(rows)[..n] else old(rows)
      ensures Sound(family) && forall p | p in pages :: p in old(pages) || fresh(p)
    {
      hide Sharers, Counted, PagedKvCache.Stored;
      if n > len {
        return false;
      }
      ok := true;
      if n == len {
        return;
      }
      StoredBounds();
      FewerPages(geometry, n, len);
      PopTo(geometry.Pages(n), family);
      CutRows(n, family);
      len := n;
      assert forall h | h in family && h != this :: h.Valid();
      assert Valid() && Counted(family);
    }

    /** `pages.truncate(count)` */
    method PopTo(count: nat, ghost family: set<PagedKvCache>)
      requires this in family && Counted(family) && Stored() && count <= |pages|
      modifies this`pages, pages`strong
      ensures Counted(family) && Stored() && pages == old(pages[..count])
    {
      hide Sharers, Counted, PagedKvCache.Stored;
      while |pages| > count
        invariant count <= |pages| && Counted(family) && Stored() && |pages| <= |old(pages)| &&
                  pages == old(pages)[..|pages|]
      {
        PopPage(pages[|pages| - 1], family);
      }
    }

    /** One more reference to every page. */
    method Retain(ghost family: set<PagedKvCache>)
      requires this in family && forall i, j | 0 <= i < j < |pages| :: pages[i] != pages[j]
      modifies pages`strong
      ensures forall p | p in PagesOf(family) :: p.strong == old(p.strong) + if p in pages then 1 else 0
    {
      for k := 0 to |pages|
        invariant forall i | 0 <= i < |pages| :: pages[i].strong == old(pages[i].strong) + if i < k then 1 else 0
        invariant forall p | p in PagesOf(family) && p !in pages :: p.strong == old(p.strong)
      {
        pages[k].strong := pages[k].strong + 1;
      }
    }

    /** `Clone`: a second handle to the same pages. */
    method Snapshot(ghost family: set<PagedKvCache>) returns (copy: PagedKvCache)
      requires this in family && Sound(family)
      modifies pages`strong
      ensures fresh(copy) && copy.geometry == geometry && copy.rows == rows && copy.pages == pages &&
              Sound(family + {copy})
    {
      hide Sharers, PagedKvCache.Stored;
      ghost var was := HoldingsOf(family);
      StoredBounds();
      Retain(family);
      assert forall h | h in family :: h.Valid();
      copy := new PagedKvCache.Clone(this);
      assert forall h | h in family :: h.Valid();
      assert HoldingsOf(family + {copy}) == was[copy := pages];
      AddedHandle(was, copy, was[copy := pages]);
      forall p | p in PagesOf(family + {copy})
        ensures p in old(PagesOf(family)) && p.strong == |Sharers(was[copy := pages], p)|
      {
        var h :| h in family + {copy} && p in h.pages;
        assert p in if h == copy then old(pages) else old(h.pages);
      }
    }

    /** Dropping a handle gives up its pages. */
    method Drop(ghost family: set<PagedKvCache>)
      requires this in family && Sound(family)
      modifies this, pages`strong
      ensures Sound(family - {this})
    {
      hide Sharers, PagedKvCache.Stored;
      PopTo(0, family);
      DroppedHandle(HoldingsOf(family), this);
      assert HoldingsOf(family - {this}) == HoldingsOf(family) - {this};
      assert PagesOf(family - {this}) == PagesOf(family);
    }

    /** Reading a token returns its row. */
    method Get(token: nat) returns (r: Option<Row>)
      requires Valid()
      ensures r == if token < len then Some(rows[token]) else None
    {
      if token >= len {
        return None;
      }
      var w, pt := geometry.width, geometry.pageTokens;
      LocateRow(geometry, rows, token);
      var page := pages[token / pt];
      var start := token % pt * w;
      return Some((page.keys.data[start..start + w], page.values.data[start..start + w]));
    }

    /** The bytes reserved by this handle's pages never exceed those of a full context, and hold its rows. */
    method ResidentBytes() returns (bytes: nat)
      requires Valid()
      ensures 8 * (len * geometry.width) <= bytes <= 8 * (geometry.maxTokens * geometry.width)
    {
      var g := geometry;
      PageCount(g, len);
      bytes := 0;
      for q := 0 to |pages|
        invariant 8 * (Min(q * g.pageTokens, len) * g.width) <= bytes <= 8 * (Min(q * g.pageTokens,
                  g.maxTokens) * g.width)
      {
        PageSize(g, pages[q].keys, rows, q, true);
        PageSize(g, pages[q].values, rows, q, false);
        bytes := bytes + (pages[q].keys.capacity + pages[q].values.capacity) * 4;
      }
      MulSteps(Min(|pages| * g.pageTokens, g.maxTokens), g.maxTokens, g.width);
    }

    /** The handle's rows end where its pages end. */
    ghost method CutGhost(n: nat)
      requires Stored() && n <= |rows| && n == |pages| * geometry.pageTokens
      modifies this`rows
      ensures Stored() && rows == old(rows[..n])
    {
      hide Stores, Wide;
      FrontKept(n, |pages|);
      rows := rows[..n];
    }
  }

  lemma DroppedPage(m: Holdings, self: PagedKvCache, m': Holdings)
    requires self in m && 0 < |m[self]| && m' == m[self := m[self][..|m[self]| - 1]]
    requires forall i, j | 0 <= i < j < |m[self]| :: m[self][i] != m[self][j]
    ensures var page := m[self][|m[self]| - 1];
            Sharers(m', page) == Sharers(m, page) - {self} && self in Sharers(m, page)
    ensures forall p | p != m[self][|m[self]| - 1] :: Sharers(m', p) == Sharers(m, p)
  {
    var n := |m[self]| - 1;
    var page := m[self][n];
    assert page in m[self] && page !in m[self][..n];
    forall p | p != page ensures Sharers(m', p) == Sharers(m, p) {
      assert p in m'[self] <==> p in m[self];
    }
    assert Sharers(m', page) == Sharers(m, page) - {self};
  }

  lemma AddedPage(m: Holdings, self: PagedKvCache, page: KvPage, m': Holdings)
    requires self in m && m' == m[self := m[self] + [page]]
    requires forall h | h in m :: page !in m[h]
    ensures Sharers(m', page) == {self} && forall p | p != page :: Sharers(m', p) == Sharers(m, p)
  {
    assert Sharers(m', page) == {self} by { assert page in m'[self]; }
    forall p | p != page ensures Sharers(m', p) == Sharers(m, p) {
      assert p in m'[self] <==> p in m[self];
    }
  }

  lemma AddedHandle(m: Holdings, copy: PagedKvCache, m': Holdings)
    requires copy !in m && copy in m' && m' == m[copy := m'[copy]]
    ensures forall p :: Sharers(m', p) == if p in m'[copy] then Sharers(m, p) + {copy} else Sharers(m, p)
    ensures forall p :: copy !in Sharers(m, p)
  {
  }

  lemma DroppedHandle(m: Holdings, h: PagedKvCache)
    requires h in m && m[h] == []
    ensures forall p :: Sharers(m - {h}, p) == Sharers(m, p)
  {
  }

  lemma FewerPages(g: Geometry, n: nat, len: nat)
    requires g.Valid() && n <= len
    ensures g.Pages(n) <= g.Pages(len)
  {
    PageCount(g, n);
    PageCount(g, len);
    MulSteps(g.Pages(len), g.Pages(n) - 1, g.pageTokens);
  }

  lemma LocateRow(g: Geometry, rows: seq<Row>, token: nat)
    requires g.Valid() && token < |rows| && Wide(rows, g.width)
    ensures token / g.pageTokens < g.Pages(|rows|)
    ensures forall key ::
              var data, start := Flat(PageRows(rows, g.pageTokens, token / g.pageTokens), key),
                  token % g.pageTokens * g.width;
              start + g.width <= |data| && data[start..start + g.width] == Part(rows[token], key)
  {
    hide Flat, PageRows, Wide, Geometry.Pages;
    var q, t := token / g.pageTokens, token % g.pageTokens;
    AppendPage(g, token);
    FewerPages(g, token + 1, |rows|);
    PageWide(rows, g.width, g.pageTokens, q);
    RowOfPage(rows, g.pageTokens, q, t);
    var here := PageRows(rows, g.pageTokens, q);
    FlatAt(here, true, g.width, t);
    FlatAt(here, false, g.width, t);
  }

  lemma RowOfPage(rows: seq<Row>, pageTokens: nat, q: nat, t: nat)
    requires t < pageTokens && q * pageTokens + t < |rows|
    ensures t < |PageRows(rows, pageTokens, q)| && PageRows(rows, pageTokens, q)[t] == rows[q * pageTokens + t]
  {
  }

  lemma PageSize(g: Geometry, buffer: Vec, rows: seq<Row>, q: nat, key: bool)
    requires g.Valid() && Wide(rows, g.width) && |rows| <= g.maxTokens && Stores(g, buffer, rows, q, key)
    ensures Min((q + 1) * g.pageTokens, |rows|) * g.width <= Min(q * g.pageTokens, |rows|) * g.width + buffer.capacity
    ensures Min(q * g.pageTokens, g.maxTokens) * g.width +
            buffer.capacity <= Min((q + 1) * g.pageTokens, g.maxTokens) * g.width
  {
    hide Flat, Wide;
    PageWide(rows, g.width, g.pageTokens, q);
    FlatLen(PageRows(rows, g.pageTokens, q), key, g.width);
    Steps(q, g.pageTokens, |rows|, g.width);
    Steps(q, g.pageTokens, g.maxTokens, g.width);
  }

  /** The part of the first `n` tokens that falls on page `q`. */
  lemma Steps(q: nat, pt: nat, n: nat, w: nat)
    ensures var a := q * pt;
            Min((q + 1) * pt, n) * w == Min(a, n) * w + (if n <= a then 0 else Min(pt, n - a) * w)
  {
    assert (q + 1) * pt == q * pt + pt;
    if q * pt < n {
      assert Min((q + 1) * pt, n) == q * pt + Min(pt, n - q * pt);
    }
  }

  lemma OnlyMember<T>(s: set<T>, x: T)
    requires x in s && |s| == 1
    ensures s == {x}
  {
    assert |s - {x}| == 0;
  }

  // ---------------------------------------------------------------- any interleaving over any number of handles

  datatype Command =
    | AppendTo(handle: nat, key: seq<Float>, value: seq<Float>)
    | TruncateTo(handle: nat, n: nat)
    | CloneOf(handle: nat)
    | DropOf(handle: nat)

  /** What an append or a truncation does to one list of rows. */
  function Updated(g: Geometry, list: seq<Row>, c: Command): seq<Row> {
    match c
    case AppendTo(_, key, value) =>
      if |key| == |value| == g.width && |list| < g.maxTokens && forall x | x in key + value :: x.Finite?
      then list + [(key, value)] else list
    case TruncateTo(_, n) => if n <= |list| then list[..n] else list
    case _ => list
  }

  /** What a command does to independent lists of rows. */
  function Apply(g: Geometry, lists: seq<seq<Row>>, c: Command): seq<seq<Row>> {
    if c.handle >= |lists| then lists
    else if c.CloneOf? then lists + [lists[c.handle]]
    else if c.DropOf? then lists[..c.handle] + lists[c.handle + 1..]
    else lists[c.handle := Updated(g, lists[c.handle], c)]
  }

  function ApplyAll(g: Geometry, commands: seq<Command>): seq<seq<Row>> {
    if |commands| == 0 then [[]] else Apply(g, ApplyAll(g, commands[..|commands| - 1]), commands[|commands| - 1])
  }

  /** Distinct handles whose rows are exactly the lists. */
  ghost predicate Refines(g: Geometry, handles: seq<PagedKvCache>, lists: seq<seq<Row>>)
    reads handles
  {
    && |handles| == |lists|
    && (forall i | 0 <= i < |handles| :: handles[i].geometry == g && handles[i].rows == lists[i])
    && forall i, j | 0 <= i < j < |handles| :: handles[i] != handles[j]
  }

  ghost function Family(handles: seq<PagedKvCache>): set<PagedKvCache> {
    set h | h in handles
  }

  /** Whatever the interleaving of appends, truncations, clones and drops, every handle holds exactly the
      rows that an unshared list would. */
  method Interleave(g: Geometry, commands: seq<Command>) returns (handles: seq<PagedKvCache>)
    requires g.Valid()
    ensures Refines(g, handles, ApplyAll(g, commands)) && Sound(Family(handles))
  {
    hide Sound;
    var first := new PagedKvCache(g);
    handles := [first];
    SoundAlone(first);
    for k := 0 to |commands|
      invariant Refines(g, handles, ApplyAll(g, commands[..k])) && Sound(Family(handles))
      invariant forall h | h in handles :: fresh(h)
      invariant forall p | p in PagesOf(Family(handles)) :: fresh(p)
    {
      assert commands[..k + 1][..k] == commands[..k];
      handles := Execute(g, handles, ApplyAll(g, commands[..k]), commands[k]);
    }
    assert commands[..|commands|] == commands;
  }

  lemma SoundAlone(h: PagedKvCache)
    requires h.Valid() && h.pages == []
    ensures Sound(Family([h])) && PagesOf(Family([h])) == {}
  {
  }

  method Update(h: PagedKvCache, c: Command, ghost family: set<PagedKvCache>)
    requires h in family && Sound(family)
    modifies h, h.pages
    ensures h.rows == Updated(h.geometry, old(h.rows), c)
    ensures Sound(family) && forall p | p in h.pages :: p in old(h.pages) || fresh(p)
  {
    hide Sound, PagedKvCache.Valid;
    SoundMember(family, h);
    if c.AppendTo? {
      var ok := h.Append(c.key, c.value, family);
    } else if c.TruncateTo? {
      var ok := h.Truncate(c.n, family);
    }
  }

  method Execute(g: Geometry, handles: seq<PagedKvCache>, ghost lists: seq<seq<Row>>, c: Command)
      returns (after: seq<PagedKvCache>)
    requires Refines(g, handles, lists) && Sound(Family(handles))
    modifies Family(handles), PagesOf(Family(handles))
    ensures Refines(g, after, Apply(g, lists, c)) && Sound(Family(after))
    ensures forall h | h in after :: h in handles || fresh(h)
    ensures forall p | p in PagesOf(Family(after)) :: p in old(PagesOf(Family(handles))) || fresh(p)
  {
    hide Sound, Updated;
    after := handles;
    if c.handle >= |handles| {
      return;
    }
    var h := handles[c.handle];
    ghost var family := Family(handles);
    assert h in family;
    if c.CloneOf? {
      var copy := h.Snapshot(family);
      after := handles + [copy];
      assert Family(after) == family + {copy};
    } else if c.DropOf? {
      h.Drop(family);
      after := handles[..c.handle] + handles[c.handle + 1..];
      assert Family(after) == family - {h};
    } else {
      Update(h, c, family);
    }
  }

  lemma SoundMember(family: set<PagedKvCache>, h: PagedKvCache)
    requires Sound(family) && h in family
    ensures h.Valid() && h.len == |h.rows|
  {
  }
}
