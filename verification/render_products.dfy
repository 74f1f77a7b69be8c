/** Drawing the stock (`renderProducts.ts`): products are grouped by sector,
    and each group is laid out as a small grid of markers, with optional name
    captions, in the lower part of its sector's rectangle. */
module RenderProducts {
  import opened Common
  import opened Geometry
  import opened Shapes
  import SectorLayout
  import InitialProducts

  /** A product as the backend returns it; `shelfLife` is in seconds. */
  datatype Product = Product(id: string, name: string, baseCost: real, sellPrice: real, sector: string, shelfLife: int)

  // ---------------------------------------------------------------- fallback

  function FromCatalogue(e: InitialProducts.CatalogueEntry): Product
  {
    Product(e.productId, e.name, e.baseCost, e.sellPrice, e.sector, e.shelfLife)
  }

  function FallbackProducts(): (ps: seq<Product>)
    ensures |ps| == |InitialProducts.Catalogue|
    ensures forall i :: 0 <= i < |ps| ==> ps[i] == FromCatalogue(InitialProducts.Catalogue[i])
  {
    seq(|InitialProducts.Catalogue|, i requires 0 <= i < |InitialProducts.Catalogue| => FromCatalogue(InitialProducts.Catalogue[i]))
  }

  /** A non-empty list is drawn as given; an empty one is replaced by the 24
      catalogue rows with `productId` renamed to `id` and the rest copied. */
  function ProductsToRender(products: seq<Product>): (ps: seq<Product>)
    ensures |products| > 0 ==> ps == products
    ensures |products| == 0 ==> |ps| == 24 && forall i :: 0 <= i < 24 ==>
      var e := InitialProducts.Catalogue[i];
      ps[i].id == e.productId && ps[i].name == e.name && ps[i].baseCost == e.baseCost &&
      ps[i].sellPrice == e.sellPrice && ps[i].sector == e.sector && ps[i].shelfLife == e.shelfLife
  {
    InitialProducts.CatalogueShape();
    if |products| > 0 then products else FallbackProducts()
  }

  // ---------------------------------------------------------------- grouping

  /** One entry of the `Map` from sector name to that sector's products. */
  datatype Group = Group(sector: string, items: seq<Product>)

  /** The products of sector `k`, in input order: the reference for what a group holds. */
  function Filter(ps: seq<Product>, k: string): (r: seq<Product>)
    ensures |r| <= |ps|
    ensures forall x :: x in r ==> x in ps && x.sector == k
    ensures forall j :: 0 <= j < |ps| && ps[j].sector == k ==> ps[j] in r
  {
    if |ps| == 0 then [] else
      Filter(ps[..|ps| - 1], k) + (if ps[|ps| - 1].sector == k then [ps[|ps| - 1]] else [])
  }

  /** The distinct sectors of `ps` in order of first appearance: the reference
      for the `Map`'s iteration order. */
  function Sectors(ps: seq<Product>): (ks: seq<string>)
    ensures forall i, j :: 0 <= i < j < |ks| ==> ks[i] != ks[j]
    ensures forall k :: k in ks <==> exists j :: 0 <= j < |ps| && ps[j].sector == k
  {
    if |ps| == 0 then [] else
      var ks := Sectors(ps[..|ps| - 1]);
      var k := ps[|ps| - 1].sector;
      assert forall j :: 0 <= j < |ps| - 1 ==> ps[..|ps| - 1][j] == ps[j];
      if k in ks then ks else ks + [k]
  }

  function KeyIndex(gs: seq<Group>, k: string): (r: Option<nat>)
    ensures r.Some? ==> r.value < |gs| && gs[r.value].sector == k
    ensures r.None? ==> forall i :: 0 <= i < |gs| ==> gs[i].sector != k
  {
    FirstIndex(gs, (g: Group) => g.sector == k)
  }

  /** One iteration of the grouping loop: append to the product's existing
      group, or open a new group at the end. */
  function AddToGroups(gs: seq<Group>, p: Product): seq<Group>
  {
    match KeyIndex(gs, p.sector)
    case Some(i) => gs[i := Group(p.sector, gs[i].items + [p])]
    case None => gs + [Group(p.sector, [p])]
  }

  /** The grouping loop over `productsToRender`. */
  function GroupBySector(ps: seq<Product>): (gs: seq<Group>)
    ensures forall i, j :: 0 <= i < j < |gs| ==> gs[i].sector != gs[j].sector
    ensures forall i :: 0 <= i < |gs| ==> |gs[i].items| > 0
    ensures forall i, x :: 0 <= i < |gs| && x in gs[i].items ==> x.sector == gs[i].sector && x in ps
  {
    if |ps| == 0 then [] else AddToGroups(GroupBySector(ps[..|ps| - 1]), ps[|ps| - 1])
  }

  /** The grouping is exactly the reference: one group per distinct sector, in
      order of first appearance, holding that sector's products in input order. */
  lemma {:induction false} GroupBySectorIsFilter(ps: seq<Product>)
    ensures var gs := GroupBySector(ps);
      |gs| == |Sectors(ps)| &&
      forall i :: 0 <= i < |gs| ==> gs[i] == Group(Sectors(ps)[i], Filter(ps, Sectors(ps)[i]))
  {
    if |ps| > 0 {
      var init := ps[..|ps| - 1];
      var p := ps[|ps| - 1];
      GroupBySectorIsFilter(init);
      var gs := GroupBySector(init);
      var ks := Sectors(init);
      match KeyIndex(gs, p.sector)
      case Some(i) => {
        assert ks[i] == p.sector;
      }
      case None => {
        assert p.sector !in ks;
        FilterNone(init, p.sector);
      }
    }
  }

  lemma {:induction false} FilterNone(ps: seq<Product>, k: string)
    requires forall j :: 0 <= j < |ps| ==> ps[j].sector != k
    ensures Filter(ps, k) == []
  {
    if |ps| > 0 {
      FilterNone(ps[..|ps| - 1], k);
    }
  }

  /** Every product lands in exactly one group: the group of its own sector. */
  lemma ProductInOneGroup(ps: seq<Product>, j: nat)
    requires j < |ps|
    ensures var gs := GroupBySector(ps);
      (exists i :: 0 <= i < |gs| && gs[i].sector == ps[j].sector && ps[j] in gs[i].items) &&
      forall i, i' :: 0 <= i < |gs| && 0 <= i' < |gs| && ps[j] in gs[i].items && ps[j] in gs[i'].items ==> i == i'
  {
    GroupBySectorIsFilter(ps);
    var ks := Sectors(ps);
    assert ps[j].sector in ks;
  }

  function TotalSize(gs: seq<Group>): nat
  {
    if |gs| == 0 then 0 else |gs[0].items| + TotalSize(gs[1..])
  }

  lemma {:induction false} TotalSizeUpdate(gs: seq<Group>, i: nat, g: Group)
    requires i < |gs|
    ensures TotalSize(gs[i := g]) + |gs[i].items| == TotalSize(gs) + |g.items|
  {
    if i > 0 {
      assert gs[i := g][1..] == gs[1..][i - 1 := g];
      TotalSizeUpdate(gs[1..], i - 1, g);
    }
  }

  lemma {:induction false} TotalSizeAppend(gs: seq<Group>, g: Group)
    ensures TotalSize(gs + [g]) == TotalSize(gs) + |g.items|
  {
    if |gs| > 0 {
      assert (gs + [g])[1..] == gs[1..] + [g];
      TotalSizeAppend(gs[1..], g);
    }
  }

  /** Grouping loses and duplicates nothing: the group sizes add up to the
      number of products. */
  lemma {:induction false} GroupBySectorPartition(ps: seq<Product>)
    ensures TotalSize(GroupBySector(ps)) == |ps|
  {
    if |ps| > 0 {
      var init := ps[..|ps| - 1];
      var p := ps[|ps| - 1];
      GroupBySectorPartition(init);
      var gs := GroupBySector(init);
      match KeyIndex(gs, p.sector)
      case Some(i) => TotalSizeUpdate(gs, i, Group(p.sector, gs[i].items + [p]));
      case None => TotalSizeAppend(gs, Group(p.sector, [p]));
    }
  }

  // ---------------------------------------------------------------- grid placement

  /** `Math.ceil(Math.sqrt(n))`: the least `k` with `k * k >= n`. */
  function CeilSqrt(n: nat): (k: nat)
    ensures k * k >= n
    ensures k == 0 || (k - 1) * (k - 1) < n
    ensures n >= 1 ==> k >= 1
  {
    LeastRootFrom(n, 0)
  }

  function LeastRootFrom(n: nat, k: nat): (r: nat)
    requires k == 0 || (k - 1) * (k - 1) < n
    ensures r * r >= n && (r == 0 || (r - 1) * (r - 1) < n)
    decreases n - k
  {
    if k * k >= n then k
    else LeastRootFrom(n, k + 1)
  }

  lemma CeilSqrtPositive(n: nat)
    requires n >= 1
    ensures CeilSqrt(n) >= 1
  {
  }

  /** `Math.ceil(n / k)` for whole numbers. */
  function CeilDiv(n: nat, k: nat): (r: nat)
    requires k > 0
    ensures r * k >= n && (r == 0 || (r - 1) * k < n)
  {
    (n + k - 1) / k
  }

  /** Grid cell of the `i`-th product of a group with `k` markers per row. */
  function Cell(i: nat, k: nat): (rc: (nat, nat))
    requires k > 0
    ensures rc.1 < k && rc.0 * k + rc.1 == i
  {
    (i / k, i % k)
  }

  /** Within a group of `n`, the cells are distinct, every column is below `k`
      and every row below `ceil(n / k)`. */
  lemma CellsInjective(n: nat, k: nat, i: nat, j: nat)
    requires k > 0 && i < n && j < n
    ensures Cell(i, k).1 < k && Cell(i, k).0 < CeilDiv(n, k)
    ensures Cell(i, k) == Cell(j, k) ==> i == j
  {
    var c := CeilDiv(n, k);
    var q := i / k;
    assert k * q <= i < c * k;
    if q >= c {
      MulMonotone(q, c, k);
    }
  }

  lemma {:induction false} MulMonotone(a: nat, b: nat, k: nat)
    requires a >= b
    ensures a * k >= b * k
  {
    if k > 0 {
      MulMonotone(a, b, k - 1);
      assert a * k == a * (k - 1) + a;
      assert b * k == b * (k - 1) + b;
    }
  }

  /** The centre of column `col` of `k` equal columns spanning `[x, x + w]`
      lies strictly inside that span. */
  lemma ColumnCentreInside(x: real, w: real, col: nat, k: nat)
    requires w > 0.0 && col < k
    ensures x < x + (col as real) * (w / (k as real)) + (w / (k as real)) / 2.0 < x + w
  {
    var q := w / (k as real);
    assert q * (k as real) == w;
    ScalePreservesOrder((col as real) + 0.5, k as real, q);
    assert ((col as real) + 0.5) * q == (col as real) * q + q / 2.0;
  }

  // ---------------------------------------------------------------- captions

  /** The suffix appended to cut names, kept exactly as the source writes it. */
  const Ellipsis: string := "\U{00E2}\U{20AC}\U{00A6}"

  /** `name.substring(0, maxChars - 1) + ellipsis` when the name is longer than
      `maxChars`, else the name itself; `substring` treats a negative end as 0. */
  function Truncate(name: string, maxChars: int): (r: string)
    ensures |name| <= maxChars ==> r == name
    ensures |name| > maxChars ==>
      var keep := if maxChars - 1 < 0 then 0 else maxChars - 1;
      r == name[..keep] + Ellipsis
  {
    if |name| > maxChars then name[..if maxChars - 1 < 0 then 0 else maxChars - 1] + Ellipsis else name
  }

  /** A cut caption is a proper prefix of the name followed by the ellipsis;
      the prefix has `maxChars - 1` characters (none when `maxChars < 1`). */
  lemma TruncateKeepsPrefix(name: string, maxChars: int)
    requires |name| > maxChars
    ensures var r := Truncate(name, maxChars);
      var cut := |r| - |Ellipsis|;
      0 <= cut <= |name| && r[cut..] == Ellipsis && r[..cut] == name[..cut] &&
      (maxChars >= 1 ==> cut == maxChars - 1) && (maxChars < 1 ==> cut == 0)
  {
  }

  // ---------------------------------------------------------------- markers

  /** A product's marker and, at large scales, its caption. */
  datatype Marker = Marker(box: Shape, caption: Option<Shape>)

  function MarkerSize(scale: real): (b: real)
    ensures b >= 3.0 && b >= 6.0 * scale
  {
    Max(3.0, 6.0 * scale)
  }

  function CaptionSize(scale: real): (f: real)
    ensures f >= 6.0 && f >= 8.0 * scale
  {
    Max(6.0, 8.0 * scale)
  }

  /** `productWidth`: the sector's width shared by `k = ceil(sqrt(n))`
      columns, so that the `k` columns fill it exactly. */
  function ColumnWidth(n: nat, b: Box): (pw: real)
    requires n >= 1
    ensures pw * (CeilSqrt(n) as real) == b.w
    ensures b.w > 0.0 ==> pw > 0.0
  {
    b.w / CeilSqrt(n) as real
  }

  /** `productHeight`: 30% of the sector's height shared by the
      `ceil(n / k)` rows. */
  function RowHeight(n: nat, b: Box): (ph: real)
    requires n >= 1
    ensures ph * (CeilDiv(n, CeilSqrt(n)) as real) == 0.3 * b.h
    ensures b.h > 0.0 ==> ph > 0.0
  {
    PitchesPositive(n);
    0.3 * b.h / CeilDiv(n, CeilSqrt(n)) as real
  }

  /** The centre of cell (`row`, `col`) of a grid in `b` whose columns are
      `pw` wide and whose rows are `ph` high, the first row at 75% of the
      height. */
  function GridPoint(b: Box, pw: real, ph: real, row: nat, col: nat): (real, real)
  {
    (b.x + (col as real) * pw + pw / 2.0, b.y + b.h * 0.75 + (row as real) * ph)
  }

  /** The centre of marker `index` of a group of `n` in sector rectangle `b`. */
  function MarkerCentre(index: nat, n: nat, b: Box): (real, real)
    requires index < n
  {
    var (row, col) := Cell(index, CeilSqrt(n));
    GridPoint(b, ColumnWidth(n, b), RowHeight(n, b), row, col)
  }

  /** Marker `index` of a group of `n` in sector rectangle `b`: `k = ceil(sqrt(n))`
      columns of width `b.w / k`, rows of height `0.3 * b.h / ceil(n / k)`
      starting at 75% of the sector's height. */
  function PlaceMarker(p: Product, index: nat, n: nat, b: Box, scale: real): (m: Marker)
    requires index < n
    ensures m.box.FillRect? && m.box.paint == Solid("#fbbf24")
    ensures m.box.box.w == m.box.box.h == MarkerSize(scale)
    ensures m.caption.Some? <==> scale > 0.8
    ensures m.caption.Some? ==>
      m.caption.value.Text? && m.caption.value.size == CaptionSize(scale) &&
      m.caption.value.x == m.box.box.x + m.box.box.w / 2.0 &&
      m.caption.value.y == m.box.box.y + m.box.box.h / 2.0 + MarkerSize(scale)
    ensures (m.box.box.x + m.box.box.w / 2.0, m.box.box.y + m.box.box.h / 2.0) == MarkerCentre(index, n, b)
    ensures m.caption.Some? ==>
      m.caption.value.text == Truncate(p.name, (ColumnWidth(n, b) / (CaptionSize(scale) * 0.6)).Floor)
  {
    var (px, py) := MarkerCentre(index, n, b);
    var size := MarkerSize(scale);
    var marker := FillRect(Box(px - size / 2.0, py - size / 2.0, size, size), Solid("#fbbf24"));
    if scale > 0.8 then
      var font := CaptionSize(scale);
      var maxChars := (ColumnWidth(n, b) / (font * 0.6)).Floor;
      Marker(marker, Some(Text(Truncate(p.name, maxChars), px, py + size, font)))
    else Marker(marker, None)
  }

  /** Each marker's centre lies strictly inside its sector's horizontal extent. */
  lemma MarkerInsideHorizontally(p: Product, index: nat, n: nat, b: Box, scale: real)
    requires index < n && b.w > 0.0
    ensures var m := PlaceMarker(p, index, n, b, scale).box.box;
      b.x < m.x + m.w / 2.0 < b.x + b.w
  {
    var k := CeilSqrt(n);
    CeilSqrtPositive(n);
    CellsInjective(n, k, index, index);
    ColumnCentreInside(b.x, b.w, Cell(index, k).1, k);
  }

  /** Two products of one group never share a marker position: distinct
      indices give distinct marker centres in a sector of positive size. */
  lemma MarkerCentresDistinct(i: nat, j: nat, n: nat, b: Box)
    requires i < n && j < n && i != j && b.w > 0.0 && b.h > 0.0
    ensures MarkerCentre(i, n, b) != MarkerCentre(j, n, b)
  {
    CellsDiffer(i, j, n);
    var (ci, cj) := (Cell(i, CeilSqrt(n)), Cell(j, CeilSqrt(n)));
    GridPointsDistinct(b, ColumnWidth(n, b), RowHeight(n, b), ci.0, ci.1, cj.0, cj.1);
  }

  lemma CellsDiffer(i: nat, j: nat, n: nat)
    requires i < n && j < n && i != j
    ensures CeilSqrt(n) >= 1 && Cell(i, CeilSqrt(n)) != Cell(j, CeilSqrt(n))
  {
    CellsInjective(n, CeilSqrt(n), i, j);
  }

  /** With positive pitches, distinct cells have distinct centres. */
  lemma GridPointsDistinct(b: Box, pw: real, ph: real, r1: nat, c1: nat, r2: nat, c2: nat)
    requires pw > 0.0 && ph > 0.0 && (r1, c1) != (r2, c2)
    ensures GridPoint(b, pw, ph, r1, c1) != GridPoint(b, pw, ph, r2, c2)
  {
    if c1 != c2 {
      AffineInjective(b.x + pw / 2.0, c1 as real, c2 as real, pw);
      assert GridPoint(b, pw, ph, r1, c1).0 != GridPoint(b, pw, ph, r2, c2).0;
    } else {
      AffineInjective(b.y + b.h * 0.75, r1 as real, r2 as real, ph);
      assert GridPoint(b, pw, ph, r1, c1).1 != GridPoint(b, pw, ph, r2, c2).1;
    }
  }

  /** A non-empty group's grid has at least one column and one row. */
  lemma PitchesPositive(n: nat)
    requires n >= 1
    ensures CeilSqrt(n) >= 1 && CeilDiv(n, CeilSqrt(n)) >= 1
  {
  }

  function PlaceGroup(items: seq<Product>, b: Box, scale: real): (ms: seq<Marker>)
    ensures |ms| == |items|
    ensures forall i :: 0 <= i < |ms| ==> (ms[i].caption.Some? <==> scale > 0.8) && ms[i].box.FillRect? && ms[i].box.box.w == MarkerSize(scale)
    ensures forall i :: 0 <= i < |items| ==> ms[i] == PlaceMarker(items[i], i, |items|, b, scale)
  {
    seq(|items|, i requires 0 <= i < |items| => PlaceMarker(items[i], i, |items|, b, scale))
  }

  /** Within one group drawn in a sector of positive size, no two markers
      are drawn at the same place. */
  lemma GroupMarkersApart(items: seq<Product>, b: Box, scale: real, i: nat, j: nat)
    requires i < |items| && j < |items| && i != j && b.w > 0.0 && b.h > 0.0
    ensures var (mi, mj) := (PlaceGroup(items, b, scale)[i].box.box, PlaceGroup(items, b, scale)[j].box.box);
      (mi.x + mi.w / 2.0, mi.y + mi.h / 2.0) != (mj.x + mj.w / 2.0, mj.y + mj.h / 2.0)
  {
    MarkerCentresDistinct(i, j, |items|, b);
  }

  /** Layout lookup, as `getSectorLayout` provides it. */
  type Lookup = string -> Option<SectorLayout.SectorRect>

  /** Groups in order; a group whose sector has no layout draws nothing. */
  function DrawGroups(gs: seq<Group>, lookup: Lookup, scale: real, offsetX: real, offsetY: real): (ms: seq<Marker>)
    ensures |ms| <= TotalSize(gs)
    ensures (forall i :: 0 <= i < |gs| ==> lookup(gs[i].sector).Some?) ==> |ms| == TotalSize(gs)
    ensures (forall i :: 0 <= i < |gs| ==> lookup(gs[i].sector).None?) ==> ms == []
    ensures forall i :: 0 <= i < |ms| ==> (ms[i].caption.Some? <==> scale > 0.8) && ms[i].box.FillRect? && ms[i].box.box.w == MarkerSize(scale)
    ensures |gs| > 0 && lookup(gs[0].sector).None? ==> ms == DrawGroups(gs[1..], lookup, scale, offsetX, offsetY)
    ensures |gs| > 0 && lookup(gs[0].sector).Some? ==>
      ms == PlaceGroup(gs[0].items, SectorLayout.ScreenRect(lookup(gs[0].sector).value, scale, offsetX, offsetY), scale) +
            DrawGroups(gs[1..], lookup, scale, offsetX, offsetY)
  {
    if |gs| == 0 then [] else
      var rest := DrawGroups(gs[1..], lookup, scale, offsetX, offsetY);
      match lookup(gs[0].sector)
      case None => rest
      case Some(e) => PlaceGroup(gs[0].items, SectorLayout.ScreenRect(e, scale, offsetX, offsetY), scale) + rest
  }

  /** `drawProducts` with a given layout lookup: the products to render are
      grouped by sector and the groups drawn in order; at most one marker per
      product drawn, and exactly one when every product's sector is laid out. */
  function DrawProductsWith(products: seq<Product>, lookup: Lookup, scale: real, offsetX: real, offsetY: real): (ms: seq<Marker>)
    ensures ms == DrawGroups(GroupBySector(ProductsToRender(products)), lookup, scale, offsetX, offsetY)
    ensures |ms| <= |ProductsToRender(products)|
    ensures (forall j :: 0 <= j < |ProductsToRender(products)| ==> lookup(ProductsToRender(products)[j].sector).Some?) ==>
      |ms| == |ProductsToRender(products)|
  {
    var ps := ProductsToRender(products);
    GroupBySectorPartition(ps);
    if forall j :: 0 <= j < |ps| ==> lookup(ps[j].sector).Some? then
      EveryProductDrawn(ps, lookup, scale, offsetX, offsetY);
      DrawGroups(GroupBySector(ps), lookup, scale, offsetX, offsetY)
    else
      DrawGroups(GroupBySector(ps), lookup, scale, offsetX, offsetY)
  }

  /** `drawProducts`: the fallback catalogue is drawn in full, and backend
      products get one marker each at most, exactly one when their sectors are
      all laid out. */
  function DrawProducts(products: seq<Product>, scale: real, offsetX: real, offsetY: real): (ms: seq<Marker>)
    ensures products == [] ==> |ms| == 24
    ensures products != [] ==> |ms| <= |products|
    ensures products != [] && (forall j :: 0 <= j < |products| ==> SectorLayout.GetSectorLayout(products[j].sector).Some?) ==>
      |ms| == |products|
  {
    if products == [] then
      FallbackFullyDrawn(scale, offsetX, offsetY);
      DrawProductsWith(products, SectorLayout.GetSectorLayout, scale, offsetX, offsetY)
    else
      DrawProductsWith(products, SectorLayout.GetSectorLayout, scale, offsetX, offsetY)
  }

  /** When every product's sector has a layout, every product gets a marker. */
  lemma EveryProductDrawn(ps: seq<Product>, lookup: Lookup, scale: real, offsetX: real, offsetY: real)
    requires forall j :: 0 <= j < |ps| ==> lookup(ps[j].sector).Some?
    ensures |DrawGroups(GroupBySector(ps), lookup, scale, offsetX, offsetY)| == |ps|
  {
    var gs := GroupBySector(ps);
    GroupBySectorIsFilter(ps);
    GroupBySectorPartition(ps);
    forall i | 0 <= i < |gs|
      ensures lookup(gs[i].sector).Some?
    {
      assert gs[i].sector in Sectors(ps);
    }
  }

  /** With no backend products, all 24 catalogue products are drawn. */
  lemma FallbackFullyDrawn(scale: real, offsetX: real, offsetY: real)
    ensures |DrawProductsWith([], SectorLayout.GetSectorLayout, scale, offsetX, offsetY)| == 24
  {
    var ps := ProductsToRender([]);
    forall j | 0 <= j < |ps|
      ensures SectorLayout.GetSectorLayout(ps[j].sector).Some?
    {
      InitialProducts.CatalogueSectorHasLayout(j);
    }
  }
}
