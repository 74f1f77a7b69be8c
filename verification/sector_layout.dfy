/** The fixed floor plan of the store (`sectorLayout.ts`): 17 sectors on a
    12 x 8 grid of 50-unit cells, the lookup by name and the hit test that
    maps a screen point back to a sector name. */
module SectorLayout {
  import opened Common
  import opened Geometry

  datatype FixtureKind = Shelf | Counter | Refrigerator

  /** One entry of `SECTOR_LAYOUT`; coordinates are in grid cells. */
  datatype SectorRect = SectorRect(name: string, x: int, y: int, width: int, height: int, fixture: FixtureKind)

  const GridColumns: int := 12
  const GridRows: int := 8
  const CellSize: real := 50.0
  /** The logical floor, 12 x 50 by 8 x 50 units. */
  const StoreWidth: real := 600.0
  const StoreHeight: real := 400.0

  const Layout: seq<SectorRect> := [
    SectorRect("Produce", 0, 0, 3, 2, Counter),
    SectorRect("Bakery", 3, 0, 3, 2, Counter),
    SectorRect("Organics", 6, 0, 3, 2, Shelf),
    SectorRect("Pharmacy", 9, 0, 3, 2, Counter),
    SectorRect("Butcher", 0, 2, 3, 2, Counter),
    SectorRect("Fish", 3, 2, 3, 2, Counter),
    SectorRect("Grocery", 6, 2, 3, 2, Shelf),
    SectorRect("Drinks", 9, 2, 3, 2, Shelf),
    SectorRect("Dairy", 0, 4, 3, 2, Refrigerator),
    SectorRect("Frozen", 3, 4, 3, 2, Refrigerator),
    SectorRect("Cleaning", 6, 4, 3, 2, Shelf),
    SectorRect("Hygiene", 9, 4, 3, 2, Shelf),
    SectorRect("Pet", 0, 6, 3, 2, Shelf),
    SectorRect("Electronics", 3, 6, 3, 2, Shelf),
    SectorRect("HomeGoods", 6, 6, 3, 2, Shelf),
    SectorRect("Bazaar", 9, 6, 2, 2, Shelf),
    SectorRect("Wholesale", 11, 6, 1, 2, Shelf)
  ]

  predicate InGrid(e: SectorRect)
  {
    0 < e.width && 0 < e.height &&
    0 <= e.x && e.x + e.width <= GridColumns &&
    0 <= e.y && e.y + e.height <= GridRows
  }

  lemma LayoutShape()
    ensures |Layout| == 17
    ensures forall i :: 0 <= i < |Layout| ==> InGrid(Layout[i])
    ensures forall i, j :: 0 <= i < j < |Layout| ==> Layout[i].name != Layout[j].name
  {
  }

  /** Two layout rectangles share no interior point. */
  predicate InteriorsDisjoint(a: SectorRect, b: SectorRect)
  {
    a.x + a.width <= b.x || b.x + b.width <= a.x ||
    a.y + a.height <= b.y || b.y + b.height <= a.y
  }

  lemma LayoutInteriorsDisjoint()
    ensures forall i, j :: 0 <= i < j < |Layout| ==> InteriorsDisjoint(Layout[i], Layout[j])
  {
  }

  /** Unit cell `(cx, cy)` of the grid belongs to sector `e`. */
  predicate CoversCell(e: SectorRect, cx: int, cy: int)
  {
    e.x <= cx < e.x + e.width && e.y <= cy < e.y + e.height
  }

  /** An independent description of which sector owns each cell: four full
      rows of four 3 x 2 sectors, except that the back-right block is split
      into Bazaar (two columns) and Wholesale (one column). */
  function CellOwner(cx: int, cy: int): (i: nat)
    requires 0 <= cx < GridColumns && 0 <= cy < GridRows
    ensures i < |Layout| && CoversCell(Layout[i], cx, cy)
  {
    var column := if cx < 3 then 0 else if cx < 6 then 1 else if cx < 9 then 2 else 3;
    var row := if cy < 2 then 0 else if cy < 4 then 1 else if cy < 6 then 2 else 3;
    if row < 3 || column < 3 then 4 * row + column
    else if cx < 11 then 15
    else 16
  }

  /** Every unit cell of the 12 x 8 grid is covered by exactly one entry. */
  lemma LayoutTilesGrid(cx: int, cy: int)
    requires 0 <= cx < GridColumns && 0 <= cy < GridRows
    ensures forall i :: 0 <= i < |Layout| ==> (CoversCell(Layout[i], cx, cy) <==> i == CellOwner(cx, cy))
  {
    LayoutInteriorsDisjoint();
  }

  /** `getSectorLayout`: the first entry with the given name, if any. */
  function GetSectorLayout(name: string): (r: Option<SectorRect>)
    ensures r.Some? <==> exists i :: 0 <= i < |Layout| && Layout[i].name == name
    ensures r.Some? ==> r.value in Layout && r.value.name == name
  {
    Find(Layout, (e: SectorRect) => e.name == name)
  }

  /** Names are unique, so the lookup returns exactly the entry of that name. */
  lemma GetSectorLayoutExact(i: nat)
    requires i < |Layout|
    ensures GetSectorLayout(Layout[i].name) == Some(Layout[i])
  {
    LayoutShape();
  }

  /** The screen rectangle of a sector under the view transform: the cell
      rectangle multiplied by `50 * scale` and shifted by the offsets. */
  function ScreenRect(e: SectorRect, scale: real, offsetX: real, offsetY: real): (b: Box)
    ensures var l := LogicalRect(e);
      b.x == offsetX + l.x * scale && b.y == offsetY + l.y * scale && b.w == l.w * scale && b.h == l.h * scale
    ensures scale > 0.0 && e.width > 0 && e.height > 0 ==> b.w > 0.0 && b.h > 0.0
  {
    Box(offsetX + e.x as real * CellSize * scale,
        offsetY + e.y as real * CellSize * scale,
        e.width as real * CellSize * scale,
        e.height as real * CellSize * scale)
  }

  /** The sector rectangle in logical store units (600 x 400). */
  function LogicalRect(e: SectorRect): Box
  {
    Box(e.x as real * CellSize, e.y as real * CellSize,
        e.width as real * CellSize, e.height as real * CellSize)
  }

  /** The whole store floor on screen. */
  function StoreBox(scale: real, offsetX: real, offsetY: real): Box
  {
    Box(offsetX, offsetY, StoreWidth * scale, StoreHeight * scale)
  }

  /** The containment test applied to each entry by the screen hit test. */
  function HitsScreen(x: real, y: real, scale: real, offsetX: real, offsetY: real): SectorRect -> bool
  {
    (e: SectorRect) => ScreenRect(e, scale, offsetX, offsetY).Contains(x, y)
  }

  /** `getSectorAtPosition`: the name of the first layout entry, in list
      order, whose closed screen rectangle contains the point. */
  function GetSectorAtPosition(x: real, y: real, scale: real, offsetX: real, offsetY: real): (r: Option<string>)
    ensures r.Some? <==> exists i :: 0 <= i < |Layout| && ScreenRect(Layout[i], scale, offsetX, offsetY).Contains(x, y)
    ensures r.Some? ==> exists i :: (0 <= i < |Layout| && r.value == Layout[i].name &&
      ScreenRect(Layout[i], scale, offsetX, offsetY).Contains(x, y) &&
      forall j :: 0 <= j < i ==> !ScreenRect(Layout[j], scale, offsetX, offsetY).Contains(x, y))
  {
    match FirstIndex(Layout, HitsScreen(x, y, scale, offsetX, offsetY))
    case None => None
    case Some(i) => Some(Layout[i].name)
  }

  /** The containment test applied to each entry by the logical hit test. */
  function HitsLogical(lx: real, ly: real): SectorRect -> bool
  {
    (e: SectorRect) => LogicalRect(e).Contains(lx, ly)
  }

  /** The hit test in logical store coordinates: the same first-match scan
      over the unscaled 50-unit cell rectangles. */
  function LogicalHit(lx: real, ly: real): (r: Option<string>)
    ensures r.Some? <==> exists i :: 0 <= i < |Layout| && LogicalRect(Layout[i]).Contains(lx, ly)
    ensures r.Some? ==> exists i :: (0 <= i < |Layout| && r.value == Layout[i].name &&
      LogicalRect(Layout[i]).Contains(lx, ly) &&
      forall j :: 0 <= j < i ==> !LogicalRect(Layout[j]).Contains(lx, ly))
  {
    match FirstIndex(Layout, HitsLogical(lx, ly))
    case None => None
    case Some(i) => Some(Layout[i].name)
  }

  /** A screen point given by logical coordinates lies in the screen
      rectangle exactly when the logical point lies in the logical rectangle. */
  lemma ScreenRectScaled(e: SectorRect, scale: real, offsetX: real, offsetY: real, lx: real, ly: real)
    requires scale > 0.0
    ensures ScreenRect(e, scale, offsetX, offsetY).Contains(offsetX + lx * scale, offsetY + ly * scale)
        <==> LogicalRect(e).Contains(lx, ly)
    ensures ScreenRect(e, scale, offsetX, offsetY).ContainsStrictly(offsetX + lx * scale, offsetY + ly * scale)
        <==> LogicalRect(e).ContainsStrictly(lx, ly)
  {
    var b := LogicalRect(e);
    ScaledInterval(offsetX, b.x, b.w, lx, scale);
    ScaledInterval(offsetY, b.y, b.h, ly, scale);
  }

  /** A screen point strictly inside a sector's screen rectangle comes from a
      logical point strictly inside its logical rectangle. */
  lemma StrictPreimage(e: SectorRect, x: real, y: real, scale: real, offsetX: real, offsetY: real) returns (lx: real, ly: real)
    requires scale > 0.0
    requires ScreenRect(e, scale, offsetX, offsetY).ContainsStrictly(x, y)
    ensures x == offsetX + lx * scale && y == offsetY + ly * scale
    ensures LogicalRect(e).ContainsStrictly(lx, ly)
  {
    lx := Preimage(x, scale, offsetX);
    ly := Preimage(y, scale, offsetY);
    ScreenRectScaled(e, scale, offsetX, offsetY, lx, ly);
  }

  /** For any list of rectangles, scanning at the screen image `(x, y)` of a
      logical point finds the same entry as scanning at the logical point. */
  lemma ScanScaleInvariant(rs: seq<SectorRect>, x: real, y: real, lx: real, ly: real, scale: real, offsetX: real, offsetY: real)
    requires scale > 0.0 && x == offsetX + lx * scale && y == offsetY + ly * scale
    ensures FirstIndex(rs, HitsScreen(x, y, scale, offsetX, offsetY)) == FirstIndex(rs, HitsLogical(lx, ly))
  {
    var p := HitsScreen(x, y, scale, offsetX, offsetY);
    var q := HitsLogical(lx, ly);
    forall j | 0 <= j < |rs|
      ensures p(rs[j]) == q(rs[j])
    {
      ScreenRectScaled(rs[j], scale, offsetX, offsetY, lx, ly);
    }
    FirstIndexCongruent(rs, p, q);
  }

  /** Scale invariance: for a positive scale, the hit test at the screen image
      `(x, y)` of a logical point `(lx, ly)` depends on the logical point only. */
  lemma HitTestScaleInvariant(x: real, y: real, lx: real, ly: real, scale: real, offsetX: real, offsetY: real)
    requires scale > 0.0 && x == offsetX + lx * scale && y == offsetY + ly * scale
    ensures GetSectorAtPosition(x, y, scale, offsetX, offsetY) == LogicalHit(lx, ly)
  {
    ScanScaleInvariant(Layout, x, y, lx, ly, scale, offsetX, offsetY);
  }

  /** Logical points outside the 600 x 400 floor hit no sector. */
  lemma LogicalHitOutside(lx: real, ly: real)
    requires !(0.0 <= lx <= 600.0 && 0.0 <= ly <= 400.0)
    ensures LogicalHit(lx, ly) == None
  {
    LayoutShape();
    assert forall j :: 0 <= j < |Layout| ==> !LogicalRect(Layout[j]).Contains(lx, ly);
  }

  /** Logical points on the floor, edges included, always hit a sector:
      the cell containing the point (the last row or column when the point
      lies on the far edge) has an owner whose rectangle contains the point. */
  lemma LogicalHitInside(lx: real, ly: real)
    requires 0.0 <= lx <= 600.0 && 0.0 <= ly <= 400.0
    ensures LogicalHit(lx, ly).Some?
  {
    var cx := (lx / CellSize).Floor;
    var cy := (ly / CellSize).Floor;
    if cx > GridColumns - 1 { cx := GridColumns - 1; }
    if cy > GridRows - 1 { cy := GridRows - 1; }
    assert cx as real * CellSize <= lx <= (cx + 1) as real * CellSize;
    assert cy as real * CellSize <= ly <= (cy + 1) as real * CellSize;
    var i := CellOwner(cx, cy);
    var e := Layout[i];
    assert e.x as real * CellSize <= cx as real * CellSize;
    assert (cx + 1) as real * CellSize <= (e.x + e.width) as real * CellSize;
    assert e.y as real * CellSize <= cy as real * CellSize;
    assert (cy + 1) as real * CellSize <= (e.y + e.height) as real * CellSize;
    assert LogicalRect(e).Contains(lx, ly);
  }

  /** The on-screen floor rectangle is the image of the logical floor. */
  lemma StoreBoxScaled(x: real, y: real, lx: real, ly: real, scale: real, offsetX: real, offsetY: real)
    requires scale > 0.0 && x == offsetX + lx * scale && y == offsetY + ly * scale
    ensures StoreBox(scale, offsetX, offsetY).Contains(x, y) <==> 0.0 <= lx <= 600.0 && 0.0 <= ly <= 400.0
  {
    ScaledSpan(offsetX, lx, x, StoreWidth, scale);
    ScaledSpan(offsetY, ly, y, StoreHeight, scale);
  }

  /** With a positive scale the hit test returns null exactly for points
      outside the on-screen store rectangle `[offsetX, offsetX + 600 * scale] x
      [offsetY, offsetY + 400 * scale]`, and some sector name for every point
      inside it. */
  lemma HitTestCoversStore(x: real, y: real, scale: real, offsetX: real, offsetY: real)
    requires scale > 0.0
    ensures GetSectorAtPosition(x, y, scale, offsetX, offsetY).Some? <==> StoreBox(scale, offsetX, offsetY).Contains(x, y)
  {
    var lx := Preimage(x, scale, offsetX);
    var ly := Preimage(y, scale, offsetY);
    HitTestScaleInvariant(x, y, lx, ly, scale, offsetX, offsetY);
    StoreBoxScaled(x, y, lx, ly, scale, offsetX, offsetY);
    if 0.0 <= lx <= 600.0 && 0.0 <= ly <= 400.0 {
      LogicalHitInside(lx, ly);
    } else {
      LogicalHitOutside(lx, ly);
    }
  }

  /** A closed rectangle cannot reach into the interior of a rectangle whose
      interior it does not meet. */
  lemma DisjointExcludesInterior(a: SectorRect, b: SectorRect, lx: real, ly: real)
    requires InteriorsDisjoint(a, b)
    requires LogicalRect(b).ContainsStrictly(lx, ly)
    ensures !LogicalRect(a).Contains(lx, ly)
  {
  }

  /** A logical point strictly inside sector `i` hits sector `i`: no earlier
      closed rectangle can contain an interior point of a later one. */
  lemma LogicalHitStrictlyInside(i: nat, lx: real, ly: real)
    requires i < |Layout|
    requires LogicalRect(Layout[i]).ContainsStrictly(lx, ly)
    ensures LogicalHit(lx, ly) == Some(Layout[i].name)
  {
    LayoutInteriorsDisjoint();
    forall j | 0 <= j < i
      ensures !HitsLogical(lx, ly)(Layout[j])
    {
      DisjointExcludesInterior(Layout[j], Layout[i], lx, ly);
    }
    FirstIndexIs(Layout, HitsLogical(lx, ly), i);
  }

  /** For any list of rectangles whose entries before `i` do not overlap the
      interior of entry `i`, the screen scan at a point strictly inside
      entry `i` stops at `i`. */
  lemma ScanFindsStrictOwner(rs: seq<SectorRect>, i: nat, x: real, y: real, scale: real, offsetX: real, offsetY: real)
    requires i < |rs| && scale > 0.0
    requires forall j :: 0 <= j < i ==> InteriorsDisjoint(rs[j], rs[i])
    requires ScreenRect(rs[i], scale, offsetX, offsetY).ContainsStrictly(x, y)
    ensures FirstIndex(rs, HitsScreen(x, y, scale, offsetX, offsetY)) == Some(i)
  {
    var lx, ly := StrictPreimage(rs[i], x, y, scale, offsetX, offsetY);
    var p := HitsScreen(x, y, scale, offsetX, offsetY);
    forall j | 0 <= j < i
      ensures !p(rs[j])
    {
      DisjointExcludesInterior(rs[j], rs[i], lx, ly);
      ScreenRectScaled(rs[j], scale, offsetX, offsetY, lx, ly);
    }
    ScreenRectScaled(rs[i], scale, offsetX, offsetY, lx, ly);
    FirstIndexIs(rs, p, i);
  }

  /** Hit testing agrees with drawing: every point strictly inside the
      rectangle of sector `name` hits `name`. */
  lemma HitTestInsideSector(name: string, e: SectorRect, x: real, y: real, scale: real, offsetX: real, offsetY: real)
    requires GetSectorLayout(name) == Some(e) && scale > 0.0
    requires ScreenRect(e, scale, offsetX, offsetY).ContainsStrictly(x, y)
    ensures GetSectorAtPosition(x, y, scale, offsetX, offsetY) == Some(name)
  {
    var i :| 0 <= i < |Layout| && Layout[i] == e;
    LayoutInteriorsDisjoint();
    ScanFindsStrictOwner(Layout, i, x, y, scale, offsetX, offsetY);
  }

  /** Edges are inclusive and the scan stops at the first match: every point
      `(lx, ly)` of the floor on the edge shared by Produce and Bakery lies in
      both closed rectangles, and its screen image resolves to Produce, the
      earlier entry, at every positive scale. */
  lemma SharedEdgeResolvesToEarlier(x: real, y: real, lx: real, ly: real, scale: real, offsetX: real, offsetY: real)
    requires lx == 150.0 && 0.0 <= ly <= 100.0
    requires scale > 0.0 && x == offsetX + lx * scale && y == offsetY + ly * scale
    ensures LogicalRect(Layout[0]).Contains(lx, ly) && LogicalRect(Layout[1]).Contains(lx, ly)
    ensures GetSectorAtPosition(x, y, scale, offsetX, offsetY) == Some("Produce")
  {
    FirstIndexIs(Layout, HitsLogical(lx, ly), 0);
    HitTestScaleInvariant(x, y, lx, ly, scale, offsetX, offsetY);
  }
}
