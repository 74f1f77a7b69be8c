/** The store floor and its aisle lines (`renderAisles.ts`): a textured (or
    solid) floor over the whole store, three vertical aisles every third cell
    column and three horizontal aisles every second cell row. */
module RenderAisles {
  import opened Geometry
  import opened Shapes
  import SectorLayout
  import GameCanvas

  const CellSize: real := 50.0
  const FallbackFloorColor: string := "#2a2a2a"
  const AisleColor: string := "#444"
  const AisleWidth: real := 2.0

  /** Cell column of the `i`-th vertical aisle and cell row of the `i`-th
      horizontal aisle (`i` in 0..2). */
  function AisleColumn(i: nat): int { 3 * (i + 1) }
  function AisleRow(i: nat): int { 2 * (i + 1) }

  /** The floor fill: the tile pattern when the canvas could build one from
      the floor image, the solid fallback colour otherwise. */
  function Floor(patternAvailable: bool, storeWidth: real, storeHeight: real, scale: real, offsetX: real, offsetY: real): (f: Shape)
    ensures f.FillRect?
    ensures f.box == Box(offsetX, offsetY, storeWidth * scale, storeHeight * scale)
    ensures f.paint.FloorPattern? <==> patternAvailable
    ensures !patternAvailable ==> f.paint == Solid(FallbackFloorColor)
  {
    var b := Box(offsetX, offsetY, storeWidth * scale, storeHeight * scale);
    if patternAvailable then FillRect(b, FloorPattern) else FillRect(b, Solid(FallbackFloorColor))
  }

  /** With the store's real dimensions the floor fill is exactly the store's
      screen rectangle, whichever paint is used. */
  lemma FloorIsStore(patternAvailable: bool, scale: real, offsetX: real, offsetY: real)
    ensures Floor(patternAvailable, SectorLayout.StoreWidth, SectorLayout.StoreHeight, scale, offsetX, offsetY).box
         == SectorLayout.StoreBox(scale, offsetX, offsetY)
    ensures !patternAvailable ==>
      Floor(patternAvailable, SectorLayout.StoreWidth, SectorLayout.StoreHeight, scale, offsetX, offsetY).paint == Solid("#2a2a2a")
  {
  }

  /** The vertical aisle at cell column `c`, top to bottom of the store. */
  function VerticalAisle(c: int, storeHeight: real, scale: real, offsetX: real, offsetY: real): (a: Shape)
    ensures a.Line? && a.x1 == a.x2 == GameCanvas.ToScreen(GameCanvas.Transform(scale, offsetX, offsetY), c as real * CellSize, 0.0).0
    ensures a.y1 == offsetY && a.y2 - a.y1 == storeHeight * scale
    ensures a.color == AisleColor && a.lineWidth == AisleWidth
  {
    var x := offsetX + c as real * CellSize * scale;
    Line(x, offsetY, x, offsetY + storeHeight * scale, AisleColor, AisleWidth)
  }

  /** The horizontal aisle at cell row `r`, left to right across the store. */
  function HorizontalAisle(r: int, storeWidth: real, scale: real, offsetX: real, offsetY: real): (a: Shape)
    ensures a.Line? && a.y1 == a.y2 == GameCanvas.ToScreen(GameCanvas.Transform(scale, offsetX, offsetY), 0.0, r as real * CellSize).1
    ensures a.x1 == offsetX && a.x2 - a.x1 == storeWidth * scale
    ensures a.color == AisleColor && a.lineWidth == AisleWidth
  {
    var y := offsetY + r as real * CellSize * scale;
    Line(offsetX, y, offsetX + storeWidth * scale, y, AisleColor, AisleWidth)
  }

  /** The `for (x = 3; x <= 9; x += 3)` loop: one line per aisle column. */
  method VerticalAisles(storeHeight: real, scale: real, offsetX: real, offsetY: real) returns (lines: seq<Shape>)
    ensures |lines| == 3
    ensures forall i :: 0 <= i < |lines| ==> lines[i] == VerticalAisle(AisleColumn(i), storeHeight, scale, offsetX, offsetY)
  {
    lines := [];
    var x := 3;
    while x <= 9
      invariant x == 3 * (|lines| + 1) && |lines| <= 3
      invariant forall i :: 0 <= i < |lines| ==> lines[i] == VerticalAisle(AisleColumn(i), storeHeight, scale, offsetX, offsetY)
    {
      lines := lines + [VerticalAisle(x, storeHeight, scale, offsetX, offsetY)];
      x := x + 3;
    }
  }

  /** The `for (y = 2; y <= 6; y += 2)` loop: one line per aisle row. */
  method HorizontalAisles(storeWidth: real, scale: real, offsetX: real, offsetY: real) returns (lines: seq<Shape>)
    ensures |lines| == 3
    ensures forall i :: 0 <= i < |lines| ==> lines[i] == HorizontalAisle(AisleRow(i), storeWidth, scale, offsetX, offsetY)
  {
    lines := [];
    var y := 2;
    while y <= 6
      invariant y == 2 * (|lines| + 1) && |lines| <= 3
      invariant forall i :: 0 <= i < |lines| ==> lines[i] == HorizontalAisle(AisleRow(i), storeWidth, scale, offsetX, offsetY)
    {
      lines := lines + [HorizontalAisle(y, storeWidth, scale, offsetX, offsetY)];
      y := y + 2;
    }
  }

  /** Everything `drawAisles` puts on the canvas, in drawing order. */
  method DrawAisles(patternAvailable: bool, storeWidth: real, storeHeight: real, scale: real, offsetX: real, offsetY: real)
    returns (shapes: seq<Shape>)
    ensures |shapes| == 7
    ensures shapes[0] == Floor(patternAvailable, storeWidth, storeHeight, scale, offsetX, offsetY)
    ensures forall i :: 0 <= i < 3 ==>
      shapes[1 + i] == VerticalAisle(AisleColumn(i), storeHeight, scale, offsetX, offsetY) &&
      shapes[4 + i] == HorizontalAisle(AisleRow(i), storeWidth, scale, offsetX, offsetY)
  {
    var vertical := VerticalAisles(storeHeight, scale, offsetX, offsetY);
    var horizontal := HorizontalAisles(storeWidth, scale, offsetX, offsetY);
    shapes := [Floor(patternAvailable, storeWidth, storeHeight, scale, offsetX, offsetY)] + vertical + horizontal;
  }

  /** In grid cells: every aisle column and row runs along sector edges. No
      sector straddles an aisle, and each aisle is the left (top) edge of
      some sector. */
  lemma AislesFollowSectorEdges(i: nat)
    requires i < 3
    ensures forall j :: 0 <= j < |SectorLayout.Layout| ==>
      !(SectorLayout.Layout[j].x < AisleColumn(i) < SectorLayout.Layout[j].x + SectorLayout.Layout[j].width) &&
      !(SectorLayout.Layout[j].y < AisleRow(i) < SectorLayout.Layout[j].y + SectorLayout.Layout[j].height)
    ensures exists j :: 0 <= j < |SectorLayout.Layout| && SectorLayout.Layout[j].x == AisleColumn(i)
    ensures exists j :: 0 <= j < |SectorLayout.Layout| && SectorLayout.Layout[j].y == AisleRow(i)
  {
    assert SectorLayout.Layout[AisleColumn(i) / 3].x == AisleColumn(i);
    assert SectorLayout.Layout[4 * (i + 1)].y == AisleRow(i);
  }

  /** On screen, with a positive scale: a vertical aisle at a column that no
      sector straddles never passes through the interior of that sector's
      rectangle. */
  lemma VerticalAisleOutsideInterior(c: int, e: SectorLayout.SectorRect, storeHeight: real, scale: real, offsetX: real, offsetY: real)
    requires scale > 0.0
    requires !(e.x < c < e.x + e.width)
    ensures var b := SectorLayout.ScreenRect(e, scale, offsetX, offsetY);
      !(b.x < VerticalAisle(c, storeHeight, scale, offsetX, offsetY).x1 < b.x + b.w)
  {
    var (lo, w, l) := (e.x as real * CellSize, e.width as real * CellSize, c as real * CellSize);
    CellsKeepOrder(e.x, c);
    CellsKeepOrder(c, e.x + e.width);
    var b := SectorLayout.ScreenRect(e, scale, offsetX, offsetY);
    AxisOutside(offsetX, lo, w, l, scale, b.x, b.w, VerticalAisle(c, storeHeight, scale, offsetX, offsetY).x1);
  }

  /** The horizontal counterpart. */
  lemma HorizontalAisleOutsideInterior(r: int, e: SectorLayout.SectorRect, storeWidth: real, scale: real, offsetX: real, offsetY: real)
    requires scale > 0.0
    requires !(e.y < r < e.y + e.height)
    ensures var b := SectorLayout.ScreenRect(e, scale, offsetX, offsetY);
      !(b.y < HorizontalAisle(r, storeWidth, scale, offsetX, offsetY).y1 < b.y + b.h)
  {
    var (lo, h, l) := (e.y as real * CellSize, e.height as real * CellSize, r as real * CellSize);
    CellsKeepOrder(e.y, r);
    CellsKeepOrder(r, e.y + e.height);
    var b := SectorLayout.ScreenRect(e, scale, offsetX, offsetY);
    AxisOutside(offsetY, lo, h, l, scale, b.y, b.h, HorizontalAisle(r, storeWidth, scale, offsetX, offsetY).y1);
  }

  /** One screen axis: a logical coordinate outside the open span
      `(lo, lo + w)` maps outside the span's screen image. */
  lemma AxisOutside(o: real, lo: real, w: real, l: real, s: real, bx: real, bw: real, x: real)
    requires s > 0.0 && !(lo < l < lo + w)
    requires bx == o + lo * s && bw == w * s && x == o + l * s
    ensures !(bx < x < bx + bw)
  {
    ScaledInterval(o, lo, w, l, s);
  }

  /** Cell indices and their logical coordinates are in the same order. */
  lemma CellsKeepOrder(a: int, b: int)
    ensures a < b <==> a as real * CellSize < b as real * CellSize
    ensures (a + b) as real * CellSize == a as real * CellSize + b as real * CellSize
  {
  }

  /** No aisle line drawn by `drawAisles` cuts through a sector's interior on
      screen, at any positive scale and offset. */
  lemma AislesClearSectors(plan: seq<SectorLayout.SectorRect>, i: nat, j: nat, storeWidth: real, storeHeight: real, scale: real, offsetX: real, offsetY: real)
    requires plan == SectorLayout.Layout
    requires i < 3 && j < |plan| && scale > 0.0
    ensures var b := SectorLayout.ScreenRect(plan[j], scale, offsetX, offsetY);
      !(b.x < VerticalAisle(AisleColumn(i), storeHeight, scale, offsetX, offsetY).x1 < b.x + b.w) &&
      !(b.y < HorizontalAisle(AisleRow(i), storeWidth, scale, offsetX, offsetY).y1 < b.y + b.h)
  {
    AislesFollowSectorEdges(i);
    VerticalAisleOutsideInterior(AisleColumn(i), plan[j], storeHeight, scale, offsetX, offsetY);
    HorizontalAisleOutsideInterior(AisleRow(i), plan[j], storeWidth, scale, offsetX, offsetY);
  }

  /** Each aisle is drawn over one of the canvas's grid lines: same position,
      same extent when the store has its real dimensions. */
  lemma AislesOverlayGrid(i: nat, t: GameCanvas.Transform)
    requires i < 3
    ensures var a := VerticalAisle(AisleColumn(i), SectorLayout.StoreHeight, t.scale, t.offsetX, t.offsetY);
      var g := GameCanvas.GridLineX(t, AisleColumn(i) as nat);
      a.x1 == g.x1 && a.y1 == g.y1 && a.x2 == g.x2 && a.y2 == g.y2
    ensures var a := HorizontalAisle(AisleRow(i), SectorLayout.StoreWidth, t.scale, t.offsetX, t.offsetY);
      var g := GameCanvas.GridLineY(t, AisleRow(i) as nat);
      a.x1 == g.x1 && a.y1 == g.y1 && a.x2 == g.x2 && a.y2 == g.y2
  {
  }
}
