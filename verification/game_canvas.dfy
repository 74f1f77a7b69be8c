/** The canvas component's own drawing (`GameCanvas.tsx`): the view transform
    that fits the 600 x 400 store into the viewport, the frame throttle, the
    pixel-ratio clamp, and the grid, outline, entrance, checkout, customers
    and labels it draws each frame. */
module GameCanvas {
  import opened Common
  import opened Geometry
  import opened Shapes
  import SectorLayout
  import SimTypes

  const DefaultWidth: real := 800.0
  const DefaultHeight: real := 600.0
  const FrameBudget: real := 33.0

  // ---------------------------------------------------------------- transform

  /** One uniform scale for both axes and the top-left corner of the store. */
  datatype Transform = Transform(scale: real, offsetX: real, offsetY: real)

  /** The largest scale that leaves 100 px of horizontal and 200 px of
      vertical margin; the store is centred horizontally and sits 50 px below
      the vertical centre. */
  function ComputeTransform(w: real, h: real): (t: Transform)
    ensures 600.0 * t.scale <= w - 100.0 && 400.0 * t.scale <= h - 200.0
    ensures 600.0 * t.scale == w - 100.0 || 400.0 * t.scale == h - 200.0
    ensures 2.0 * t.offsetX + 600.0 * t.scale == w
    ensures 2.0 * (t.offsetY - 50.0) + 400.0 * t.scale == h
    ensures w > 100.0 && h > 200.0 ==> t.scale > 0.0
  {
    var scale := Min((w - 100.0) / 600.0, (h - 200.0) / 400.0);
    Transform(scale, (w - 600.0 * scale) / 2.0, (h - 400.0 * scale) / 2.0 + 50.0)
  }

  /** Worked viewports: the default 800 x 600, a narrow one where the width
      binds, a wide one where the height binds, and a large square one. */
  lemma TransformExamples()
    ensures ComputeTransform(DefaultWidth, DefaultHeight) == Transform(1.0, 100.0, 150.0)
    ensures ComputeTransform(400.0, 600.0).scale == 0.5
    ensures ComputeTransform(1300.0, 600.0) == Transform(1.0, 350.0, 150.0)
    ensures ComputeTransform(1000.0, 1000.0).scale == 1.5
  {
  }

  /** Screen position of logical store point `(lx, ly)`. */
  function ToScreen(t: Transform, lx: real, ly: real): (real, real)
  {
    (t.offsetX + lx * t.scale, t.offsetY + ly * t.scale)
  }

  // ---------------------------------------------------------------- frame pacing

  /** `min(devicePixelRatio || 1, 2)`: a missing (zero) ratio counts as 1 and
      the backing store is never more than twice the CSS size. */
  function ClampPixelRatio(dpr: real): (r: real)
    ensures r <= 2.0
    ensures dpr == 0.0 ==> r == 1.0
    ensures 0.0 < dpr <= 2.0 ==> r == dpr
    ensures dpr > 2.0 ==> r == 2.0
  {
    Min(if dpr == 0.0 then 1.0 else dpr, 2.0)
  }

  /** Whether a frame does its work and the new `lastRender`. */
  datatype Throttle = Throttle(renders: bool, lastRender: real)

  /** A frame is skipped while fewer than 33 ms have passed since the last
      rendered one; `lastRender` moves only when the frame renders. */
  function CheckFrame(timestamp: real, lastRender: real): (r: Throttle)
    ensures r.renders <==> timestamp - lastRender >= FrameBudget
    ensures r.lastRender == if r.renders then timestamp else lastRender
  {
    if timestamp - lastRender < FrameBudget then Throttle(false, lastRender) else Throttle(true, timestamp)
  }

  /** After a rendered frame, every frame in the next 33 ms is skipped, so two
      rendered frames are always at least 33 ms apart. */
  lemma RenderedFramesSpaced(t1: real, t2: real, lastRender: real)
    requires CheckFrame(t1, lastRender).renders
    requires CheckFrame(t2, CheckFrame(t1, lastRender).lastRender).renders
    ensures t2 - t1 >= FrameBudget
  {
  }

  // ---------------------------------------------------------------- grid

  /** The grid line at logical offset `50 * i`, vertical or horizontal. */
  function GridLineX(t: Transform, i: nat): (g: Shape)
    ensures g.Line? && g.x1 == g.x2 == ToScreen(t, 50.0 * (i as real), 0.0).0
    ensures g.y1 == ToScreen(t, 0.0, 0.0).1 && g.y2 == ToScreen(t, 0.0, SectorLayout.StoreHeight).1
    ensures g.color == "#333" && g.lineWidth == 1.0
  {
    var x := t.offsetX + (i as real) * (50.0 * t.scale);
    Line(x, t.offsetY, x, t.offsetY + 400.0 * t.scale, "#333", 1.0)
  }

  function GridLineY(t: Transform, i: nat): (g: Shape)
    ensures g.Line? && g.y1 == g.y2 == ToScreen(t, 0.0, 50.0 * (i as real)).1
    ensures g.x1 == ToScreen(t, 0.0, 0.0).0 && g.x2 == ToScreen(t, SectorLayout.StoreWidth, 0.0).0
    ensures g.color == "#333" && g.lineWidth == 1.0
  {
    var y := t.offsetY + (i as real) * (50.0 * t.scale);
    Line(t.offsetX, y, t.offsetX + 600.0 * t.scale, y, "#333", 1.0)
  }

  /** At the `k`-th position `o + k * g` of a loop stepping by `g > 0`, the
      guard `x < o + n * g` holds exactly when `k < n`. */
  lemma GridGuard(x: real, o: real, k: nat, n: nat, g: real, span: real)
    requires g > 0.0 && x == o + (k as real) * g && span == (n as real) * g
    ensures x < o + span <==> k < n
  {
    ScalePreservesOrder(k as real, n as real, g);
  }

  lemma GridAdvance(x: real, o: real, k: nat, g: real)
    requires x == o + (k as real) * g
    ensures x + g == o + ((k + 1) as real) * g
  {
  }

  /** The vertical grid loop: `x` starts at the store's left edge and advances
      by one cell (`50 * scale`) while it is left of the right edge. With a
      positive scale it draws exactly 12 lines, one per cell column; with a
      non-positive scale the loop body never runs. */
  method VerticalGrid(t: Transform) returns (lines: seq<Shape>)
    ensures t.scale > 0.0 ==> |lines| == SectorLayout.GridColumns
    ensures t.scale <= 0.0 ==> lines == []
    ensures forall i :: 0 <= i < |lines| ==> lines[i] == GridLineX(t, i)
  {
    var g := 50.0 * t.scale;
    var span := 600.0 * t.scale;
    assert span == (12 as real) * g;
    var x := t.offsetX;
    var k: nat := 0;
    lines := [];
    while x < t.offsetX + span
      invariant x == t.offsetX + (k as real) * g
      invariant |lines| == k
      invariant forall i :: 0 <= i < k ==> lines[i] == GridLineX(t, i)
      invariant t.scale <= 0.0 ==> k == 0
      invariant k <= 12
      decreases 12 - k
    {
      GridGuard(x, t.offsetX, k, 12, g, span);
      GridAdvance(x, t.offsetX, k, g);
      lines := lines + [GridLineX(t, k)];
      x := x + g;
      k := k + 1;
    }
    if t.scale > 0.0 {
      GridGuard(x, t.offsetX, k, 12, g, span);
    }
  }

  /** The horizontal grid loop: 8 lines, one per cell row. */
  method HorizontalGrid(t: Transform) returns (lines: seq<Shape>)
    ensures t.scale > 0.0 ==> |lines| == SectorLayout.GridRows
    ensures t.scale <= 0.0 ==> lines == []
    ensures forall i :: 0 <= i < |lines| ==> lines[i] == GridLineY(t, i)
  {
    var g := 50.0 * t.scale;
    var span := 400.0 * t.scale;
    assert span == (8 as real) * g;
    var y := t.offsetY;
    var k: nat := 0;
    lines := [];
    while y < t.offsetY + span
      invariant y == t.offsetY + (k as real) * g
      invariant |lines| == k
      invariant forall i :: 0 <= i < k ==> lines[i] == GridLineY(t, i)
      invariant t.scale <= 0.0 ==> k == 0
      invariant k <= 8
      decreases 8 - k
    {
      GridGuard(y, t.offsetY, k, 8, g, span);
      GridAdvance(y, t.offsetY, k, g);
      lines := lines + [GridLineY(t, k)];
      y := y + g;
      k := k + 1;
    }
    if t.scale > 0.0 {
      GridGuard(y, t.offsetY, k, 8, g, span);
    }
  }

  // ---------------------------------------------------------------- fixtures of the frame

  function StoreOutline(t: Transform): Shape
  {
    StrokeRect(SectorLayout.StoreBox(t.scale, t.offsetX, t.offsetY), "#666", 3.0)
  }

  /** The 40 x 20 entrance mat drawn above the store. */
  function Entrance(t: Transform): (b: Box)
    ensures b.w == 40.0 * t.scale && b.h == 20.0 * t.scale
    ensures 2.0 * b.x + b.w == 2.0 * t.offsetX + 600.0 * t.scale
    ensures b.y + b.h == t.offsetY
  {
    Box(t.offsetX + (600.0 * t.scale - 40.0 * t.scale) / 2.0, t.offsetY - 20.0 * t.scale, 40.0 * t.scale, 20.0 * t.scale)
  }

  /** The checkout strip directly below the store, 50 units in from each side. */
  function Checkout(t: Transform): (b: Box)
    ensures b.x == t.offsetX + 50.0 * t.scale && b.x + b.w == t.offsetX + 550.0 * t.scale
    ensures b.y == t.offsetY + 400.0 * t.scale && b.h == 30.0 * t.scale
  {
    Box(t.offsetX + 50.0 * t.scale, t.offsetY + 400.0 * t.scale, 500.0 * t.scale, 30.0 * t.scale)
  }

  /** In a fitted viewport the entrance and the checkout are both centred on
      the canvas, the entrance sits on the store's top edge and the checkout
      on its bottom edge, and the checkout lies within the store's width. */
  lemma EntranceAndCheckoutPlacement(w: real, h: real)
    requires w > 100.0 && h > 200.0
    ensures var t := ComputeTransform(w, h);
      var (e, c, s) := (Entrance(t), Checkout(t), SectorLayout.StoreBox(t.scale, t.offsetX, t.offsetY));
      2.0 * e.x + e.w == w && 2.0 * c.x + c.w == w &&
      e.y + e.h == s.y && c.y == s.y + s.h &&
      s.x < c.x && c.x + c.w < s.x + s.w
  {
  }

  // ---------------------------------------------------------------- customers

  /** A customer at logical `(x, y)`, measured from the store's centre, is a
      disc at the screen image of `(x + 300, y + 200)`, never smaller than 4 px. */
  function CustomerDisc(t: Transform, c: SimTypes.Customer): (d: Shape)
    ensures d.Disc? && (d.cx, d.cy) == ToScreen(t, c.x + 300.0, c.y + 200.0)
    ensures d.radius >= 4.0 && d.radius >= 8.0 * t.scale
    ensures d.radius == 4.0 || d.radius == 8.0 * t.scale
  {
    var p := ToScreen(t, c.x + 300.0, c.y + 200.0);
    Disc(p.0, p.1, Max(4.0, 8.0 * t.scale), "#f59e0b")
  }

  /** The sector under a drawn customer is the one its shifted logical
      position falls in, whatever the scale. */
  lemma CustomerOverSector(t: Transform, c: SimTypes.Customer)
    requires t.scale > 0.0
    ensures var d := CustomerDisc(t, c);
      SectorLayout.GetSectorAtPosition(d.cx, d.cy, t.scale, t.offsetX, t.offsetY) ==
      SectorLayout.LogicalHit(c.x + 300.0, c.y + 200.0)
  {
    var d := CustomerDisc(t, c);
    SectorLayout.HitTestScaleInvariant(d.cx, d.cy, c.x + 300.0, c.y + 200.0, t.scale, t.offsetX, t.offsetY);
  }

  /** With a positive scale, distinct logical points have distinct screen images. */
  lemma ToScreenInjective(t: Transform, px: real, py: real, qx: real, qy: real)
    requires t.scale > 0.0 && (px != qx || py != qy)
    ensures ToScreen(t, px, py).0 != ToScreen(t, qx, qy).0 || ToScreen(t, px, py).1 != ToScreen(t, qx, qy).1
  {
    if px != qx {
      AffineInjective(t.offsetX, px, qx, t.scale);
    } else {
      AffineInjective(t.offsetY, py, qy, t.scale);
    }
  }

  /** Distinct customer positions are drawn at distinct centres. */
  lemma CustomerDiscsInjective(t: Transform, a: SimTypes.Customer, b: SimTypes.Customer)
    requires t.scale > 0.0
    requires a.x != b.x || a.y != b.y
    ensures CustomerDisc(t, a).cx != CustomerDisc(t, b).cx || CustomerDisc(t, a).cy != CustomerDisc(t, b).cy
  {
    var (px, py, qx, qy) := (a.x + 300.0, a.y + 200.0, b.x + 300.0, b.y + 200.0);
    assert px != qx || py != qy;
    ToScreenInjective(t, px, py, qx, qy);
  }

  /** A customer who has just walked in stands at `(50, 50)`, which is drawn
      over the Cleaning sector. */
  lemma NewcomerDrawnOverCleaning(t: Transform, c: SimTypes.Customer)
    requires t.scale > 0.0 && c.x == 50.0 && c.y == 50.0
    ensures var d := CustomerDisc(t, c);
      SectorLayout.GetSectorAtPosition(d.cx, d.cy, t.scale, t.offsetX, t.offsetY) == Some("Cleaning")
  {
    CustomerOverSector(t, c);
    var cleaning := SectorLayout.Layout[10];
    assert cleaning == SectorLayout.SectorRect("Cleaning", 6, 4, 3, 2, SectorLayout.Shelf);
    assert SectorLayout.LogicalRect(cleaning).ContainsStrictly(350.0, 250.0);
    SectorLayout.LogicalHitStrictlyInside(10, 350.0, 250.0);
  }

  // ---------------------------------------------------------------- labels

  function LabelSize(t: Transform): (s: real)
    ensures s >= 10.0 && s >= 14.0 * t.scale
  {
    Max(10.0, 14.0 * t.scale)
  }

  /** The three captions, centred on the canvas: ENTRANCE 5 px above the
      entrance, CHECKOUT a line below the checkout, STORE FLOOR at the
      store's vertical middle. */
  function Labels(w: real, t: Transform): (ls: seq<Shape>)
    ensures |ls| == 3 && forall i :: 0 <= i < 3 ==> ls[i].Text? && 2.0 * ls[i].x == w && ls[i].size == LabelSize(t)
    ensures ls[0].text == "ENTRANCE" && ls[0].y == Entrance(t).y - 5.0
    ensures ls[1].text == "CHECKOUT" && ls[1].y == Checkout(t).y + Checkout(t).h + LabelSize(t) + 5.0
    ensures ls[2].text == "STORE FLOOR" && 2.0 * (ls[2].y - t.offsetY) == 400.0 * t.scale
  {
    var f := LabelSize(t);
    [ Text("ENTRANCE", w / 2.0, t.offsetY - 20.0 * t.scale - 5.0, f),
      Text("CHECKOUT", w / 2.0, t.offsetY + 400.0 * t.scale + 30.0 * t.scale + f + 5.0, f),
      Text("STORE FLOOR", w / 2.0, t.offsetY + (400.0 * t.scale) / 2.0, f) ]
  }

  /** With a positive scale the ENTRANCE caption is above the entrance, and
      the CHECKOUT caption is below the checkout. */
  lemma LabelsClearTheirAreas(w: real, t: Transform)
    requires t.scale > 0.0
    ensures Labels(w, t)[0].y < Entrance(t).y
    ensures Labels(w, t)[1].y > Checkout(t).y + Checkout(t).h
  {
  }

  // ---------------------------------------------------------------- one frame

  function CustomerDiscs(t: Transform, cs: seq<SimTypes.Customer>): (ds: seq<Shape>)
    ensures |ds| == |cs| && forall i :: 0 <= i < |cs| ==> ds[i] == CustomerDisc(t, cs[i])
  {
    if |cs| == 0 then [] else [CustomerDisc(t, cs[0])] + CustomerDiscs(t, cs[1..])
  }

  /** Everything a rendered frame draws, in order: the background, the grid,
      the outline, entrance and checkout, one disc per customer, the captions. */
  method RenderFrame(w: real, h: real, customers: seq<SimTypes.Customer>) returns (shapes: seq<Shape>)
    ensures |shapes| >= 1 + 3 + |customers| + 3
    ensures w > 100.0 && h > 200.0 ==> |shapes| == 1 + 12 + 8 + 3 + |customers| + 3
    ensures shapes[0] == FillRect(Box(0.0, 0.0, w, h), Solid("#1a1a1a"))
    ensures forall i :: 0 <= i < |customers| ==>
      shapes[|shapes| - 3 - |customers| + i] == CustomerDisc(ComputeTransform(w, h), customers[i])
    ensures shapes[|shapes| - 3..] == Labels(w, ComputeTransform(w, h))
    ensures var (t, k) := (ComputeTransform(w, h), |shapes| - 6 - |customers|);
      shapes[k] == StoreOutline(t) &&
      shapes[k + 1] == FillRect(Entrance(t), Solid("#22c55e")) &&
      shapes[k + 2] == FillRect(Checkout(t), Solid("#3b82f6"))
    ensures w > 100.0 && h > 200.0 ==>
      (forall i :: 0 <= i < 12 ==> shapes[1 + i] == GridLineX(ComputeTransform(w, h), i)) &&
      (forall j :: 0 <= j < 8 ==> shapes[13 + j] == GridLineY(ComputeTransform(w, h), j))
  {
    var t := ComputeTransform(w, h);
    var vertical := VerticalGrid(t);
    var horizontal := HorizontalGrid(t);
    var discs := CustomerDiscs(t, customers);
    shapes := [FillRect(Box(0.0, 0.0, w, h), Solid("#1a1a1a"))] + vertical + horizontal
      + [StoreOutline(t), FillRect(Entrance(t), Solid("#22c55e")), FillRect(Checkout(t), Solid("#3b82f6"))]
      + discs + Labels(w, t);
  }
}
