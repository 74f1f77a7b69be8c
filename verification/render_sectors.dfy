/** Drawing the sectors (`renderSectors.ts`): per layout entry a tinted
    rectangle, a border, an optional highlight, a fixture glyph, an icon and
    a name, all placed in the rectangle the hit test uses. */
module RenderSectors {
  import opened Common
  import opened Geometry
  import opened Shapes
  import SectorLayout
  import SectorDefinitions

  /** The inner box a fixture glyph is drawn in: 5 * scale in from the sides,
      from 70% to 95% of the sector's height. */
  function FixtureBox(b: Box, scale: real): (f: Box)
    ensures f.x - b.x == 5.0 * scale && (b.x + b.w) - (f.x + f.w) == 5.0 * scale
    ensures f.y == b.y + 0.7 * b.h && f.y + f.h == b.y + 0.95 * b.h
  {
    Box(b.x + 5.0 * scale, b.y + b.h * 0.7, b.w - 5.0 * scale * 2.0, b.h * 0.25)
  }

  /** Horizontal shelf line `i` (0, 1, 2), a third of the fixture height apart. */
  function ShelfLine(f: Box, i: nat): Shape
  {
    var y := f.y + (f.h / 3.0) * (i as real);
    Line(f.x, y, f.x + f.w, y, "#666", 2.0)
  }

  /** Vertical refrigerator divider `i` (1, 2, 3), at quarter widths. */
  function Divider(f: Box, i: nat): Shape
  {
    var x := f.x + (f.w / 4.0) * (i as real);
    Line(x, f.y, x, f.y + f.h, "#64748b", 1.0)
  }

  /** `drawFixture`: three shelf lines, a filled and outlined counter, or a
      filled cabinet with three dividers. */
  function DrawFixture(kind: SectorLayout.FixtureKind, b: Box, scale: real): (r: seq<Shape>)
    ensures kind.Shelf? ==> |r| == 3 && forall i :: 0 <= i < 3 ==> r[i] == ShelfLine(FixtureBox(b, scale), i)
    ensures kind.Counter? ==> r == [FillRect(FixtureBox(b, scale), Solid("#555")), StrokeRect(FixtureBox(b, scale), "#777", 1.0)]
    ensures kind.Refrigerator? ==>
      |r| == 4 && r[0] == FillRect(FixtureBox(b, scale), Solid("#334155")) &&
      forall i :: 1 <= i < 4 ==> r[i] == Divider(FixtureBox(b, scale), i)
  {
    var f := FixtureBox(b, scale);
    match kind
    case Shelf => [ShelfLine(f, 0), ShelfLine(f, 1), ShelfLine(f, 2)]
    case Counter => [FillRect(f, Solid("#555")), StrokeRect(f, "#777", 1.0)]
    case Refrigerator => [FillRect(f, Solid("#334155")), Divider(f, 1), Divider(f, 2), Divider(f, 3)]
  }

  /** A segment lies within a box. */
  predicate SegmentIn(s: Shape, b: Box)
    requires s.Line?
  {
    b.Contains(s.x1, s.y1) && b.Contains(s.x2, s.y2)
  }

  /** Every line of a fixture glyph lies within the fixture box: shelves span
      its width at heights in its upper part, dividers split it strictly
      inside. */
  lemma FixtureLinesInBox(f: Box)
    requires f.w >= 0.0 && f.h >= 0.0
    ensures forall i :: 0 <= i < 3 ==> SegmentIn(ShelfLine(f, i), f)
    ensures f.h > 0.0 ==> forall i :: 0 <= i < 3 ==> ShelfLine(f, i).y1 < f.y + f.h
    ensures forall i :: 1 <= i < 4 ==> SegmentIn(Divider(f, i), f)
    ensures f.w > 0.0 ==> forall i :: 1 <= i < 4 ==> f.x < Divider(f, i).x1 < f.x + f.w
  {
    forall i | 1 <= i < 4
      ensures SegmentIn(Divider(f, i), f)
      ensures f.w > 0.0 ==> f.x < Divider(f, i).x1 < f.x + f.w
    {
      var q := f.w / 4.0;
      assert Divider(f, i).x1 == f.x + q * (i as real);
      assert 4.0 * q == f.w;
      if i == 1 {
        assert q * (i as real) == q;
      } else if i == 2 {
        assert q * (i as real) == 2.0 * q;
      } else {
        assert q * (i as real) == 3.0 * q;
      }
    }
  }

  /** One sector's drawing, in the order the canvas receives it. */
  datatype SectorFrame = SectorFrame(
    tint: Shape, border: Shape, highlight: Option<Shape>, fixture: seq<Shape>, icon: Shape, caption: Shape)

  function FrameShapes(f: SectorFrame): seq<Shape>
  {
    [f.tint, f.border] + (match f.highlight case Some(h) => [h] case None => []) + f.fixture + [f.icon, f.caption]
  }

  function IconSize(scale: real): (s: real)
    ensures s >= 16.0 && s >= 24.0 * scale
  {
    Max(16.0, 24.0 * scale)
  }

  function NameSize(scale: real): (s: real)
    ensures s >= 8.0 && s >= 11.0 * scale
  {
    Max(8.0, 11.0 * scale)
  }

  /** Whether `e` is the selected sector (`selectedSector === sector.name`). */
  predicate IsSelected(e: SectorLayout.SectorRect, selected: Option<string>)
  {
    selected == Some(e.name)
  }

  /** The drawing of one sector with its definition: the tint (colour plus
      alpha `20`) and the border cover the hit-test rectangle; the border is 3
      wide for the selected sector and 1.5 otherwise; only the selected sector
      gets the highlight (alpha `40`); the icon and name are centred
      horizontally at a third and at 65% of the height. */
  function DrawSector(e: SectorLayout.SectorRect, d: SectorDefinitions.SectorDefinition,
                      scale: real, offsetX: real, offsetY: real, selected: Option<string>): (f: SectorFrame)
    ensures var b := SectorLayout.ScreenRect(e, scale, offsetX, offsetY);
      f.tint == FillRect(b, Solid(d.color + "20")) &&
      f.border == StrokeRect(b, d.color, if IsSelected(e, selected) then 3.0 else 1.5) &&
      (f.highlight.Some? <==> IsSelected(e, selected)) &&
      (f.highlight.Some? ==> f.highlight.value == FillRect(b, Solid(d.color + "40"))) &&
      f.fixture == DrawFixture(e.fixture, b, scale) &&
      f.icon == Text(d.icon, b.x + b.w / 2.0, b.y + b.h / 3.0, IconSize(scale)) &&
      f.caption == Text(e.name, b.x + b.w / 2.0, b.y + b.h * 0.65, NameSize(scale))
  {
    var b := SectorLayout.ScreenRect(e, scale, offsetX, offsetY);
    var hl := IsSelected(e, selected);
    SectorFrame(
      FillRect(b, Solid(d.color + "20")),
      StrokeRect(b, d.color, if hl then 3.0 else 1.5),
      if hl then Some(FillRect(b, Solid(d.color + "40"))) else None,
      DrawFixture(e.fixture, b, scale),
      Text(d.icon, b.x + b.w / 2.0, b.y + b.h / 3.0, IconSize(scale)),
      Text(e.name, b.x + b.w / 2.0, b.y + b.h * 0.65, NameSize(scale)))
  }

  /** Definition lookup, as `getSectorDefinition` provides it. */
  type Lookup = string -> Option<SectorDefinitions.SectorDefinition>

  /** `drawSectors` over a list of rectangles: in list order, each entry with
      a definition is drawn and each entry without one is skipped. */
  function DrawSectorsOf(rs: seq<SectorLayout.SectorRect>, lookup: Lookup,
                         scale: real, offsetX: real, offsetY: real, selected: Option<string>): (fs: seq<SectorFrame>)
    ensures |fs| <= |rs|
    ensures (forall i :: 0 <= i < |rs| ==> lookup(rs[i].name).None?) ==> fs == []
    ensures |rs| > 0 && lookup(rs[0].name).None? ==>
      fs == DrawSectorsOf(rs[1..], lookup, scale, offsetX, offsetY, selected)
    ensures |rs| > 0 && lookup(rs[0].name).Some? ==>
      fs == [DrawSector(rs[0], lookup(rs[0].name).value, scale, offsetX, offsetY, selected)] +
            DrawSectorsOf(rs[1..], lookup, scale, offsetX, offsetY, selected)
  {
    if |rs| == 0 then []
    else
      var rest := DrawSectorsOf(rs[1..], lookup, scale, offsetX, offsetY, selected);
      match lookup(rs[0].name)
      case None => rest
      case Some(d) => [DrawSector(rs[0], d, scale, offsetX, offsetY, selected)] + rest
  }

  /** When every entry has a definition, nothing is skipped: frame `i` draws
      entry `i` with its definition. */
  lemma {:induction false} DrawSectorsOfAllDefined(rs: seq<SectorLayout.SectorRect>, lookup: Lookup,
                                                   scale: real, offsetX: real, offsetY: real, selected: Option<string>)
    requires forall i :: 0 <= i < |rs| ==> lookup(rs[i].name).Some?
    ensures var fs := DrawSectorsOf(rs, lookup, scale, offsetX, offsetY, selected);
      |fs| == |rs| &&
      forall i :: 0 <= i < |rs| ==> fs[i] == DrawSector(rs[i], lookup(rs[i].name).value, scale, offsetX, offsetY, selected)
  {
    if |rs| > 0 {
      DrawSectorsOfAllDefined(rs[1..], lookup, scale, offsetX, offsetY, selected);
    }
  }

  /** `drawSectors`: the whole floor plan. */
  function DrawSectors(scale: real, offsetX: real, offsetY: real, selected: Option<string>): (fs: seq<SectorFrame>)
    ensures |fs| == |SectorLayout.Layout|
    ensures forall i :: 0 <= i < |fs| ==>
      SectorDefinitions.GetSectorDefinition(SectorLayout.Layout[i].name).Some? &&
      fs[i] == DrawSector(SectorLayout.Layout[i], SectorDefinitions.GetSectorDefinition(SectorLayout.Layout[i].name).value,
                          scale, offsetX, offsetY, selected)
  {
    DrawSectorsFrames(SectorLayout.Layout, scale, offsetX, offsetY, selected);
    DrawSectorsOf(SectorLayout.Layout, SectorDefinitions.GetSectorDefinition, scale, offsetX, offsetY, selected)
  }

  lemma EveryLayoutEntryDefined()
    ensures forall i :: 0 <= i < |SectorLayout.Layout| ==>
      SectorDefinitions.GetSectorDefinition(SectorLayout.Layout[i].name).Some?
  {
    forall i | 0 <= i < |SectorLayout.Layout|
      ensures SectorDefinitions.GetSectorDefinition(SectorLayout.Layout[i].name).Some?
    {
      SectorLayout.GetSectorLayoutExact(i);
      SectorDefinitions.DefinitionExistsIffLayoutExists(SectorLayout.Layout[i].name);
    }
  }

  /** Frame `i` of the floor plan is layout entry `i` with its definition. */
  lemma DrawSectorsFrames(plan: seq<SectorLayout.SectorRect>, scale: real, offsetX: real, offsetY: real, selected: Option<string>)
    requires plan == SectorLayout.Layout
    ensures forall i :: 0 <= i < |plan| ==> SectorDefinitions.GetSectorDefinition(plan[i].name).Some?
    ensures var fs := DrawSectorsOf(plan, SectorDefinitions.GetSectorDefinition, scale, offsetX, offsetY, selected);
      |fs| == |plan| &&
      forall i :: 0 <= i < |plan| ==>
        fs[i] == DrawSector(plan[i], SectorDefinitions.GetSectorDefinition(plan[i].name).value, scale, offsetX, offsetY, selected)
  {
    EveryLayoutEntryDefined();
    DrawSectorsOfAllDefined(plan, SectorDefinitions.GetSectorDefinition, scale, offsetX, offsetY, selected);
  }

  /** Since every sector has a definition, nothing is skipped: frame `i` is
      sector `i` of the layout, drawn in the very rectangle the hit test
      checks for it. */
  lemma DrawSectorsMatchesHitTest(plan: seq<SectorLayout.SectorRect>, scale: real, offsetX: real, offsetY: real,
                                  selected: Option<string>, i: nat)
    requires plan == SectorLayout.Layout && i < |plan|
    ensures var fs := DrawSectorsOf(plan, SectorDefinitions.GetSectorDefinition, scale, offsetX, offsetY, selected);
      |fs| == |plan| &&
      fs[i].tint.FillRect? && fs[i].tint.box == SectorLayout.ScreenRect(plan[i], scale, offsetX, offsetY) &&
      fs[i].border.StrokeRect? && fs[i].border.box == SectorLayout.ScreenRect(plan[i], scale, offsetX, offsetY) &&
      fs[i].caption.Text? && fs[i].caption.text == plan[i].name
  {
    DrawSectorsFrames(plan, scale, offsetX, offsetY, selected);
  }

  /** At most one sector is highlighted, and none when nothing is selected;
      the thick border goes with the highlight. */
  lemma AtMostOneHighlight(plan: seq<SectorLayout.SectorRect>, scale: real, offsetX: real, offsetY: real,
                           selected: Option<string>, i: nat, j: nat)
    requires plan == SectorLayout.Layout && i < |plan| && j < |plan|
    ensures var fs := DrawSectorsOf(plan, SectorDefinitions.GetSectorDefinition, scale, offsetX, offsetY, selected);
      |fs| == |plan| &&
      (fs[i].highlight.Some? && fs[j].highlight.Some? ==> i == j) &&
      (selected.None? ==> fs[i].highlight.None?) &&
      fs[i].border.StrokeRect? && (fs[i].border.lineWidth == 3.0 <==> fs[i].highlight.Some?)
  {
    DrawSectorsFrames(plan, scale, offsetX, offsetY, selected);
    SectorLayout.LayoutShape();
  }

  /** For a rectangle of at least one cell and a positive scale, the fixture
      box lies inside the sector and has positive width and height. */
  lemma FixtureInsideSector(e: SectorLayout.SectorRect, scale: real, offsetX: real, offsetY: real)
    requires e.width >= 1 && e.height >= 1 && scale > 0.0
    ensures var b := SectorLayout.ScreenRect(e, scale, offsetX, offsetY);
      b.Encloses(FixtureBox(b, scale)) && FixtureBox(b, scale).w > 0.0 && FixtureBox(b, scale).h > 0.0
  {
    var b := SectorLayout.ScreenRect(e, scale, offsetX, offsetY);
    ScalePreservesOrder(1.0, e.width as real, 50.0 * scale);
    ScalePreservesOrder(0.0, e.height as real, 50.0 * scale);
    assert b.w == e.width as real * (50.0 * scale);
    assert b.h == e.height as real * (50.0 * scale);
    assert b.w >= 50.0 * scale;
    assert FixtureBox(b, scale).w == b.w - 10.0 * scale;
  }

  /** Every layout sector passes the test above. */
  lemma LayoutFixturesInside(i: nat, scale: real, offsetX: real, offsetY: real)
    requires i < |SectorLayout.Layout| && scale > 0.0
    ensures var b := SectorLayout.ScreenRect(SectorLayout.Layout[i], scale, offsetX, offsetY);
      b.Encloses(FixtureBox(b, scale)) && FixtureBox(b, scale).w > 0.0
  {
    SectorLayout.LayoutShape();
    FixtureInsideSector(SectorLayout.Layout[i], scale, offsetX, offsetY);
  }

  /** The icon and name anchors are strictly inside a sector of positive size,
      the icon above the name. */
  lemma AnchorsInside(e: SectorLayout.SectorRect, d: SectorDefinitions.SectorDefinition,
                      scale: real, offsetX: real, offsetY: real, selected: Option<string>)
    requires SectorLayout.ScreenRect(e, scale, offsetX, offsetY).w > 0.0
    requires SectorLayout.ScreenRect(e, scale, offsetX, offsetY).h > 0.0
    ensures var (f, b) := (DrawSector(e, d, scale, offsetX, offsetY, selected), SectorLayout.ScreenRect(e, scale, offsetX, offsetY));
      b.ContainsStrictly(f.icon.x, f.icon.y) && b.ContainsStrictly(f.caption.x, f.caption.y) &&
      f.icon.y < f.caption.y && f.icon.size >= 16.0 && f.caption.size >= 8.0
  {
  }
}
