# Supermarket simulation core, modelled in Dafny

This project models the non-visual core of the frontend of a supermarket
management game. The frontend is written in TypeScript and React. The core
has four parts.

- **Store layout.** Three constant tables and the lookups over them:
  - the 17 sector rectangles on a 12 x 8 grid of 50-unit cells;
  - the sectors' cosmetic definitions;
  - the 24-item fallback product catalogue.

  The lookups are `getSectorLayout`, `getSectorDefinition` and the
  screen-space hit test `getSectorAtPosition`.
- **Simulation.** The initial game state, the per-tick state updater and
  the pause/elapsed-time gating that decides when a tick runs.
- **Rendering geometry.**
  - The view transform and what `GameCanvas` draws each frame: background,
    grid, outline, entrance, checkout, customers and captions.
  - `drawSectors`, `drawProducts` and `drawAisles`.

  Each routine returns the list of shapes it would draw, as data: filled
  and stroked rectangles, lines, text anchors and discs.
- **Asset cache.** `loadAssets`/`getAssets`, modelled as an event-driven
  state machine. The events are a call and the settling of the
  eight-image load.

Each TypeScript module becomes one Dafny module. Three more hold shared definitions: `Common`, `Geometry` and `Shapes`.

| file | module |
|---|---|
| `common.dfy` | `Common`: `Option` and the first-match search behind `Array.prototype.find` |
| `geometry.dfy` | `Geometry`: boxes and scaling facts |
| `sector_layout.dfy`, `sector_definitions.dfy`, `initial_products.dfy` | the tables and lookups |
| `sim_types.dfy`, `initial_state.dfy`, `simulation.dfy` | the simulation |
| `shapes.dfy`, `game_canvas.dfy`, `render_sectors.dfy`, `render_products.dfy`, `render_aisles.dfy` | rendering |
| `asset_loader.dfy` | the asset cache |

Coordinates, scales and times are `real`, so the arithmetic is exact. Every
`Math.random()` draw is an explicit input of the step, with its range as a
precondition.

## Model

Every path below is relative to the repository root.

| member | source | states |
|---|---|---|
| SectorLayout.LayoutShape | src/frontend/src/game/data/sectorLayout.ts:14-65 | the layout has 17 entries; every rectangle has positive size and lies in the 12 x 8 grid; names are pairwise distinct |
| SectorLayout.LayoutInteriorsDisjoint | src/frontend/src/game/data/sectorLayout.ts:14-65 | no two layout rectangles share an interior point |
| SectorLayout.CellOwner | src/frontend/src/game/data/sectorLayout.ts:14-65 | an independent row/column description of the floor plan names, for every grid cell, a layout entry that covers it |
| SectorLayout.LayoutTilesGrid | src/frontend/src/game/data/sectorLayout.ts:14-65 | every unit cell of the 12 x 8 grid is covered by exactly one layout entry |
| SectorLayout.GetSectorLayout | src/frontend/src/game/data/sectorLayout.ts:67-69 | the result is present exactly when some entry has that name, and it is then an entry of that name |
| SectorLayout.GetSectorLayoutExact | src/frontend/src/game/data/sectorLayout.ts:67-69 | looking up the name of entry i returns entry i itself |
| SectorLayout.ScreenRect | src/frontend/src/game/data/sectorLayout.ts:75-78 | a sector's screen rectangle is its logical rectangle (cells times 50) scaled and shifted by the offsets; it has positive size at a positive scale |
| SectorLayout.GetSectorAtPosition | src/frontend/src/game/data/sectorLayout.ts:71-87 | the result is the name of the first entry, in list order, whose closed screen rectangle contains the point, and `None` when none does |
| SectorLayout.HitTestScaleInvariant | src/frontend/src/game/data/sectorLayout.ts:75-81 | for a positive scale, the screen hit test at the image of a logical point equals the logical hit test at that point, whatever the scale and offsets |
| SectorLayout.HitTestCoversStore | src/frontend/src/game/data/sectorLayout.ts:74-86 | for a positive scale, a point gets a sector name exactly when it lies in the store's screen rectangle (600 x 400 scaled) |
| SectorLayout.HitTestInsideSector | src/frontend/src/game/data/sectorLayout.ts:74-83 | a point strictly inside a sector's screen rectangle resolves to that sector's name |
| SectorLayout.SharedEdgeResolvesToEarlier | src/frontend/src/game/data/sectorLayout.ts:80-82 | a point on the shared edge of Produce and Bakery resolves to Produce, the earlier entry, because edges are inclusive |
| SectorDefinitions.DefinitionsShape | src/frontend/src/features/sectors/sectorConstants.ts:8-26 | there are 17 definitions with pairwise distinct names |
| SectorDefinitions.GetSectorDefinition | src/frontend/src/features/sectors/sectorConstants.ts:28-30 | the result is present exactly when some definition has the name, and it is then a definition of that name; a missing name gives `None`, never a failure |
| SectorDefinitions.GetSectorDefinitionExact | src/frontend/src/features/sectors/sectorConstants.ts:28-30 | looking up the name of definition i returns definition i |
| SectorDefinitions.DefinitionExistsIffLayoutExists | src/frontend/src/features/sectors/sectorConstants.ts:8-26 | a name has a definition exactly when it has a layout entry |
| SectorDefinitions.ColorsWellFormed | src/frontend/src/features/sectors/sectorConstants.ts:9-25 | every colour is `#` followed by six hex digits |
| SectorDefinitions.AppendAlpha | src/frontend/src/game/render/renderSectors.ts:25-35 | appending a two-hex-digit alpha to such a colour gives a well-formed eight-digit colour |
| InitialProducts.CatalogueShape | src/frontend/src/game/data/initialProducts.ts:1-59 | the catalogue has 24 entries with pairwise distinct product ids |
| InitialProducts.ShelfLivesWholeDays | src/frontend/src/game/data/initialProducts.ts:3-58 | every shelf life is a positive whole number of days, in seconds |
| InitialProducts.PricesAboveCost | src/frontend/src/game/data/initialProducts.ts:3-58 | every entry has 0 < base cost < sell price |
| InitialProducts.CatalogueSectorHasLayout | src/frontend/src/game/data/initialProducts.ts:3-58 | every catalogue row's sector has a layout entry |
| InitialProducts.SectorsStockOneToThree | src/frontend/src/game/data/initialProducts.ts:2-58 | the rows of each of the 17 sectors form one contiguous block of one to three rows, and a row belongs to a sector exactly when it lies in that block |
| SimTypes.KindsEnumerated | src/frontend/src/game/sim/types.ts:14 | there are exactly five customer kinds and the list names each of them once |
| SimTypes.RolesEnumerated | src/frontend/src/game/sim/types.ts:23 | there are exactly nine employee roles and the list names each of them once |
| InitialState.CreateInitialGameState | src/frontend/src/game/sim/initialState.ts:3-12 | tick and game time are 0, there are no customers or employees, cleanliness is 100 and reputation is 3 |
| Simulation.ParseNatToString | src/frontend/src/game/sim/useGameSimulation.ts:38 | reading the decimal rendering of a tick back gives the tick |
| Simulation.CustomerIdInjective | src/frontend/src/game/sim/useGameSimulation.ts:38 | two `customer_<tick>` ids are equal exactly when the ticks are |
| Simulation.Jitter | src/frontend/src/game/sim/useGameSimulation.ts:31-32 | a draw r in [0, 1) moves a coordinate by (r - 0.5) * 2, which lies in [-1, 1) |
| Simulation.KindOf | src/frontend/src/game/sim/useGameSimulation.ts:41 | a draw r in [0, 1) selects the i-th kind, where i <= 5r < i + 1 |
| Simulation.Newcomer | src/frontend/src/game/sim/useGameSimulation.ts:37-44 | the customer spawned on tick t has id `customer_<t>`, which no other tick produces, stands at (50, 50) with satisfaction 3, is not queued and has the kind its draw selects (`KindOf`), one of the five kinds |
| Simulation.Wander | src/frontend/src/game/sim/useGameSimulation.ts:29-33 | every customer keeps its place in the list and its other fields; each moves by its own pair of draws, by an amount in [-1, 1) per axis |
| Simulation.Step | src/frontend/src/game/sim/useGameSimulation.ts:23-49 | tick and game time go up by one; employees, cleanliness and reputation are unchanged; existing customers keep order, id, kind, satisfaction and queue flag and move by an amount in [-1, 1) per axis, the existing customers being exactly the wandered list; a customer is appended exactly when the new tick is a multiple of 60 and fewer than 20 are present, with id `customer_<tick>`, position (50, 50), satisfaction 3, not queued, and the kind its draw selects |
| Simulation.InitialStateSatisfiesInvariant | src/frontend/src/game/sim/initialState.ts:3-12 | the initial state satisfies the population invariant |
| Simulation.StepPreservesInvariant | src/frontend/src/game/sim/useGameSimulation.ts:25-46 | from a state where gameTime = tick, the population is min(tick div 60, 20) and customer i is `customer_<60(i+1)>`, a step leads to such a state again |
| Simulation.InvariantBoundsAndIds | src/frontend/src/game/sim/useGameSimulation.ts:36-45 | under the invariant there are at most 20 customers and their ids are pairwise distinct |
| Simulation.Run | src/frontend/src/game/sim/useGameSimulation.ts:23-49 | any number of steps from a state satisfying the invariant keeps it, advances the tick by the number of steps and leaves employees, cleanliness and reputation alone |
| Simulation.PopulationFromStart | src/frontend/src/game/sim/useGameSimulation.ts:36-45 | n steps from the initial state give min(n div 60, 20) customers: one after 60 steps, twenty from 1200 on, always with distinct ids |
| Simulation.TickInterval | src/frontend/src/game/sim/useGameSimulation.ts:18 | the interval times the speed is 1000 ms; a zero speed never fires |
| Simulation.DefaultInterval | src/frontend/src/game/sim/useGameSimulation.ts:8-18 | the default speed 1 gives a 1000 ms interval |
| Simulation.FasterIsShorter | src/frontend/src/game/sim/useGameSimulation.ts:18 | a larger positive speed gives a strictly shorter interval |
| Simulation.CheckTick | src/frontend/src/game/sim/useGameSimulation.ts:13-21 | nothing fires while paused; otherwise a step fires exactly when now - lastTick reaches the interval, and lastTick moves to now exactly when it fires |
| Simulation.NoDoubleStep | src/frontend/src/game/sim/useGameSimulation.ts:17-21 | after a step fires, a second check at the same instant does not fire |
| Simulation.FasterFiresWhenSlowerDoes | src/frontend/src/game/sim/useGameSimulation.ts:17-20 | whenever a slower game would step, a faster one steps as well |
| Simulation.Frame | src/frontend/src/game/sim/useGameSimulation.ts:13-49 | when the gate fires, the new state is exactly one `Step` of the old one and the clock moves to now; otherwise neither changes; the invariant is kept |
| Simulation.PausedFrameIsIdle | src/frontend/src/game/sim/useGameSimulation.ts:13 | a paused game changes neither its state nor its clock |
| GameCanvas.ComputeTransform | src/frontend/src/game/render/GameCanvas.tsx:71-79 | the scaled store fits within (w - 100) x (h - 200) with one side exactly filled; it is centred horizontally (2 offsetX + 600 scale = w) and vertically around a point 50 px low; w > 100 and h > 200 give a positive scale |
| GameCanvas.TransformExamples | src/frontend/src/game/render/GameCanvas.tsx:71-79 | the default 800 x 600 canvas gives scale 1 and offsets (100, 150); three more sizes give the expected scale |
| GameCanvas.ClampPixelRatio | src/frontend/src/game/render/GameCanvas.tsx:53 | the ratio is at most 2; a zero (falsy) ratio becomes 1; a ratio in (0, 2] is kept |
| GameCanvas.CheckFrame | src/frontend/src/game/render/GameCanvas.tsx:60-64 | a frame renders exactly when 33 ms have passed since the last rendered frame, and only then is the last-render time updated |
| GameCanvas.RenderedFramesSpaced | src/frontend/src/game/render/GameCanvas.tsx:60-64 | two consecutive rendered frames are at least 33 ms apart |
| GameCanvas.GridLineX | src/frontend/src/game/render/GameCanvas.tsx:82-90 | vertical grid line i, stroked `#333` at width 1, is at the screen image of logical x = 50 i and runs from the store's top to the image of its bottom (y = 400) |
| GameCanvas.GridLineY | src/frontend/src/game/render/GameCanvas.tsx:82-96 | horizontal grid line i, stroked `#333` at width 1, is at the screen image of logical y = 50 i and runs from the store's left edge to the image of its right edge (x = 600) |
| GameCanvas.VerticalGrid | src/frontend/src/game/render/GameCanvas.tsx:84-90 | the vertical grid loop draws one line per cell column (12) at a positive scale and none otherwise; line i is at offsetX + 50 i scale and spans the store's height |
| GameCanvas.HorizontalGrid | src/frontend/src/game/render/GameCanvas.tsx:91-96 | the horizontal grid loop draws one line per cell row (8) at a positive scale and none otherwise |
| GameCanvas.Entrance | src/frontend/src/game/render/GameCanvas.tsx:104-112 | the entrance is 40 x 20 scaled, centred on the store horizontally, and sits directly above the store |
| GameCanvas.Checkout | src/frontend/src/game/render/GameCanvas.tsx:115-121 | the checkout spans offsetX + 50 scale to offsetX + 550 scale and sits directly below the store, 30 scaled units high |
| GameCanvas.EntranceAndCheckoutPlacement | src/frontend/src/game/render/GameCanvas.tsx:104-121 | for a usable canvas the entrance is centred on the canvas and the checkout lies within the store's width |
| GameCanvas.CustomerDisc | src/frontend/src/game/render/GameCanvas.tsx:124-132 | a customer at (x, y) is drawn centred at the screen image of (x + 300, y + 200), with radius max(4, 8 scale): at least both, and equal to one of them |
| GameCanvas.CustomerOverSector | src/frontend/src/game/render/GameCanvas.tsx:127-128 | the sector under a customer's disc centre, by the hit test, is the logical sector at (x + 300, y + 200), whatever the scale |
| GameCanvas.ToScreenInjective | src/frontend/src/game/render/GameCanvas.tsx:127-128 | at a positive scale the logical-to-screen map sends distinct points to distinct points |
| GameCanvas.CustomerDiscsInjective | src/frontend/src/game/render/GameCanvas.tsx:127-128 | customers at different positions are drawn at different centres |
| GameCanvas.NewcomerDrawnOverCleaning | src/frontend/src/game/render/GameCanvas.tsx:127-128 | a freshly spawned customer at (50, 50) is drawn over the Cleaning sector |
| GameCanvas.Labels | src/frontend/src/game/render/GameCanvas.tsx:135-141 | three captions are centred on the canvas: ENTRANCE 5 px above the entrance, CHECKOUT one line below the checkout, STORE FLOOR at the store's vertical middle |
| GameCanvas.LabelsClearTheirAreas | src/frontend/src/game/render/GameCanvas.tsx:139-140 | the ENTRANCE caption is above the entrance and the CHECKOUT caption is below the checkout |
| GameCanvas.CustomerDiscs | src/frontend/src/game/render/GameCanvas.tsx:124-132 | one disc per customer, in order |
| GameCanvas.RenderFrame | src/frontend/src/game/render/GameCanvas.tsx:66-141 | a frame starts with the full-canvas clear, has 1 + 12 + 8 + 3 + n + 3 shapes for a usable canvas: the 12 vertical and 8 horizontal grid lines in order, then the store outline, the green entrance and the blue checkout, customer i's disc in order, and the three captions last |
| RenderSectors.DrawFixture | src/frontend/src/game/render/renderSectors.ts:57-117 | a shelf gives exactly 3 horizontal lines, a counter one filled and one stroked box, a refrigerator a filled box and exactly 3 dividers at quarter widths |
| RenderSectors.FixtureBox | src/frontend/src/game/render/renderSectors.ts:70-74 | the fixture box is inset by 5 scale on both sides and spans 70% to 95% of the sector's height |
| RenderSectors.FixtureLinesInBox | src/frontend/src/game/render/renderSectors.ts:77-113 | every shelf line and divider lies within the fixture box, the dividers strictly between its sides |
| RenderSectors.DrawSector | src/frontend/src/game/render/renderSectors.ts:19-53 | the tint, border and highlight use the sector's screen rectangle; the border is 3 wide exactly for the selected sector and 1.5 otherwise; the highlight is present exactly for the selected sector; icon and name are anchored at w/2 and h/3, 0.65 h |
| RenderSectors.DrawSectorsOf | src/frontend/src/game/render/renderSectors.ts:15-54 | rectangles are visited in list order: one without a definition adds no frame and the rest is drawn; one with a definition adds its frame before the rest; so at most one frame per rectangle, none when no rectangle has a definition |
| RenderSectors.DrawSectorsOfAllDefined | src/frontend/src/game/render/renderSectors.ts:15-54 | when every rectangle has a definition, frame i is rectangle i drawn with its definition, in list order |
| RenderSectors.DrawSectors | src/frontend/src/game/render/renderSectors.ts:5-55 | `drawSectors` draws 17 frames; frame i is layout entry i with its definition, so no sector is skipped |
| RenderSectors.DrawSectorsFrames | src/frontend/src/game/render/renderSectors.ts:15-54 | over the real layout nothing is skipped: 17 frames, frame i drawn from layout entry i |
| RenderSectors.DrawSectorsMatchesHitTest | src/frontend/src/game/render/renderSectors.ts:19-22 | the rectangle drawn for sector i is exactly the rectangle the hit test checks for it, and its caption is its name |
| RenderSectors.AtMostOneHighlight | src/frontend/src/game/render/renderSectors.ts:30-37 | at most one sector is highlighted and none with no selection; the thick border goes with the highlight |
| RenderSectors.FixtureInsideSector | src/frontend/src/game/render/renderSectors.ts:70-74 | for a sector of at least one cell and a positive scale, the fixture box lies inside the sector rectangle with positive width and height |
| RenderSectors.LayoutFixturesInside | src/frontend/src/game/render/renderSectors.ts:70-74 | every layout sector's fixture box lies inside it with positive width |
| RenderSectors.AnchorsInside | src/frontend/src/game/render/renderSectors.ts:43-53 | the icon and name anchors are strictly inside the sector rectangle, the icon above the name; the icon size is at least 16 and the name size at least 8 |
| RenderProducts.ProductsToRender | src/frontend/src/game/render/renderProducts.ts:17-24 | a non-empty list is used as given; an empty one is replaced by the 24 catalogue rows with `productId` as id and the other fields copied |
| RenderProducts.Sectors | src/frontend/src/game/render/renderProducts.ts:27-35 | the group keys are distinct and are exactly the sectors that occur in the list |
| RenderProducts.GroupBySector | src/frontend/src/game/render/renderProducts.ts:27-32 | group keys are distinct, no group is empty, and each group holds only products of its own sector taken from the list |
| RenderProducts.GroupBySectorIsFilter | src/frontend/src/game/render/renderProducts.ts:27-32 | the grouping equals the reference partition: one group per distinct sector, in order of first appearance, each holding the products of that sector in input order |
| RenderProducts.ProductInOneGroup | src/frontend/src/game/render/renderProducts.ts:27-32 | every product lands in exactly one group, the one of its own sector |
| RenderProducts.GroupBySectorPartition | src/frontend/src/game/render/renderProducts.ts:27-32 | the group sizes add up to the number of products |
| RenderProducts.CeilSqrt | src/frontend/src/game/render/renderProducts.ts:45 | products per row is the least k with k * k >= n |
| RenderProducts.CeilSqrtPositive | src/frontend/src/game/render/renderProducts.ts:45 | a non-empty group has at least one product per row |
| RenderProducts.CeilDiv | src/frontend/src/game/render/renderProducts.ts:47 | the number of rows is the least r with r * k >= n |
| RenderProducts.Cell | src/frontend/src/game/render/renderProducts.ts:50-51 | the cell of index i is its row and column: column < k and row * k + column = i |
| RenderProducts.CellsInjective | src/frontend/src/game/render/renderProducts.ts:50-51 | (index div k, index mod k) has column < k and row < ceil(n / k), and different indices get different cells |
| RenderProducts.ColumnCentreInside | src/frontend/src/game/render/renderProducts.ts:53 | a column centre lies strictly inside the sector's horizontal extent |
| RenderProducts.Truncate | src/frontend/src/game/render/renderProducts.ts:70-73 | a name no longer than the limit is kept; a longer one becomes its first max(limit - 1, 0) characters followed by the ellipsis |
| RenderProducts.TruncateKeepsPrefix | src/frontend/src/game/render/renderProducts.ts:71-73 | a truncated caption starts with a prefix of the name, of length limit - 1 (or 0 for a limit below 1) |
| RenderProducts.PlaceMarker | src/frontend/src/game/render/renderProducts.ts:49-76 | a product gets a square amber marker of side max(3, 6 scale) centred on the centre of its grid cell (`MarkerCentre`), and a caption exactly when scale > 0.8; the caption is the name cut to floor(column width / (0.6 font size)) characters, horizontally centred on the marker, one marker side below its centre, in a font of max(6, 8 scale) |
| RenderProducts.ColumnWidth | src/frontend/src/game/render/renderProducts.ts:45-46 | the k = ceil(sqrt(n)) columns fill the sector's width exactly, and each is positive when the sector is |
| RenderProducts.RowHeight | src/frontend/src/game/render/renderProducts.ts:45-47 | the ceil(n / k) rows together take 30% of the sector's height, and each is positive when the sector is |
| RenderProducts.GridPointsDistinct | src/frontend/src/game/render/renderProducts.ts:53-54 | with positive column width and row height, two different (row, column) cells have different centres |
| RenderProducts.MarkerCentresDistinct | src/frontend/src/game/render/renderProducts.ts:45-54 | in a sector of positive size, two different indices of one group get different marker centres |
| RenderProducts.GroupMarkersApart | src/frontend/src/game/render/renderProducts.ts:49-59 | within one group drawn into a sector of positive size, no two markers are drawn at the same place |
| RenderProducts.MarkerInsideHorizontally | src/frontend/src/game/render/renderProducts.ts:53-59 | the marker's centre lies strictly inside the sector's horizontal extent |
| RenderProducts.PlaceGroup | src/frontend/src/game/render/renderProducts.ts:49-77 | a group gets one marker per product, in order, each captioned exactly when scale > 0.8 |
| RenderProducts.DrawGroups | src/frontend/src/game/render/renderProducts.ts:35-78 | groups are drawn in order: a group whose sector has no layout adds nothing and the later groups are still drawn; a group with a layout adds its markers, placed in that sector's screen rectangle, before the later groups; with a layout for every group there is one marker per product; captions appear exactly when scale > 0.8 |
| RenderProducts.DrawProductsWith | src/frontend/src/game/render/renderProducts.ts:6-79 | for any layout lookup, at most one marker per product to render, and exactly one when every product's sector has a layout; the markers are those of the groups of the products to render, drawn in sector order through the lookup |
| RenderProducts.DrawProducts | src/frontend/src/game/render/renderProducts.ts:6-79 | `drawProducts` draws all 24 fallback products for an empty list; for a non-empty list at most one marker per product, and exactly one when every product's sector is laid out |
| RenderProducts.EveryProductDrawn | src/frontend/src/game/render/renderProducts.ts:27-77 | when every product's sector has a layout, exactly one marker is drawn per product |
| RenderProducts.FallbackFullyDrawn | src/frontend/src/game/render/renderProducts.ts:17-77 | with an empty product list all 24 fallback products are drawn |
| RenderAisles.Floor | src/frontend/src/game/render/renderAisles.ts:18-26 | the floor covers the rectangle at the offsets with the given store size scaled; it uses the tile pattern exactly when one is available and `#2a2a2a` otherwise |
| RenderAisles.FloorIsStore | src/frontend/src/game/render/renderAisles.ts:18-26 | with the store's 600 x 400 size, the floor fill is exactly the store's screen rectangle, the one the hit test covers |
| RenderAisles.VerticalAisle | src/frontend/src/game/render/renderAisles.ts:34-38 | the aisle at column c is a vertical `#444` line, 2 wide, at the screen image of logical x = 50 c, from the store's top down by the scaled store height |
| RenderAisles.HorizontalAisle | src/frontend/src/game/render/renderAisles.ts:43-47 | the aisle at row r is a horizontal `#444` line, 2 wide, at the screen image of logical y = 50 r, from the store's left edge across the scaled store width |
| RenderAisles.VerticalAisles | src/frontend/src/game/render/renderAisles.ts:33-39 | exactly three vertical aisles are drawn, at cell columns 3, 6 and 9, each spanning the store's height |
| RenderAisles.HorizontalAisles | src/frontend/src/game/render/renderAisles.ts:42-48 | exactly three horizontal aisles are drawn, at cell rows 2, 4 and 6, each spanning the store's width |
| RenderAisles.DrawAisles | src/frontend/src/game/render/renderAisles.ts:14-50 | the routine draws the floor, then the three vertical and the three horizontal aisles |
| RenderAisles.AislesFollowSectorEdges | src/frontend/src/game/render/renderAisles.ts:28-48 | in grid cells no sector straddles an aisle, and each aisle is the left (top) edge of some sector |
| RenderAisles.VerticalAisleOutsideInterior | src/frontend/src/game/render/renderAisles.ts:33-39 | at a positive scale, a vertical aisle at a column no sector straddles never enters that sector's screen interior |
| RenderAisles.HorizontalAisleOutsideInterior | src/frontend/src/game/render/renderAisles.ts:42-48 | the same for horizontal aisles |
| RenderAisles.AislesClearSectors | src/frontend/src/game/render/renderAisles.ts:28-48 | no aisle line crosses the interior of any layout sector on screen, at any positive scale and offsets |
| RenderAisles.AislesOverlayGrid | src/frontend/src/game/render/renderAisles.ts:33-48 | each aisle lies exactly on one of the canvas grid lines |
| AssetLoader.AssembleFields | src/frontend/src/game/render/assetLoader.ts:58-67 | building the record from the eight images and reading its fields back are inverse |
| AssetLoader.LoadAssets | src/frontend/src/game/render/assetLoader.ts:24-77 | a cached record is returned at once; otherwise an in-flight load is joined and nothing changes; only with neither is load number `started` begun and recorded |
| AssetLoader.Settle | src/frontend/src/game/render/assetLoader.ts:36-74 | success needs all eight images and caches them, leaving the promise in place; any failure clears the in-flight promise and leaves the cache empty |
| AssetLoader.GetAssets | src/frontend/src/game/render/assetLoader.ts:79-81 | `getAssets` returns the cached record, and nothing when none is cached |
| AssetLoader.InitialSatisfiesInvariant | src/frontend/src/game/render/assetLoader.ts:12-13 | the module's initial state is consistent |
| AssetLoader.ApplyPreservesInvariant | src/frontend/src/game/render/assetLoader.ts:24-77 | every call and every settling keeps the state consistent |
| AssetLoader.RunPreservesInvariant | src/frontend/src/game/render/assetLoader.ts:24-77 | any sequence of events keeps the state consistent |
| AssetLoader.CacheIsPermanent | src/frontend/src/game/render/assetLoader.ts:26-69 | once a record is cached no event changes the state, and every call returns that record |
| AssetLoader.AtMostOneLoad | src/frontend/src/game/render/assetLoader.ts:31-36 | at most one load is in flight; loads started exceed failures by at most one, so with no failure at most one load ever starts |
| AssetLoader.RetryAfterFailure | src/frontend/src/game/render/assetLoader.ts:70-73 | after a failed load the cache is empty and the next call starts a fresh load |
| AssetLoader.AllOrNothing | src/frontend/src/game/render/assetLoader.ts:38-67 | a load fills the cache exactly when all eight images loaded, and then with exactly those images |
| AssetLoader.GetAssetsAfterSuccess | src/frontend/src/game/render/assetLoader.ts:79-81 | `getAssets` is empty while a load is pending and returns the loaded record after it succeeds |
| AssetLoader.ConcurrentCallsShareOneLoad | src/frontend/src/game/render/assetLoader.ts:30-36 | any number of calls on a fresh module start exactly one load, and every caller gets that load |
| AssetLoader.JoinersShareLoad | src/frontend/src/game/render/assetLoader.ts:31-33 | with nothing cached and a load in flight, calls change nothing and all join that load |

## Left out

- Canvas effects are out of scope: pixels, fonts, text colour, `ctx.save`/`restore`, `createPattern` and image sprites. Only the emitted shapes and coordinates are modelled. Whether a floor pattern can be built is an input.
- `ResizeObserver`, `requestAnimationFrame` scheduling, and touch-scroll suppression in `GameCanvas.tsx` are left out. The canvas size and frame timestamps are inputs.
- IEEE floating point is not modelled. Positions, scales and times are exact reals, so rounding effects are out of scope, such as an extra grid line from accumulated drift or `Math.sqrt` rounding.
- `Math.random()` is not modelled. Each draw is an explicit input in [0, 1).
- `Date.now()` is not modelled. The current time is an input.
- Simulation.TickInterval: a speed of 0 (an infinite interval in the source) is modelled as "never fires". A negative speed gives a negative interval, so every check fires, as in the source. NaN and undefined speeds are not modelled.
- Simulation.Step: the kind draw is used only when a customer is spawned. The source draws it inside the spawn branch, which is the same thing.
- RenderProducts.Truncate: string lengths count Dafny characters, not UTF-16 code units. The ellipsis suffix is kept as the three characters the source text shows. No lemma depends on its length.
- RenderProducts.PlaceMarker: the width limit for captions uses exact division and `floor`. Font metrics are not modelled.
- Employee behaviour is not modelled: no step changes employees, and productivity and fatigue are plain fields.
- `GameCanvas.tsx` never calls `drawSectors`, `drawProducts`, `drawAisles` or `getSectorAtPosition`, and has no click or touch handler that selects a sector. These routines are modelled standalone and related by lemmas. No wiring between them is invented.
- Promise and image-decoding mechanics are left out. A load is two events, its start (a call) and its settling with one outcome per image. The eight file paths are constants.
- The rejection that a failed load passes to its awaiting callers is left out. The model records only the state change.
- The `Product` record of `useQueries.ts` is modelled as a plain record. The network queries behind it are not part of this model.
- The HUD, the sectors panel, the dialogs and the initialiser hold only a little arithmetic, such as the day counter and stock sums. They are not part of this model.
