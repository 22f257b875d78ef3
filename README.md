# Procedural city generator (3D-WORLD), modelled in Dafny

This project models the procedural city generator of `city.c`:
- the xorshift generator `frand01`;
- the interpolation `lerpf`;
- `GenerateCity`, which fills a `City` record's five arrays (roads, sidewalks, lane marks, parks and buildings) in place through running counters;
- `UnloadCity`, which releases the arrays and zeroes the record.

The value records of `city.h` (configuration, vector, building, road, sidewalk, park, mark) are datatypes; the `City` record, which `GenerateCity` fills in place, is a class. Floats are modelled as reals, the 32-bit generator state as `bv32`, and C's `(int)` cast as truncation toward zero.

Files:
- `city_types.dfy` (module `CityTypes`): the records of `city.h`.
- `prng.dfy` (module `Prng`): the xorshift step, the stream of states it produces, and `Frand01` as a method returning the draw and the new `*state`.
- `layout.dfy` (module `Layout`): a pure reference definition of what `GenerateCity` writes.
  - `Roads`, `Sidewalks` and `Marks` give the road stage.
  - `FillLots` over `AllLots` gives the lot stage.
  - `Generate` gives the whole `Scene`.
  - The allocation sizes are defined here too.
- `layout_props.dfy` (module `LayoutProps`): the properties of that definition:
  - counts;
  - where curbs and dashes lie;
  - lot tiling;
  - one or five draws per lot;
  - building shapes;
  - seed independence;
  - the allocation sizes, and when they overflow.
- `city.dfy` (module `CityGen`): the imperative model. `class City` holds the nullable arrays and counters of the C record.
  - `GenerateCity` zeroes the record, allocates the arrays, and runs the road loops and the four nested lot loops. Each loop is a method with its invariants.
  - It proves that the record then holds exactly `Generate(cfg)`, in generation order.
  - `UnloadCity` reports the set of arrays it frees.

Facts about the code that the model keeps:
- The building draws are taken in the order width (x), depth (z), height (y) (city.c:110-112), then the colour draw (city.c:121).
- A draw reads the state as `x / UINT_MAX` (city.c:11), so the all-ones state gives exactly 1.0. The colour tag `(int)(frand01 * 1000)` therefore reaches 1000 for that state (`TopColourTag`).
- The dashes of a road line are placed by their centres within [0, cityW + roadWidth] (city.c:54-57), while the road spans [-roadWidth / 2, cityW + roadWidth / 2] (city.c:44-45). With a road wider than 2.5 the last dash can run past the road's far end: on a 2 x 2 grid with blockSize 20 and roadWidth 4, dash 10 ends at 42.75 and the road at 42 (`DashOverhang`).
- The park and mark arrays can overflow: the park array holds `totalLots / 4 + 8` entries (city.c:31) and the mark array `(blocksX + blocksZ) * 200` (city.c:32), while the loops append without a bound check (`ParkCapacityOverflow`, `ParkChanceAboveOneOverflows`, `MarkCapacityOverflow`). `GenerateCity` states the room they need as preconditions.

## Model

| member | source | states |
|---|---|---|
| Prng.XorshiftZero | city.c:6-9 | one xorshift step maps a state to zero if and only if the state is zero |
| Prng.XorLeft13 | city.c:7 | `x ^= x << 13` on a wrapping 32-bit word; it never turns a non-zero word into zero (`XorLeft13NonZero`) |
| Prng.XorRight17 | city.c:8 | `x ^= x >> 17`; it never turns a non-zero word into zero (`XorRight17NonZero`) |
| Prng.XorLeft5 | city.c:9 | `x ^= x << 5` on a wrapping 32-bit word; it never turns a non-zero word into zero (`XorLeft5NonZero`) |
| Prng.XorLeft13NonZero | city.c:7 | the update maps only zero to zero |
| Prng.XorRight17NonZero | city.c:8 | the update maps only zero to zero |
| Prng.XorLeft5NonZero | city.c:9 | the update maps only zero to zero |
| Prng.Xorshift | city.c:6-9 | one generator step, the three updates in source order; zero if and only if its input is zero (`XorshiftZero`) |
| Prng.Iter | city.c:4-10 | the state after n draws, each draw one step stored back into `*state`; a draws then b draws equal a + b draws (`IterAdd`); a non-zero start never reaches zero (`StreamNeverZero`) and zero stays zero (`ZeroStreamStuck`) |
| Prng.StreamNeverZero | city.c:6-10 | a stream started from a non-zero state never reaches zero, however many draws are taken |
| Prng.ZeroStreamStuck | city.c:6-10 | a zero state stays zero forever, which is why a zero seed is replaced |
| Prng.IterAdd | city.c:10 | a draws followed by b draws leave the state that a + b draws leave |
| Prng.InitialState | city.c:21 | the first state is never zero: the seed when it is non-zero, 1234567 otherwise |
| Prng.Unit | city.c:11 | a state read as a draw lies in [0, 1] and is exactly 1 if and only if the state is all ones |
| Prng.Frand01 | city.c:4-12 | the new state is one xorshift step of the old, and the result is that state read as a draw, in [0, 1] |
| Layout.Lerp | city.c:14 | t = 0 gives a, t = 1 gives b, and for a <= b and t in [0, 1] the result lies in [a, b] |
| Layout.Trunc | city.c:121 | the (int) cast truncates toward zero: within one unit of the real, on the side of zero |
| Layout.DashCount | city.c:54-55 | the dashes of a line fit inside its length, and one more dash would not |
| Layout.Clamp | city.c:115-116 | the result never exceeds the limit, is either the value or the limit, and is the value whenever that fits |
| Layout.LotBuilding | city.c:110-121 | a building drawn for a lot fits it: centred on the lot; width and depth within the lot footprint, each either cut to the footprint or within [minBuilding, maxBuilding]; height never cut and within its bounds; centre at half the height plus 0.06; colour tag in [0, 1000] |
| Layout.AllLots | city.c:82-91 | the grid has blocksX * blocksZ * 36 lots |
| Layout.FillLots | city.c:104-122 | every lot visited yields exactly one park or exactly one building |
| Layout.CityWidth | city.c:36 | `cityW`, the grid's extent along x; horizontal roads and curbs are cityW + roadWidth long (`HorizontalSizes`) |
| Layout.CityHeight | city.c:37 | `cityH`, the grid's extent along z; vertical roads and curbs are cityH + roadWidth long (`VerticalSizes`) |
| Layout.HorizontalRoad | city.c:43-46 | the road of line bz at z = bz * blockSize: the bz-th entry of the horizontal roads (`HorizontalRoadsAt`), of size (cityW + roadWidth, 0.1, roadWidth) (`HorizontalSizes`), independent of the seed (`HorizontalLineIgnoresSeed`) |
| Layout.HorizontalCurbs | city.c:48-51 | the two curbs of line bz, the -z side first, each roadWidth / 2 + 0.5 from the road's centre line (`HorizontalCurbsFlankRoads`), of size (cityW + roadWidth, 0.25, 1) (`HorizontalSizes`) |
| Layout.HorizontalMark | city.c:56-57 | dash i of line bz, centred at (i + 0.5) * 4 along x on the road's centre line (`HorizontalDashesSpaced`) |
| Layout.HorizontalDashes | city.c:53-58 | the DashCount(cityW + roadWidth) dashes of line bz, 4 apart, centred within [0, cityW + roadWidth] (`HorizontalDashesSpaced`, `DashCountIsFloor`), independent of the seed (`HorizontalDashesIgnoreSeed`) |
| Layout.HorizontalRoads | city.c:42-46 | the roads of the lines bz < n in loop order: n roads (`HorizontalCounts`), the i-th that of line i (`HorizontalRoadsAt`) |
| Layout.HorizontalSidewalks | city.c:42-51 | the curbs of the lines bz < n: 2n curbs (`HorizontalCounts`), curbs 2i and 2i + 1 flanking road i (`HorizontalCurbsFlankRoads`) |
| Layout.HorizontalMarks | city.c:42-58 | the dashes of the lines bz < n: n times the per-line count (`HorizontalMarkCount`) |
| Layout.VerticalRoad | city.c:63-66 | the road of line bx at x = bx * blockSize: the bx-th entry of the vertical roads (`VerticalRoadsAt`), of size (roadWidth, 0.1, cityH + roadWidth) (`VerticalSizes`), independent of the seed (`VerticalLineIgnoresSeed`) |
| Layout.VerticalCurbs | city.c:68-71 | the two curbs of line bx, the -x side first, each roadWidth / 2 + 0.5 from the road's centre line (`VerticalCurbsFlankRoads`), of size (1, 0.25, cityH + roadWidth) (`VerticalSizes`) |
| Layout.VerticalMark | city.c:76-77 | dash i of line bx, centred at (i + 0.5) * 4 along z on the road's centre line (`VerticalDashesSpaced`) |
| Layout.VerticalDashes | city.c:73-78 | the DashCount(cityH + roadWidth) dashes of line bx, 4 apart, centred within [0, cityH + roadWidth] (`VerticalDashesSpaced`, `DashCountIsFloor`), independent of the seed (`VerticalDashesIgnoreSeed`) |
| Layout.VerticalRoads | city.c:62-66 | the roads of the lines bx < n in loop order: n roads (`VerticalCounts`), the i-th that of line i (`VerticalRoadsAt`) |
| Layout.VerticalSidewalks | city.c:62-71 | the curbs of the lines bx < n: 2n curbs (`VerticalCounts`), curbs 2i and 2i + 1 flanking road i (`VerticalCurbsFlankRoads`) |
| Layout.VerticalMarks | city.c:62-78 | the dashes of the lines bx < n: n times the per-line count (`VerticalMarkCount`) |
| Layout.Roads | city.c:42-79 | the horizontal roads then the vertical ones: (blocksZ + 1) + (blocksX + 1) roads (`RoadStageCounts`), independent of the seed (`RoadStageIgnoresSeed`), with positive extents once roadWidth > 0 and blockSize >= 0 (`RoadStagePositiveExtents`) |
| Layout.Sidewalks | city.c:42-79 | the horizontal curbs then the vertical ones: twice the road count (`RoadStageCounts`), independent of the seed (`RoadStageIgnoresSeed`), with positive extents once roadWidth > 0 and blockSize >= 0 (`RoadStagePositiveExtents`) |
| Layout.Marks | city.c:42-79 | the horizontal dashes then the vertical ones: MarkTotal(cfg) of them (`RoadStageCounts`), independent of the seed (`RoadStageIgnoresSeed`), all with positive extents (`RoadStagePositiveExtents`) |
| Layout.MarkTotal | city.c:42-79 | the number of marks the road stage writes, by formula: the length of Marks(cfg) (`RoadStageCounts`) |
| Layout.BlockMin | city.c:84-87 | where block b's interior starts on an axis: half a road plus one unit past the road line; the interior is blockSize - roadWidth - 2 long (`BlockInterior`) |
| Layout.BlockMax | city.c:84-87 | where block b's interior ends on an axis: half a road plus one unit before the next road line (`BlockInterior`) |
| Layout.LotEdge | city.c:92-97 | boundary i of the six lots between lo and hi, `lerpf(lo, hi, i / 6)`: consecutive boundaries a sixth of the interior apart (`LotEdgeStep`), boundary 0 at lo and 6 at hi (`LotsTileBlock`) |
| Layout.LotAt | city.c:92-97 | lot (lz, lx) of block (bz, bx): the lots tile the block interior (`LotsTileBlock`), share one effective footprint (`AllLotsFootprint`) and do not depend on the seed (`LotAtIgnoresSeed`) |
| Layout.TotalLots | city.c:24-25 | `totalLots`, blocksX * blocksZ * 36: the number of lots visited (`AllLots`), and the building capacity, which therefore always suffices (`FixedCapacities`) |
| Layout.LotIndex | city.c:82-91 | a lot's position in visiting order: below totalLots (`LotOrder`), one past its predecessor (`LotIndexSteps`), totalLots after the last block row (`LotIndexEnd`) |
| Layout.LotPark | city.c:99-107 | the park a lot becomes: centred on the lot, filling its effective footprint, at height 0.06 and 0.12 thick (`FillLotsShapes`, `SceneShapes`) |
| Layout.WithinFootprint | city.c:109-121 | what a building drawn for a w by d footprint satisfies: width and depth within it, each either cut to it or within the bounds, height within the bounds, standing 0.06 up, colour tag in [0, 1000] (`LotBuilding`, `FillLotsShapes`) |
| Layout.FitsLot | city.c:99-121 | a building fits a lot when it is centred on the lot and within the lot's footprint (`LotBuilding`) |
| Layout.PlaceLot | city.c:104-121 | one lot from state s: below parkChance a park and one draw, otherwise a building from the next four draws, five in all (`DrawsConsumed`, `NoParksWithoutChance`, `AllParksWhenDrawsBelowChance`, `ParkChanceOne`) |
| Layout.Absorb | city.c:104-122 | appends one lot's outcome to the parks or the buildings and advances the state (`FillLotsSnoc`, `AbsorbAfter`) |
| Layout.AbsorbLast | city.c:90-123 | all but the last lot, then the last: one park or building per lot |
| Layout.LotStage | city.c:21-126 | the lot stage from the seed's first state; one draw per park and five per building (`LotStageDraws`) |
| Layout.Generate | city.c:16-126 | the scene GenerateCity leaves: its counts (`SceneCounts`), shapes (`SceneShapes`, `ScenePositiveExtents`), seed 0 acting as 1234567 (`ZeroSeedIsDefaultSeed`); `CityGen.GenerateCity` proves the record holds it |
| Layout.BuildingCapacity | city.c:28 | the building array holds totalLots entries, always enough (`FixedCapacities`) |
| Layout.RoadCapacity | city.c:29 | the road array holds (blocksX + blocksZ) * 6 entries, enough if and only if blocksX + blocksZ >= 1 (`FixedCapacities`, `RoadStageFits`) |
| Layout.SidewalkCapacity | city.c:30 | the sidewalk array holds (blocksX + blocksZ) * 12 entries, enough if and only if blocksX + blocksZ >= 1 (`FixedCapacities`, `RoadStageFits`) |
| Layout.ParkCapacity | city.c:31 | the park array holds totalLots / 4 + 8 entries, which can be too few (`ParkCapacityOverflow`, `ParkChanceAboveOneOverflows`) |
| Layout.MarkCapacity | city.c:32 | the mark array holds (blocksX + blocksZ) * 200 entries, enough when MarkTotal fits (`RoadStageFits`) and not always (`MarkCapacityOverflow`) |
| LayoutProps.HorizontalCounts | city.c:42-51 | n horizontal road lines give n roads and 2n curbs |
| LayoutProps.VerticalCounts | city.c:62-71 | n vertical road lines give n roads and 2n curbs |
| LayoutProps.HorizontalMarkCount | city.c:54-58 | n horizontal road lines give n times the per-line dash count in marks |
| LayoutProps.VerticalMarkCount | city.c:74-78 | n vertical road lines give n times the per-line dash count in marks |
| LayoutProps.HorizontalMarksGrow | city.c:54-58 | the dashes of the first m lines plus line m are no more than those of the first n + 1 lines, for m <= n |
| LayoutProps.VerticalMarksGrow | city.c:74-78 | the dashes of the first m lines plus line m are no more than those of the first n + 1 lines, for m <= n |
| LayoutProps.HorizontalStep | city.c:42-59 | one pass of the horizontal loop fits the arrays and extends roads, curbs and marks by road bz's entries |
| LayoutProps.VerticalStep | city.c:62-79 | one pass of the vertical loop fits the arrays and extends roads, curbs and marks by road bx's entries |
| LayoutProps.RoadStageCounts | city.c:42-79 | roadCount is (blocksZ + 1) + (blocksX + 1), sidewalkCount is twice that, markCount follows the dash formula |
| LayoutProps.RoadStageFits | city.c:29-32 | with at least one block in some direction and MarkTotal(cfg), the dashes of all road lines together, at most (blocksX + blocksZ) * 200, both road stages fit the road, sidewalk and mark arrays |
| LayoutProps.HorizontalRoadsAt | city.c:43-46 | the i-th horizontal road is the road of line bz = i |
| LayoutProps.VerticalRoadsAt | city.c:63-66 | the i-th vertical road is the road of line bx = i |
| LayoutProps.HorizontalCurbsFlankRoads | city.c:49-51 | curb j lies at -/+ (roadWidth / 2 + 0.5) in z from the centre of road j / 2, first the - side, then the + side |
| LayoutProps.VerticalCurbsFlankRoads | city.c:69-71 | curb j lies at -/+ (roadWidth / 2 + 0.5) in x from the centre of road j / 2, first the - side, then the + side |
| LayoutProps.HorizontalDashesSpaced | city.c:54-58 | dash i is centred at (i + 0.5) * 4 on its road; the dashes are 4 apart, strictly increasing, and lie within [0, cityW + roadWidth] |
| LayoutProps.VerticalDashesSpaced | city.c:74-78 | dash i is centred at (i + 0.5) * 4 on its road; the dashes are 4 apart, strictly increasing, and lie within [0, cityH + roadWidth] |
| LayoutProps.DashCountIsFloor | city.c:54 | for a non-negative length the dash count is floor(length / 4) |
| LayoutProps.DashOverhang | city.c:44-57 | on a 2 x 2 grid with blockSize 20 and roadWidth 4 the road has 11 dashes and dash 10 ends at 42.75, past the road's end at 42 |
| LayoutProps.HorizontalSizes | city.c:44-57 | every horizontal road is (cityW + roadWidth, 0.1, roadWidth), every curb (cityW + roadWidth, 0.25, 1) and every dash (1.5, 0.02, 0.2) |
| LayoutProps.VerticalSizes | city.c:64-77 | every vertical road is (roadWidth, 0.1, cityH + roadWidth), every curb (1, 0.25, cityH + roadWidth) and every dash (0.2, 0.02, 1.5) |
| LayoutProps.LotOrder | city.c:82-91 | lot (lz, lx) of block (bz, bx) is visited at position ((bz * blocksX + bx) * 6 + lz) * 6 + lx, which is below totalLots |
| LayoutProps.LotIndexSteps | city.c:82-91 | the lot after (lz, lx) is one position on, and so are the first lot of the next lot row, of the next block and of the next row of blocks |
| LayoutProps.LotIndexEnd | city.c:82-83 | the position after the last row of blocks is totalLots |
| LayoutProps.PlacedStep | city.c:104-122 | placing the next lot in visiting order has room in its array and extends the parks and buildings by that lot's outcome |
| LayoutProps.LotEdgeStep | city.c:92-97 | consecutive lot boundaries are a sixth of the block interior apart |
| LayoutProps.BlockInterior | city.c:84-87 | a block interior is blockSize - roadWidth - 2 long on each axis |
| LayoutProps.FootprintPositive | city.c:84-102 | the effective lot footprint is positive if and only if blockSize > roadWidth + 2 |
| LayoutProps.LotsTileBlock | city.c:92-102 | the first lot starts at bMin, the last ends at bMax, neighbours share a boundary, and every footprint is 0.85 of a sixth of the interior |
| LayoutProps.AllLotsFootprint | city.c:99-102 | every lot of the grid has the same effective footprint |
| LayoutProps.FillLotsSnoc | city.c:90-123 | visiting one more lot appends exactly its outcome |
| LayoutProps.FillLotsPrefix | city.c:104-122 | what the first k lots write is a prefix of what all of them write: entries are only ever appended |
| LayoutProps.AbsorbAfter | city.c:104-122 | placing a lot after earlier entries appends its outcome after them and leaves them unchanged |
| LayoutProps.DrawsConsumed | city.c:105-121 | the lot stage consumes exactly one draw per park and five per building |
| LayoutProps.FillLotsShapes | city.c:99-121 | every building fits the lot footprint and every park fills it at height 0.06 with thickness 0.12 |
| LayoutProps.NoParksWithoutChance | city.c:105-106 | with parkChance <= 0 every lot is a building |
| LayoutProps.AllParksWhenDrawsBelowChance | city.c:105-107 | when every decision draw is below parkChance every lot is a park, one draw each |
| LayoutProps.ParkChanceOne | city.c:105-107 | with parkChance = 1 every lot is a park unless a decision draw is exactly 1 |
| LayoutProps.SceneCounts | city.c:42-126 | the generated scene has the road, sidewalk and mark counts above, and parks plus buildings equal blocksX * blocksZ * 36 |
| LayoutProps.LotStageDraws | city.c:21 | the state after generation is the seed state advanced by one draw per park and five per building |
| LayoutProps.TopColourTag | city.c:121 | the colour tag is 1000 if and only if the colour draw read the all-ones state |
| LayoutProps.SceneShapes | city.c:99-121 | every generated building fits the common lot footprint and every park fills it |
| LayoutProps.RoadStagePositiveExtents | city.c:42-79 | every dash has positive extents, and with roadWidth > 0 and blockSize >= 0 so does every road and curb |
| LayoutProps.ScenePositiveExtents | city.c:42-121 | with a positive lot footprint and positive building bounds every building and park has positive extents; every dash does, and every road and curb does once roadWidth > 0 |
| LayoutProps.RoadStageIgnoresSeed | city.c:42-79 | roads, sidewalks and marks do not depend on the seed: the road stage draws nothing |
| LayoutProps.HorizontalLineIgnoresSeed | city.c:43-51 | the road and curbs of a horizontal line do not depend on the seed |
| LayoutProps.HorizontalDashesIgnoreSeed | city.c:53-58 | the dashes of a horizontal line do not depend on the seed |
| LayoutProps.VerticalLineIgnoresSeed | city.c:63-71 | the road and curbs of a vertical line do not depend on the seed |
| LayoutProps.VerticalDashesIgnoreSeed | city.c:73-78 | the dashes of a vertical line do not depend on the seed |
| LayoutProps.HorizontalIgnoresSeed | city.c:42-59 | the horizontal roads, curbs and dashes of the first n lines do not depend on the seed |
| LayoutProps.VerticalIgnoresSeed | city.c:62-79 | the vertical roads, curbs and dashes of the first n lines do not depend on the seed |
| LayoutProps.LotAtIgnoresSeed | city.c:84-97 | a lot's boundaries do not depend on the seed |
| LayoutProps.FillLotsIgnoresSeed | city.c:104-122 | given the generator state, the lot stage does not read the seed field |
| LayoutProps.AllLotsIgnoresSeed | city.c:84-97 | the lot grid does not depend on the seed |
| LayoutProps.ZeroSeedIsDefaultSeed | city.c:21 | seed 0 and seed 1234567 generate the same five collections |
| LayoutProps.FixedCapacities | city.c:28-30 | buildings always fit their array; roads and sidewalks fit theirs if and only if blocksX + blocksZ >= 1 |
| LayoutProps.ParkCapacityOverflow | city.c:31 | on a grid with at least one block in each direction, when every decision draw is below parkChance, all totalLots lots are parks, more than the totalLots / 4 + 8 the array holds |
| LayoutProps.ParkChanceAboveOneOverflows | city.c:31 | on a grid with at least one block in each direction, parkChance > 1 makes the parks overflow their array |
| LayoutProps.MarkCapacityOverflow | city.c:32 | a 1 x 1 grid with blockSize 1000 needs 1004 marks but gets 400 |
| LayoutProps.TwoByTwoExample | city.c:16-126 | a 2 x 2 grid with parkChance 0 gives 6 roads, 12 sidewalks, no parks and 144 buildings of footprint 0.85 * 14 / 6 and height in [6, 20] |
| CityGen.City.constructor | city.h:44-61 | a record initialised with {0}: no arrays, all counts zero |
| CityGen.City.Reset | city.c:18 | the record is zeroed |
| CityGen.City.Allocate | city.c:24-34 | five fresh arrays of the fixed capacities, all counts zero |
| CityGen.City.Start | city.c:18-34 | the record is zeroed, takes the configuration and gets its five fresh, empty arrays |
| CityGen.City.AppendBuilding | city.c:118-121 | the building array gains exactly the new entry at the end |
| CityGen.City.AppendRoad | city.c:46 | the road array gains exactly the new entry at the end |
| CityGen.City.AppendSidewalk | city.c:50-51 | the sidewalk array gains exactly the new entry at the end |
| CityGen.City.AppendPark | city.c:107 | the park array gains exactly the new entry at the end |
| CityGen.City.AppendMark | city.c:57 | the mark array gains exactly the new entry at the end |
| CityGen.City.PaintHorizontalDashes | city.c:54-58 | the marks gain exactly the dashes of horizontal road bz |
| CityGen.City.LayHorizontalRoad | city.c:43-58 | the arrays gain road bz, its two curbs and its dashes, in that order |
| CityGen.City.HorizontalRoadStage | city.c:42-59 | the arrays gain the entries of all horizontal roads bz = 0..blocksZ |
| CityGen.City.PaintVerticalDashes | city.c:74-78 | the marks gain exactly the dashes of vertical road bx |
| CityGen.City.LayVerticalRoad | city.c:63-78 | the arrays gain road bx, its two curbs and its dashes, in that order |
| CityGen.City.VerticalRoadStage | city.c:62-79 | the arrays gain the entries of all vertical roads bx = 0..blocksX |
| CityGen.City.LayRoads | city.c:40-79 | empty road, sidewalk and mark arrays end up holding exactly Roads, Sidewalks and Marks |
| CityGen.City.NothingPlacedYet | city.c:82 | before the lot loops, no lot has been placed |
| CityGen.City.AllPlaced | city.c:82-126 | once every lot is placed, the arrays hold the lot stage's parks and buildings |
| CityGen.City.PlacePark | city.c:99-107 | a park lot appends the park filling the lot's footprint |
| CityGen.City.PlaceBuilding | city.c:109-121 | a building lot takes four draws and appends the building they describe, clamped to the lot |
| CityGen.City.PlaceLotAt | city.c:104-122 | one lot changes parks, buildings and state exactly as the reference step does |
| CityGen.City.PlaceNextLot | city.c:91-123 | placing the next lot in visiting order keeps the arrays equal to the reference for one more lot |
| CityGen.City.FillLotRow | city.c:91-123 | a lot row keeps the arrays equal to the reference through its six lots |
| CityGen.City.FillBlock | city.c:83-124 | a block keeps the arrays equal to the reference through its 36 lots |
| CityGen.City.FillBlockRow | city.c:83-125 | a row of blocks keeps the arrays equal to the reference through all its blocks |
| CityGen.City.PlaceBlockRows | city.c:82-126 | the four lot loops together place all totalLots lots |
| CityGen.City.PlaceLots | city.c:81-126 | empty park and building arrays end up holding exactly the lot stage's parks and buildings, from the seed state |
| CityGen.City.SceneIsGenerated | city.c:16-126 | after both stages the record's contents are the generated scene |
| CityGen.GenerateCity | city.c:16-127 | the record owns five fresh arrays of the fixed capacities and holds exactly Generate(cfg) |
| CityGen.UnloadCity | city.c:129-138 | a null record frees nothing; otherwise exactly the arrays it owned are freed and it is left zeroed; unloading an already zeroed record frees nothing, so a second call is harmless |

## Left out

- world.c: the window, camera and render loop are user interface over an external graphics library. No model.
- Floating point: all geometry uses exact reals, so float rounding is not modelled. This covers the `(float)UINT_MAX` conversion, the 0.85, 0.5 and 4.0 constants, and the rounding before `(int)` casts.
- MemAlloc and MemFree: an allocation is a fresh, zero-filled Dafny array, and MemAlloc never fails. A free is the array reported in `UnloadCity`'s `freed` set, after which the record drops its reference.
- 32-bit `int` overflow: counts, `totalLots` and the allocation sizes are unbounded integers. Configurations large enough to overflow them in C are not modelled.
- GenerateCity: with no block in either direction the road, sidewalk and mark arrays have length zero, yet the C code writes two roads (city.c:46, 66), four sidewalks (city.c:50-51, 70-71) and, once roadWidth >= 4, the dashes of both road lines (city.c:57, 77) into them. When MarkTotal(cfg), the dashes of all road lines together, exceeds (blocksX + blocksZ) * 200, or when there are more parks than a quarter of the lots plus eight, it writes past the mark or park array. For example a 1 x 1 grid with blockSize 500 and roadWidth 4 has 126 dashes on each of its four road lines, 504 in all, against 400 places. The model requires the room it writes into as a precondition (`blocksX + blocksZ >= 1`, `MarkTotal(cfg) <= MarkCapacity(cfg)`, the lot stage's parks within `ParkCapacity(cfg)`). `FixedCapacities`, `MarkCapacityOverflow`, `ParkCapacityOverflow` and `ParkChanceAboveOneOverflows` show when each holds.
- GenerateCity: negative block counts (`Sized`) are excluded. C would pass negative sizes to MemAlloc.
- The nested loops of GenerateCity are split into one method per loop, so each loop's invariant has its own contract. The loops run in the same order and append the same entries. One difference in statement order: `PlacePark` and `PlaceBuilding` compute the lot centre and footprint (cx, cz, lw, lzlen; city.c:99-102) after the decision draw (city.c:105) rather than before it, and `GenerateCity` computes the generator's first state (city.c:21) before `Start` zeroes the record and allocates its arrays, where C computes it between the zeroing (city.c:18-19) and the allocation (city.c:28-32). In both cases neither step reads what the other computes, so the result is the same.
- Cosmetic constants (the road, curb, mark and park heights, the mark sizes and the colour tag) are carried as data. Their values are stated (`HorizontalSizes`, `VerticalSizes`, `FillLotsShapes`), but nothing beyond positivity is proved about how they look.
