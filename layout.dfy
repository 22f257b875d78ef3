// The city that GenerateCity (city.c) writes, as a pure function of its
// configuration: the five output collections in generation order, and the
// pseudo-random stream threaded through the lot stage.

module Layout {
  import opened CityTypes
  import opened Prng

  /** Lots per block side: every block is cut into a 6 x 6 lot grid. */
  const LotsPerBlock: int := 6

  const CurbHeight: real := 0.25

  /** Distance between the centres of two dashes of a centre line. */
  const DashPitch: real := 4.0

  /** Share of a lot's width and depth that a park or building may use. */
  const Setback: real := 0.85

  /** Block counts that the loops and the allocation sizes can work with. */
  predicate Sized(cfg: CityConfig)
  {
    cfg.blocksX >= 0 && cfg.blocksZ >= 0
  }

  lemma ProductNonNegative(x: real, y: real)
    requires 0.0 <= x && 0.0 <= y
    ensures 0.0 <= x * y
  {
  }

  /** lerpf: the point a fraction t of the way from a to b. */
  function Lerp(a: real, b: real, t: real): (r: real)
    ensures t == 0.0 ==> r == a
    ensures t == 1.0 ==> r == b
    ensures a <= b && 0.0 <= t <= 1.0 ==> a <= r <= b
  {
    if a <= b && 0.0 <= t <= 1.0 then
      ProductNonNegative(b - a, t);
      ProductNonNegative(b - a, 1.0 - t);
      a + (b - a) * t
    else
      a + (b - a) * t
  }

  /** C's `(int)` conversion of a float: truncation toward zero. */
  function Trunc(r: real): (n: int)
    ensures 0.0 <= r ==> n as real <= r < n as real + 1.0
    ensures r < 0.0 ==> n as real - 1.0 < r <= n as real
  {
    if r >= 0.0 then r.Floor else -((-r).Floor)
  }

  /**
   * How many times `for (int i = 0; i < dashes; i++)` runs when
   * `dashes = (int)(len / 4.0f)`: the number of whole 4-unit pitches in len.
   */
  function DashCount(len: real): (d: nat)
    ensures d > 0 ==> d as real * DashPitch <= len
    ensures 0.0 <= len ==> len < (d + 1) as real * DashPitch
  {
    var dashes := Trunc(len / DashPitch);
    if dashes > 0 then dashes else 0
  }

  /** `cityW`: the extent of the block grid along x. */
  function CityWidth(cfg: CityConfig): real
  {
    cfg.blocksX as real * cfg.blockSize
  }

  /** `cityH`: the extent of the block grid along z. */
  function CityHeight(cfg: CityConfig): real
  {
    cfg.blocksZ as real * cfg.blockSize
  }

  // ---------------------------------------------------------------------
  // Horizontal roads: one per bz in 0..blocksZ, running along x at z = bz * blockSize.

  function HorizontalRoad(cfg: CityConfig, bz: int): Road
  {
    var cityW := CityWidth(cfg);
    Road(Vector3(cityW * 0.5, 0.05, bz as real * cfg.blockSize),
         Vector3(cityW + cfg.roadWidth, 0.1, cfg.roadWidth))
  }

  /** The two curb strips of horizontal road bz: first the -z side, then the +z side. */
  function HorizontalCurbs(cfg: CityConfig, bz: int): seq<Sidewalk>
  {
    var cityW := CityWidth(cfg);
    var z := bz as real * cfg.blockSize;
    var swSize := Vector3(cityW + cfg.roadWidth, CurbHeight, 1.0);
    [Sidewalk(Vector3(cityW * 0.5, CurbHeight * 0.5, z - cfg.roadWidth * 0.5 - swSize.z * 0.5), swSize),
     Sidewalk(Vector3(cityW * 0.5, CurbHeight * 0.5, z + cfg.roadWidth * 0.5 + swSize.z * 0.5), swSize)]
  }

  function HorizontalMark(cfg: CityConfig, bz: int, i: int): Mark
  {
    Mark(Vector3((i as real + 0.5) * DashPitch, 0.11, bz as real * cfg.blockSize),
         Vector3(1.5, 0.02, 0.2))
  }

  /** The dashed centre line of horizontal road bz. */
  function HorizontalDashes(cfg: CityConfig, bz: int): seq<Mark>
  {
    seq(DashCount(CityWidth(cfg) + cfg.roadWidth), i => HorizontalMark(cfg, bz, i))
  }

  /** Roads, curbs and marks of the horizontal roads bz < n, in loop order. */
  function HorizontalRoads(cfg: CityConfig, n: nat): seq<Road>
  {
    if n == 0 then [] else HorizontalRoads(cfg, n - 1) + [HorizontalRoad(cfg, n - 1)]
  }

  function HorizontalSidewalks(cfg: CityConfig, n: nat): seq<Sidewalk>
  {
    if n == 0 then [] else HorizontalSidewalks(cfg, n - 1) + HorizontalCurbs(cfg, n - 1)
  }

  function HorizontalMarks(cfg: CityConfig, n: nat): seq<Mark>
  {
    if n == 0 then [] else HorizontalMarks(cfg, n - 1) + HorizontalDashes(cfg, n - 1)
  }

  // ---------------------------------------------------------------------
  // Vertical roads: one per bx in 0..blocksX, running along z at x = bx * blockSize.

  function VerticalRoad(cfg: CityConfig, bx: int): Road
  {
    var cityH := CityHeight(cfg);
    Road(Vector3(bx as real * cfg.blockSize, 0.05, cityH * 0.5),
         Vector3(cfg.roadWidth, 0.1, cityH + cfg.roadWidth))
  }

  /** The two curb strips of vertical road bx: first the -x side, then the +x side. */
  function VerticalCurbs(cfg: CityConfig, bx: int): seq<Sidewalk>
  {
    var cityH := CityHeight(cfg);
    var x := bx as real * cfg.blockSize;
    var swSize := Vector3(1.0, CurbHeight, cityH + cfg.roadWidth);
    [Sidewalk(Vector3(x - cfg.roadWidth * 0.5 - swSize.x * 0.5, CurbHeight * 0.5, cityH * 0.5), swSize),
     Sidewalk(Vector3(x + cfg.roadWidth * 0.5 + swSize.x * 0.5, CurbHeight * 0.5, cityH * 0.5), swSize)]
  }

  function VerticalMark(cfg: CityConfig, bx: int, i: int): Mark
  {
    Mark(Vector3(bx as real * cfg.blockSize, 0.11, (i as real + 0.5) * DashPitch),
         Vector3(0.2, 0.02, 1.5))
  }

  function VerticalDashes(cfg: CityConfig, bx: int): seq<Mark>
  {
    seq(DashCount(CityHeight(cfg) + cfg.roadWidth), i => VerticalMark(cfg, bx, i))
  }

  function VerticalRoads(cfg: CityConfig, n: nat): seq<Road>
  {
    if n == 0 then [] else VerticalRoads(cfg, n - 1) + [VerticalRoad(cfg, n - 1)]
  }

  function VerticalSidewalks(cfg: CityConfig, n: nat): seq<Sidewalk>
  {
    if n == 0 then [] else VerticalSidewalks(cfg, n - 1) + VerticalCurbs(cfg, n - 1)
  }

  function VerticalMarks(cfg: CityConfig, n: nat): seq<Mark>
  {
    if n == 0 then [] else VerticalMarks(cfg, n - 1) + VerticalDashes(cfg, n - 1)
  }

  // ---------------------------------------------------------------------
  // The road stage as a whole: horizontal entries first, then vertical ones.

  function Roads(cfg: CityConfig): seq<Road>
    requires Sized(cfg)
  {
    HorizontalRoads(cfg, cfg.blocksZ + 1) + VerticalRoads(cfg, cfg.blocksX + 1)
  }

  function Sidewalks(cfg: CityConfig): seq<Sidewalk>
    requires Sized(cfg)
  {
    HorizontalSidewalks(cfg, cfg.blocksZ + 1) + VerticalSidewalks(cfg, cfg.blocksX + 1)
  }

  function Marks(cfg: CityConfig): seq<Mark>
    requires Sized(cfg)
  {
    HorizontalMarks(cfg, cfg.blocksZ + 1) + VerticalMarks(cfg, cfg.blocksX + 1)
  }

  /** The number of marks the road stage writes, by formula. */
  function MarkTotal(cfg: CityConfig): int
  {
    (cfg.blocksZ + 1) * DashCount(CityWidth(cfg) + cfg.roadWidth)
      + (cfg.blocksX + 1) * DashCount(CityHeight(cfg) + cfg.roadWidth)
  }

  // ---------------------------------------------------------------------
  // Lots.

  /** A lot's raw boundaries; its centre and effective footprint derive from them. */
  datatype Lot = Lot(x0: real, x1: real, z0: real, z1: real)
  {
    function CenterX(): real { (x0 + x1) * 0.5 }
    function CenterZ(): real { (z0 + z1) * 0.5 }
    /** `lw` */
    function Width(): real { (x1 - x0) * Setback }
    /** `lzlen` */
    function Depth(): real { (z1 - z0) * Setback }
  }

  /** The interior of block b along one axis starts half a road and one unit past the road centre line. */
  function BlockMin(cfg: CityConfig, b: int): real
  {
    b as real * cfg.blockSize + cfg.roadWidth * 0.5 + 1.0
  }

  function BlockMax(cfg: CityConfig, b: int): real
  {
    (b + 1) as real * cfg.blockSize - cfg.roadWidth * 0.5 - 1.0
  }

  /** Boundary i of the lot grid between lo and hi. */
  function LotEdge(lo: real, hi: real, i: int): real
  {
    Lerp(lo, hi, i as real / LotsPerBlock as real)
  }

  /** Lot (lz, lx) of block (bz, bx). */
  function LotAt(cfg: CityConfig, bz: int, bx: int, lz: int, lx: int): Lot
  {
    var bMinX, bMaxX := BlockMin(cfg, bx), BlockMax(cfg, bx);
    var bMinZ, bMaxZ := BlockMin(cfg, bz), BlockMax(cfg, bz);
    Lot(LotEdge(bMinX, bMaxX, lx), LotEdge(bMinX, bMaxX, lx + 1),
        LotEdge(bMinZ, bMaxZ, lz), LotEdge(bMinZ, bMaxZ, lz + 1))
  }

  /** `totalLots` */
  function TotalLots(cfg: CityConfig): int
  {
    cfg.blocksX * cfg.blocksZ * LotsPerBlock * LotsPerBlock
  }

  /** Position of lot (lz, lx) of block (bz, bx) in the visiting order bz, bx, lz, lx. */
  function LotIndex(blocksX: int, bz: int, bx: int, lz: int, lx: int): int
  {
    ((bz * blocksX + bx) * LotsPerBlock + lz) * LotsPerBlock + lx
  }

  /** Every lot of the city, in the order the four nested loops visit them. */
  function AllLots(cfg: CityConfig): (lots: seq<Lot>)
    requires Sized(cfg)
    ensures |lots| == TotalLots(cfg)
  {
    if cfg.blocksX == 0 then []
    else
      seq(TotalLots(cfg), k =>
        var block, lot := k / 36, k % 36;
        LotAt(cfg, block / cfg.blocksX, block % cfg.blocksX, lot / 6, lot % 6))
  }

  // ---------------------------------------------------------------------
  // The park-or-building decision.

  datatype LotOutcome = ParkLot(park: Park) | BuildingLot(building: Building)

  /** What one lot yields, and the generator state after its draws. */
  datatype Placement = Placement(outcome: LotOutcome, rng: bv32)

  /** The park that fills a lot's effective footprint. */
  function LotPark(lot: Lot): Park
  {
    Park(Vector3(lot.CenterX(), 0.06, lot.CenterZ()), Vector3(lot.Width(), 0.12, lot.Depth()))
  }

  /**
   * A building for a lot whose footprint is w by d: width and depth within
   * the footprint, each either cut to it or within [minBuilding, maxBuilding];
   * height within its bounds; standing on the ground offset; colour tag in
   * [0, 1000].
   */
  predicate WithinFootprint(cfg: CityConfig, b: Building, w: real, d: real)
  {
    var lo, hi := cfg.minBuilding, cfg.maxBuilding;
    && b.size.x <= w && b.size.z <= d
    && (lo.x <= hi.x ==> b.size.x == w || lo.x <= b.size.x <= hi.x)
    && (lo.z <= hi.z ==> b.size.z == d || lo.z <= b.size.z <= hi.z)
    && (lo.y <= hi.y ==> lo.y <= b.size.y <= hi.y)
    && b.pos.y == b.size.y * 0.5 + 0.06
    && 0 <= b.colorVar <= 1000
  }

  /** A building on a lot: centred on it and within its footprint. */
  predicate FitsLot(cfg: CityConfig, lot: Lot, b: Building)
  {
    && b.pos.x == lot.CenterX() && b.pos.z == lot.CenterZ()
    && WithinFootprint(cfg, b, lot.Width(), lot.Depth())
  }

  /** `if (sx > lw) sx = lw;`: v, cut down to limit. */
  function Clamp(v: real, limit: real): (r: real)
    ensures r <= limit
    ensures r == v || r == limit
    ensures v <= limit ==> r == v
  {
    if v > limit then limit else v
  }

  /**
   * The building a lot gets from the draws dx, dz, dy (its width, depth and
   * height within [minBuilding, maxBuilding]) and dc (its colour tag).
   */
  function LotBuilding(cfg: CityConfig, lot: Lot, dx: real, dz: real, dy: real, dc: real): (b: Building)
    requires 0.0 <= dx <= 1.0 && 0.0 <= dz <= 1.0 && 0.0 <= dy <= 1.0 && 0.0 <= dc <= 1.0
    ensures FitsLot(cfg, lot, b)
  {
    var sx := Lerp(cfg.minBuilding.x, cfg.maxBuilding.x, dx);
    var sz := Lerp(cfg.minBuilding.z, cfg.maxBuilding.z, dz);
    var sy := Lerp(cfg.minBuilding.y, cfg.maxBuilding.y, dy);
    Building(Vector3(lot.CenterX(), sy * 0.5 + 0.06, lot.CenterZ()),
             Vector3(Clamp(sx, lot.Width()), sy, Clamp(sz, lot.Depth())),
             Trunc(dc * 1000.0))
  }

  /**
   * One lot, from generator state s: the first draw decides; below
   * parkChance the lot is a park and one draw is used, otherwise a building
   * from the next four draws, taken in the order width, depth, height,
   * colour, and five draws are used.
   */
  function PlaceLot(cfg: CityConfig, lot: Lot, s: bv32): Placement
  {
    if Unit(Iter(s, 1)) < cfg.parkChance then
      Placement(ParkLot(LotPark(lot)), Iter(s, 1))
    else
      var b := LotBuilding(cfg, lot, Unit(Iter(s, 2)), Unit(Iter(s, 3)), Unit(Iter(s, 4)), Unit(Iter(s, 5)));
      Placement(BuildingLot(b), Iter(s, 5))
  }

  /** The parks and buildings written so far, and the generator state. */
  datatype Yield = Yield(parks: seq<Park>, buildings: seq<Building>, rng: bv32)

  /** Appends one lot's outcome to what has been written. */
  function Absorb(cfg: CityConfig, y: Yield, lot: Lot): Yield
  {
    var pl := PlaceLot(cfg, lot, y.rng);
    match pl.outcome
    case ParkLot(p) => Yield(y.parks + [p], y.buildings, pl.rng)
    case BuildingLot(b) => Yield(y.parks, y.buildings + [b], pl.rng)
  }

  /** Visits lots in order from state s; every lot yields exactly one park or one building. */
  function FillLots(cfg: CityConfig, lots: seq<Lot>, s: bv32): (y: Yield)
    ensures |y.parks| + |y.buildings| == |lots|
    decreases |lots|, 1
  {
    if lots == [] then Yield([], [], s) else AbsorbLast(cfg, lots, s)
  }

  /** A non-empty run of lots: all but the last visited from s, then the last one placed. */
  function AbsorbLast(cfg: CityConfig, lots: seq<Lot>, s: bv32): (y: Yield)
    requires lots != []
    ensures |y.parks| + |y.buildings| == |lots|
    decreases |lots|, 0
  {
    Absorb(cfg, FillLots(cfg, lots[..|lots| - 1], s), lots[|lots| - 1])
  }

  /** The lot stage, started from the configured seed. */
  function LotStage(cfg: CityConfig): Yield
    requires Sized(cfg)
  {
    FillLots(cfg, AllLots(cfg), InitialState(cfg.seed))
  }

  // ---------------------------------------------------------------------
  // The whole city.

  /** The contents of a City record after GenerateCity. */
  datatype Scene = Scene(cfg: CityConfig, roads: seq<Road>, sidewalks: seq<Sidewalk>,
                         marks: seq<Mark>, parks: seq<Park>, buildings: seq<Building>)

  function Generate(cfg: CityConfig): Scene
    requires Sized(cfg)
  {
    var y := LotStage(cfg);
    Scene(cfg, Roads(cfg), Sidewalks(cfg), Marks(cfg), y.parks, y.buildings)
  }

  // ---------------------------------------------------------------------
  // The array sizes GenerateCity allocates.

  function BuildingCapacity(cfg: CityConfig): int { TotalLots(cfg) }

  function RoadCapacity(cfg: CityConfig): int { (cfg.blocksX + cfg.blocksZ) * 6 }

  function SidewalkCapacity(cfg: CityConfig): int { (cfg.blocksX + cfg.blocksZ) * 12 }

  function ParkCapacity(cfg: CityConfig): int { TotalLots(cfg) / 4 + 8 }

  function MarkCapacity(cfg: CityConfig): int { (cfg.blocksX + cfg.blocksZ) * 200 }
}
