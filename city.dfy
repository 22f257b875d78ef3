// GenerateCity and UnloadCity of city.c, on a City record whose five arrays
// are allocated, filled in place in generation order, and released.

module CityGen {
  import opened CityTypes
  import opened Prng
  import opened Layout
  import opened LayoutProps

  /** What a zero-initialised MemAlloc block holds. */
  const ZeroBuilding := Building(Origin, Origin, 0)
  const ZeroRoad := Road(Origin, Origin)
  const ZeroSidewalk := Sidewalk(Origin, Origin)
  const ZeroPark := Park(Origin, Origin)
  const ZeroMark := Mark(Origin, Origin)

  lemma ConcatAssoc<T>(a: seq<T>, b: seq<T>, c: seq<T>)
    ensures a + b + c == a + (b + c)
  {
  }

  lemma EmptyConcat<T>(a: seq<T>, b: seq<T>)
    ensures [] + a + b == a + b
  {
  }

  /** The City record: five arrays, each with the number of entries written so far. */
  class City {
    var cfg: CityConfig
    var buildings: array?<Building>
    var buildingCount: int
    var roads: array?<Road>
    var roadCount: int
    var sidewalks: array?<Sidewalk>
    var sidewalkCount: int
    var parks: array?<Park>
    var parkCount: int
    var marks: array?<Mark>
    var markCount: int

    /** A record initialised with `(City){0}`. */
    constructor ()
      ensures IsZero()
    {
      cfg := ZeroConfig;
      buildings, buildingCount := null, 0;
      roads, roadCount := null, 0;
      sidewalks, sidewalkCount := null, 0;
      parks, parkCount := null, 0;
      marks, markCount := null, 0;
    }

    /** Every field zero: no configuration, no arrays, no entries. */
    predicate IsZero()
      reads this
    {
      && cfg == ZeroConfig
      && buildings == null && buildingCount == 0
      && roads == null && roadCount == 0
      && sidewalks == null && sidewalkCount == 0
      && parks == null && parkCount == 0
      && marks == null && markCount == 0
    }

    /** All five arrays are allocated and every count lies within its array. */
    ghost predicate Valid()
      reads this
    {
      BuildingsOk() && RoadsOk() && SidewalksOk() && ParksOk() && MarksOk()
    }

    ghost predicate BuildingsOk()
      reads this`buildings, this`buildingCount
    {
      buildings != null && 0 <= buildingCount <= buildings.Length
    }

    ghost predicate RoadsOk()
      reads this`roads, this`roadCount
    {
      roads != null && 0 <= roadCount <= roads.Length
    }

    ghost predicate SidewalksOk()
      reads this`sidewalks, this`sidewalkCount
    {
      sidewalks != null && 0 <= sidewalkCount <= sidewalks.Length
    }

    ghost predicate ParksOk()
      reads this`parks, this`parkCount
    {
      parks != null && 0 <= parkCount <= parks.Length
    }

    ghost predicate MarksOk()
      reads this`marks, this`markCount
    {
      marks != null && 0 <= markCount <= marks.Length
    }

    /** The arrays the record currently owns. */
    ghost function Allocations(): set<object>
      reads this
    {
      var none: set<object> := {};
      (if buildings != null then {buildings as object} else none)
      + (if roads != null then {roads as object} else none)
      + (if sidewalks != null then {sidewalks as object} else none)
      + (if parks != null then {parks as object} else none)
      + (if marks != null then {marks as object} else none)
    }

    ghost function BuildingList(): seq<Building>
      reads this`buildings, this`buildingCount, buildings
      requires BuildingsOk()
    {
      buildings[..buildingCount]
    }

    ghost function RoadList(): seq<Road>
      reads this`roads, this`roadCount, roads
      requires RoadsOk()
    {
      roads[..roadCount]
    }

    ghost function SidewalkList(): seq<Sidewalk>
      reads this`sidewalks, this`sidewalkCount, sidewalks
      requires SidewalksOk()
    {
      sidewalks[..sidewalkCount]
    }

    ghost function ParkList(): seq<Park>
      reads this`parks, this`parkCount, parks
      requires ParksOk()
    {
      parks[..parkCount]
    }

    ghost function MarkList(): seq<Mark>
      reads this`marks, this`markCount, marks
      requires MarksOk()
    {
      marks[..markCount]
    }

    /** The record's contents: its configuration and the entries written to each array. */
    ghost function View(): Scene
      reads this, buildings, roads, sidewalks, parks, marks
      requires Valid()
    {
      Scene(cfg, RoadList(), SidewalkList(), MarkList(), ParkList(), BuildingList())
    }

    /** `*city = (City){0}` */
    method Reset()
      modifies this
      ensures IsZero()
    {
      cfg := ZeroConfig;
      buildings, buildingCount := null, 0;
      roads, roadCount := null, 0;
      sidewalks, sidewalkCount := null, 0;
      parks, parkCount := null, 0;
      marks, markCount := null, 0;
    }

    /**
     * The allocations of GenerateCity: totalLots buildings, six roads and
     * twelve sidewalks per block line, a quarter of the lots plus eight
     * parks and 200 marks per block line, all zero-filled and empty.
     */
    method Allocate()
      requires Sized(cfg)
      modifies this
      ensures Valid() && cfg == old(cfg)
      ensures fresh(buildings) && fresh(roads) && fresh(sidewalks) && fresh(parks) && fresh(marks)
      ensures buildings.Length == BuildingCapacity(cfg) && roads.Length == RoadCapacity(cfg)
      ensures sidewalks.Length == SidewalkCapacity(cfg) && parks.Length == ParkCapacity(cfg)
      ensures marks.Length == MarkCapacity(cfg)
      ensures RoadList() == [] && SidewalkList() == [] && MarkList() == []
      ensures ParkList() == [] && BuildingList() == []
    {
      var lotsPerBlock := 6;
      var totalLots := cfg.blocksX * cfg.blocksZ * lotsPerBlock * lotsPerBlock;
      MulMono(0, cfg.blocksX, cfg.blocksZ);
      buildings := new Building[totalLots](_ => ZeroBuilding);
      roads := new Road[(cfg.blocksX + cfg.blocksZ) * 6](_ => ZeroRoad);
      sidewalks := new Sidewalk[(cfg.blocksX + cfg.blocksZ) * 12](_ => ZeroSidewalk);
      parks := new Park[totalLots / 4 + 8](_ => ZeroPark);
      marks := new Mark[(cfg.blocksX + cfg.blocksZ) * 200](_ => ZeroMark);
      buildingCount, roadCount, sidewalkCount, parkCount, markCount := 0, 0, 0, 0, 0;
    }

    /**
     * The start of GenerateCity: the record is zeroed, takes the
     * configuration c and gets its five fresh, empty arrays.
     */
    method Start(c: CityConfig)
      requires Sized(c)
      modifies this
      ensures Valid() && cfg == c
      ensures fresh(buildings) && fresh(roads) && fresh(sidewalks) && fresh(parks) && fresh(marks)
      ensures buildings.Length == BuildingCapacity(c) && roads.Length == RoadCapacity(c)
      ensures sidewalks.Length == SidewalkCapacity(c) && parks.Length == ParkCapacity(c)
      ensures marks.Length == MarkCapacity(c)
      ensures RoadList() == [] && SidewalkList() == [] && MarkList() == []
      ensures ParkList() == [] && BuildingList() == []
    {
      Reset();
      cfg := c;
      Allocate();
    }

    // -------------------------------------------------------------------
    // `xs[xCount++] = v`

    method AppendBuilding(b: Building)
      requires BuildingsOk() && buildingCount < buildings.Length
      modifies this`buildingCount, buildings
      ensures BuildingsOk() && buildingCount == old(buildingCount) + 1
      ensures buildings[..buildingCount] == old(buildings[..buildingCount]) + [b]
    {
      buildings[buildingCount] := b;
      buildingCount := buildingCount + 1;
    }

    method AppendRoad(r: Road)
      requires RoadsOk() && roadCount < roads.Length
      modifies this`roadCount, roads
      ensures RoadsOk() && roadCount == old(roadCount) + 1
      ensures roads[..roadCount] == old(roads[..roadCount]) + [r]
    {
      roads[roadCount] := r;
      roadCount := roadCount + 1;
    }

    method AppendSidewalk(s: Sidewalk)
      requires SidewalksOk() && sidewalkCount < sidewalks.Length
      modifies this`sidewalkCount, sidewalks
      ensures SidewalksOk() && sidewalkCount == old(sidewalkCount) + 1
      ensures sidewalks[..sidewalkCount] == old(sidewalks[..sidewalkCount]) + [s]
    {
      sidewalks[sidewalkCount] := s;
      sidewalkCount := sidewalkCount + 1;
    }

    method AppendPark(p: Park)
      requires ParksOk() && parkCount < parks.Length
      modifies this`parkCount, parks
      ensures ParksOk() && parkCount == old(parkCount) + 1
      ensures parks[..parkCount] == old(parks[..parkCount]) + [p]
    {
      parks[parkCount] := p;
      parkCount := parkCount + 1;
    }

    method AppendMark(m: Mark)
      requires MarksOk() && markCount < marks.Length
      modifies this`markCount, marks
      ensures MarksOk() && markCount == old(markCount) + 1
      ensures marks[..markCount] == old(marks[..markCount]) + [m]
    {
      marks[markCount] := m;
      markCount := markCount + 1;
    }

    // -------------------------------------------------------------------
    // The road stage.

    /** The dashed centre line of horizontal road bz: one mark every 4 units along x. */
    method PaintHorizontalDashes(bz: int)
      requires MarksOk() && markCount + |HorizontalDashes(cfg, bz)| <= marks.Length
      modifies this`markCount, marks
      ensures MarksOk() && marks[..markCount] == old(marks[..markCount]) + HorizontalDashes(cfg, bz)
    {
      var dashes := Trunc((CityWidth(cfg) + cfg.roadWidth) / DashPitch);
      ghost var d := HorizontalDashes(cfg, bz);
      ghost var m0 := marks[..markCount];
      assert |d| == (if dashes > 0 then dashes else 0);
      var i := 0;
      while i < dashes
        invariant 0 <= i <= |d|
        invariant MarksOk() && markCount == |m0| + i && |m0| + |d| <= marks.Length
        invariant marks[..markCount] == m0 + d[..i]
      {
        assert HorizontalMark(cfg, bz, i) == d[i];
        AppendMark(HorizontalMark(cfg, bz, i));
        assert d[..i + 1] == d[..i] + [d[i]];
        ConcatAssoc(m0, d[..i], [d[i]]);
        i := i + 1;
      }
      assert d[..i] == d;
    }

    /**
     * Horizontal road bz: the road along x, its two curbs and its dashed
     * centre line, appended in that order.
     */
    method LayHorizontalRoad(bz: int)
      requires RoadsOk() && SidewalksOk() && MarksOk()
      requires roadCount < roads.Length && sidewalkCount + 2 <= sidewalks.Length
      requires markCount + |HorizontalDashes(cfg, bz)| <= marks.Length
      modifies this`roadCount, this`sidewalkCount, this`markCount, roads, sidewalks, marks
      ensures RoadsOk() && SidewalksOk() && MarksOk()
      ensures roads[..roadCount] == old(roads[..roadCount]) + [HorizontalRoad(cfg, bz)]
      ensures sidewalks[..sidewalkCount] == old(sidewalks[..sidewalkCount]) + HorizontalCurbs(cfg, bz)
      ensures marks[..markCount] == old(marks[..markCount]) + HorizontalDashes(cfg, bz)
    {
      ghost var s0 := sidewalks[..sidewalkCount];
      AppendRoad(HorizontalRoad(cfg, bz));
      var curbs := HorizontalCurbs(cfg, bz);
      AppendSidewalk(curbs[0]);
      AppendSidewalk(curbs[1]);
      assert [curbs[0]] + [curbs[1]] == curbs;
      ConcatAssoc(s0, [curbs[0]], [curbs[1]]);
      PaintHorizontalDashes(bz);
    }

    /** The horizontal roads, for bz = 0..blocksZ. */
    method HorizontalRoadStage()
      requires RoadsOk() && SidewalksOk() && MarksOk() && Sized(cfg)
      requires roadCount + (cfg.blocksZ + 1) <= roads.Length
      requires sidewalkCount + 2 * (cfg.blocksZ + 1) <= sidewalks.Length
      requires markCount + |HorizontalMarks(cfg, cfg.blocksZ + 1)| <= marks.Length
      modifies this`roadCount, this`sidewalkCount, this`markCount, roads, sidewalks, marks
      ensures RoadsOk() && SidewalksOk() && MarksOk()
      ensures roads[..roadCount] == old(roads[..roadCount]) + HorizontalRoads(cfg, cfg.blocksZ + 1)
      ensures sidewalks[..sidewalkCount] == old(sidewalks[..sidewalkCount]) + HorizontalSidewalks(cfg, cfg.blocksZ + 1)
      ensures marks[..markCount] == old(marks[..markCount]) + HorizontalMarks(cfg, cfg.blocksZ + 1)
    {
      ghost var r0, s0, m0 := roads[..roadCount], sidewalks[..sidewalkCount], marks[..markCount];
      var bz := 0;
      while bz <= cfg.blocksZ
        invariant 0 <= bz <= cfg.blocksZ + 1
        invariant RoadsOk() && SidewalksOk() && MarksOk()
        invariant |r0| + (cfg.blocksZ + 1) <= roads.Length
        invariant |s0| + 2 * (cfg.blocksZ + 1) <= sidewalks.Length
        invariant |m0| + |HorizontalMarks(cfg, cfg.blocksZ + 1)| <= marks.Length
        invariant roads[..roadCount] == r0 + HorizontalRoads(cfg, bz)
        invariant sidewalks[..sidewalkCount] == s0 + HorizontalSidewalks(cfg, bz)
        invariant marks[..markCount] == m0 + HorizontalMarks(cfg, bz)
      {
        HorizontalStep(cfg, bz, r0, s0, m0, roads[..roadCount], sidewalks[..sidewalkCount],
                       marks[..markCount], roads.Length, sidewalks.Length, marks.Length);
        LayHorizontalRoad(bz);
        bz := bz + 1;
      }
    }

    /** The dashed centre line of vertical road bx: one mark every 4 units along z. */
    method PaintVerticalDashes(bx: int)
      requires MarksOk() && markCount + |VerticalDashes(cfg, bx)| <= marks.Length
      modifies this`markCount, marks
      ensures MarksOk() && marks[..markCount] == old(marks[..markCount]) + VerticalDashes(cfg, bx)
    {
      var dashes := Trunc((CityHeight(cfg) + cfg.roadWidth) / DashPitch);
      ghost var d := VerticalDashes(cfg, bx);
      ghost var m0 := marks[..markCount];
      assert |d| == (if dashes > 0 then dashes else 0);
      var i := 0;
      while i < dashes
        invariant 0 <= i <= |d|
        invariant MarksOk() && markCount == |m0| + i && |m0| + |d| <= marks.Length
        invariant marks[..markCount] == m0 + d[..i]
      {
        assert VerticalMark(cfg, bx, i) == d[i];
        AppendMark(VerticalMark(cfg, bx, i));
        assert d[..i + 1] == d[..i] + [d[i]];
        ConcatAssoc(m0, d[..i], [d[i]]);
        i := i + 1;
      }
      assert d[..i] == d;
    }

    /**
     * Vertical road bx: the road along z, its two curbs and its dashed
     * centre line, appended in that order.
     */
    method LayVerticalRoad(bx: int)
      requires RoadsOk() && SidewalksOk() && MarksOk()
      requires roadCount < roads.Length && sidewalkCount + 2 <= sidewalks.Length
      requires markCount + |VerticalDashes(cfg, bx)| <= marks.Length
      modifies this`roadCount, this`sidewalkCount, this`markCount, roads, sidewalks, marks
      ensures RoadsOk() && SidewalksOk() && MarksOk()
      ensures roads[..roadCount] == old(roads[..roadCount]) + [VerticalRoad(cfg, bx)]
      ensures sidewalks[..sidewalkCount] == old(sidewalks[..sidewalkCount]) + VerticalCurbs(cfg, bx)
      ensures marks[..markCount] == old(marks[..markCount]) + VerticalDashes(cfg, bx)
    {
      ghost var s0 := sidewalks[..sidewalkCount];
      AppendRoad(VerticalRoad(cfg, bx));
      var curbs := VerticalCurbs(cfg, bx);
      AppendSidewalk(curbs[0]);
      AppendSidewalk(curbs[1]);
      assert [curbs[0]] + [curbs[1]] == curbs;
      ConcatAssoc(s0, [curbs[0]], [curbs[1]]);
      PaintVerticalDashes(bx);
    }

    /** The vertical roads, for bx = 0..blocksX. */
    method VerticalRoadStage()
      requires RoadsOk() && SidewalksOk() && MarksOk() && Sized(cfg)
      requires roadCount + (cfg.blocksX + 1) <= roads.Length
      requires sidewalkCount + 2 * (cfg.blocksX + 1) <= sidewalks.Length
      requires markCount + |VerticalMarks(cfg, cfg.blocksX + 1)| <= marks.Length
      modifies this`roadCount, this`sidewalkCount, this`markCount, roads, sidewalks, marks
      ensures RoadsOk() && SidewalksOk() && MarksOk()
      ensures roads[..roadCount] == old(roads[..roadCount]) + VerticalRoads(cfg, cfg.blocksX + 1)
      ensures sidewalks[..sidewalkCount] == old(sidewalks[..sidewalkCount]) + VerticalSidewalks(cfg, cfg.blocksX + 1)
      ensures marks[..markCount] == old(marks[..markCount]) + VerticalMarks(cfg, cfg.blocksX + 1)
    {
      ghost var r0, s0, m0 := roads[..roadCount], sidewalks[..sidewalkCount], marks[..markCount];
      var bx := 0;
      while bx <= cfg.blocksX
        invariant 0 <= bx <= cfg.blocksX + 1
        invariant RoadsOk() && SidewalksOk() && MarksOk()
        invariant |r0| + (cfg.blocksX + 1) <= roads.Length
        invariant |s0| + 2 * (cfg.blocksX + 1) <= sidewalks.Length
        invariant |m0| + |VerticalMarks(cfg, cfg.blocksX + 1)| <= marks.Length
        invariant roads[..roadCount] == r0 + VerticalRoads(cfg, bx)
        invariant sidewalks[..sidewalkCount] == s0 + VerticalSidewalks(cfg, bx)
        invariant marks[..markCount] == m0 + VerticalMarks(cfg, bx)
      {
        VerticalStep(cfg, bx, r0, s0, m0, roads[..roadCount], sidewalks[..sidewalkCount],
                       marks[..markCount], roads.Length, sidewalks.Length, marks.Length);
        LayVerticalRoad(bx);
        bx := bx + 1;
      }
    }

    /** Both road stages into empty arrays: horizontal roads first, then vertical ones. */
    method LayRoads()
      requires RoadsOk() && SidewalksOk() && MarksOk()
      requires Sized(cfg) && cfg.blocksX + cfg.blocksZ >= 1
      requires MarkTotal(cfg) <= MarkCapacity(cfg)
      requires RoadList() == [] && SidewalkList() == [] && MarkList() == []
      requires roads.Length == RoadCapacity(cfg) && sidewalks.Length == SidewalkCapacity(cfg)
      requires marks.Length == MarkCapacity(cfg)
      modifies this`roadCount, this`sidewalkCount, this`markCount, roads, sidewalks, marks
      ensures RoadsOk() && SidewalksOk() && MarksOk()
      ensures RoadList() == Roads(cfg) && SidewalkList() == Sidewalks(cfg) && MarkList() == Marks(cfg)
    {
      RoadStageFits(cfg);
      HorizontalRoadStage();
      VerticalRoadStage();
      EmptyConcat(HorizontalRoads(cfg, cfg.blocksZ + 1), VerticalRoads(cfg, cfg.blocksX + 1));
      EmptyConcat(HorizontalSidewalks(cfg, cfg.blocksZ + 1), VerticalSidewalks(cfg, cfg.blocksX + 1));
      EmptyConcat(HorizontalMarks(cfg, cfg.blocksZ + 1), VerticalMarks(cfg, cfg.blocksX + 1));
    }

    // -------------------------------------------------------------------
    // The lot stage.

    /**
     * The park and building arrays are allocated and hold v0's parks and
     * buildings followed by what the first k lots of the grid yield from
     * generator state s0; rng is the state after their draws.
     */
    ghost predicate LotsPlaced(v0: Scene, s0: bv32, k: int, rng: bv32)
      reads this`cfg, this`parks, this`parkCount, this`buildings, this`buildingCount, parks, buildings
    {
      && parks != null && 0 <= parkCount <= parks.Length
      && buildings != null && 0 <= buildingCount <= buildings.Length
      && Placed(cfg, v0, s0, k, parks[..parkCount], buildings[..buildingCount], rng)
    }

    /** The arrays have room for v0's parks and buildings and everything the lot stage adds. */
    ghost predicate LotRoom(v0: Scene, s0: bv32)
      reads this`cfg, this`parks, this`buildings
    {
      parks != null && buildings != null && Room(cfg, v0, s0, parks.Length, buildings.Length)
    }

    /** Before the lot stage no lot has been placed. */
    lemma NothingPlacedYet(s0: bv32)
      requires Valid() && Sized(cfg)
      ensures LotsPlaced(View(), s0, 0, s0)
    {
      assert AllLots(cfg)[..0] == [];
    }

    /** Once every lot of the grid is placed, the lot stage's parks and buildings follow v0's. */
    lemma AllPlaced(v0: Scene, s0: bv32, rng: bv32)
      requires LotsPlaced(v0, s0, TotalLots(cfg), rng)
      ensures var y := FillLots(cfg, AllLots(cfg), s0);
        && ParkList() == v0.parks + y.parks && BuildingList() == v0.buildings + y.buildings
        && rng == y.rng
    {
      assert AllLots(cfg)[..TotalLots(cfg)] == AllLots(cfg);
    }

    /** A park lot: the park fills the lot's footprint at ground level. */
    method PlacePark(lot: Lot)
      requires ParksOk() && parkCount < parks.Length
      modifies this`parkCount, parks
      ensures ParksOk() && parks[..parkCount] == old(parks[..parkCount]) + [LotPark(lot)]
    {
      var cx := (lot.x0 + lot.x1) * 0.5;
      var cz := (lot.z0 + lot.z1) * 0.5;
      var lw := (lot.x1 - lot.x0) * 0.85;
      var lzlen := (lot.z1 - lot.z0) * 0.85;
      AppendPark(Park(Vector3(cx, 0.06, cz), Vector3(lw, 0.12, lzlen)));
    }

    /**
     * A building lot, drawn from the state s1 after the park draw: width,
     * depth and height from the next three draws, the width and depth cut
     * down to the lot's footprint, then the colour tag from a fourth draw.
     */
    method PlaceBuilding(lot: Lot, s1: bv32) returns (rng: bv32)
      requires BuildingsOk() && buildingCount < buildings.Length
      modifies this`buildingCount, buildings
      ensures BuildingsOk() && rng == Iter(s1, 4)
      ensures buildings[..buildingCount] == old(buildings[..buildingCount])
        + [LotBuilding(cfg, lot, Unit(Iter(s1, 1)), Unit(Iter(s1, 2)), Unit(Iter(s1, 3)), Unit(Iter(s1, 4)))]
    {
      var cx := (lot.x0 + lot.x1) * 0.5;
      var cz := (lot.z0 + lot.z1) * 0.5;
      var lw := (lot.x1 - lot.x0) * 0.85;
      var lzlen := (lot.z1 - lot.z0) * 0.85;
      IterAdd(s1, 1, 1);
      IterAdd(s1, 2, 1);
      IterAdd(s1, 3, 1);
      var dx, dz, dy, dc;
      dx, rng := Frand01(s1);
      var sx := Lerp(cfg.minBuilding.x, cfg.maxBuilding.x, dx);
      dz, rng := Frand01(rng);
      var sz := Lerp(cfg.minBuilding.z, cfg.maxBuilding.z, dz);
      dy, rng := Frand01(rng);
      var sy := Lerp(cfg.minBuilding.y, cfg.maxBuilding.y, dy);
      if sx > lw { sx := lw; }
      if sz > lzlen { sz := lzlen; }
      dc, rng := Frand01(rng);
      assert Building(Vector3(cx, sy * 0.5 + 0.06, cz), Vector3(sx, sy, sz), Trunc(dc * 1000.0))
          == LotBuilding(cfg, lot, dx, dz, dy, dc);
      AppendBuilding(Building(Vector3(cx, sy * 0.5 + 0.06, cz), Vector3(sx, sy, sz), Trunc(dc * 1000.0)));
    }

    /**
     * One lot: the first draw decides between a park filling the lot's
     * footprint and a building from the next four draws.
     */
    method PlaceLotAt(lot: Lot, s: bv32) returns (rng: bv32)
      requires ParksOk() && BuildingsOk()
      requires PlaceLot(cfg, lot, s).outcome.ParkLot? ==> parkCount < parks.Length
      requires PlaceLot(cfg, lot, s).outcome.BuildingLot? ==> buildingCount < buildings.Length
      modifies this`parkCount, this`buildingCount, parks, buildings
      ensures ParksOk() && BuildingsOk()
      ensures var y := Absorb(cfg, Yield(old(parks[..parkCount]), old(buildings[..buildingCount]), s), lot);
        && parks[..parkCount] == y.parks && buildings[..buildingCount] == y.buildings && rng == y.rng
    {
      var p;
      p, rng := Frand01(s);
      if p < cfg.parkChance {
        PlacePark(lot);
      } else {
        IterAdd(s, 1, 1);
        IterAdd(s, 1, 2);
        IterAdd(s, 1, 3);
        IterAdd(s, 1, 4);
        rng := PlaceBuilding(lot, rng);
      }
    }

    /** Places lot (lz, lx) of block (bz, bx) after the lots numbered before it. */
    method PlaceNextLot(lot: Lot, ghost bz: int, ghost bx: int, ghost lz: int, ghost lx: int,
                        ghost v0: Scene, ghost s0: bv32, rng0: bv32) returns (rng: bv32)
      requires 0 <= bz < cfg.blocksZ && 0 <= bx < cfg.blocksX
      requires 0 <= lz < LotsPerBlock && 0 <= lx < LotsPerBlock && lot == LotAt(cfg, bz, bx, lz, lx)
      requires LotRoom(v0, s0) && LotsPlaced(v0, s0, LotIndex(cfg.blocksX, bz, bx, lz, lx), rng0)
      modifies this`parkCount, this`buildingCount, parks, buildings
      ensures LotsPlaced(v0, s0, LotIndex(cfg.blocksX, bz, bx, lz, lx) + 1, rng)
    {
      PlacedStep(cfg, v0, s0, LotIndex(cfg.blocksX, bz, bx, lz, lx), parks[..parkCount],
                 buildings[..buildingCount], rng0, parks.Length, buildings.Length, bz, bx, lz, lx, lot);
      rng := PlaceLotAt(lot, rng0);
    }

    /** Lot row lz of block (bz, bx): lots lx = 0..5 between the block's interior bounds. */
    method FillLotRow(bz: int, bx: int, lz: int, bMinX: real, bMaxX: real, bMinZ: real, bMaxZ: real,
                      ghost v0: Scene, ghost s0: bv32, rng0: bv32) returns (rng: bv32)
      requires 0 <= bz < cfg.blocksZ && 0 <= bx < cfg.blocksX && 0 <= lz < LotsPerBlock
      requires bMinX == BlockMin(cfg, bx) && bMaxX == BlockMax(cfg, bx)
      requires bMinZ == BlockMin(cfg, bz) && bMaxZ == BlockMax(cfg, bz)
      requires LotRoom(v0, s0) && LotsPlaced(v0, s0, LotIndex(cfg.blocksX, bz, bx, lz, 0), rng0)
      modifies this`parkCount, this`buildingCount, parks, buildings
      ensures LotsPlaced(v0, s0, LotIndex(cfg.blocksX, bz, bx, lz + 1, 0), rng)
    {
      var lots := 6;
      rng := rng0;
      var lx := 0;
      while lx < lots
        invariant 0 <= lx <= lots
        invariant LotsPlaced(v0, s0, LotIndex(cfg.blocksX, bz, bx, lz, lx), rng)
      {
        var lot := Lot(LotEdge(bMinX, bMaxX, lx), LotEdge(bMinX, bMaxX, lx + 1),
                       LotEdge(bMinZ, bMaxZ, lz), LotEdge(bMinZ, bMaxZ, lz + 1));
        rng := PlaceNextLot(lot, bz, bx, lz, lx, v0, s0, rng);
        LotIndexSteps(cfg.blocksX, bz, bx, lz, lx);
        lx := lx + 1;
      }
      LotIndexSteps(cfg.blocksX, bz, bx, lz, lx);
    }

    /** Block (bz, bx): its interior bounds, then lot rows lz = 0..5. */
    method FillBlock(bz: int, bx: int, ghost v0: Scene, ghost s0: bv32, rng0: bv32)
      returns (rng: bv32)
      requires 0 <= bz < cfg.blocksZ && 0 <= bx < cfg.blocksX
      requires LotRoom(v0, s0) && LotsPlaced(v0, s0, LotIndex(cfg.blocksX, bz, bx, 0, 0), rng0)
      modifies this`parkCount, this`buildingCount, parks, buildings
      ensures LotsPlaced(v0, s0, LotIndex(cfg.blocksX, bz, bx + 1, 0, 0), rng)
    {
      var bMinX, bMaxX := BlockMin(cfg, bx), BlockMax(cfg, bx);
      var bMinZ, bMaxZ := BlockMin(cfg, bz), BlockMax(cfg, bz);
      var lots := 6;
      rng := rng0;
      var lz := 0;
      while lz < lots
        invariant 0 <= lz <= lots
        invariant LotsPlaced(v0, s0, LotIndex(cfg.blocksX, bz, bx, lz, 0), rng)
      {
        rng := FillLotRow(bz, bx, lz, bMinX, bMaxX, bMinZ, bMaxZ, v0, s0, rng);
        lz := lz + 1;
      }
      LotIndexSteps(cfg.blocksX, bz, bx, lz, 0);
    }

    /** Row bz of blocks: blocks bx = 0..blocksX-1. */
    method FillBlockRow(bz: int, ghost v0: Scene, ghost s0: bv32, rng0: bv32) returns (rng: bv32)
      requires 0 <= bz < cfg.blocksZ
      requires LotRoom(v0, s0) && LotsPlaced(v0, s0, LotIndex(cfg.blocksX, bz, 0, 0, 0), rng0)
      modifies this`parkCount, this`buildingCount, parks, buildings
      ensures LotsPlaced(v0, s0, LotIndex(cfg.blocksX, bz + 1, 0, 0, 0), rng)
    {
      rng := rng0;
      var bx := 0;
      while bx < cfg.blocksX
        invariant 0 <= bx <= cfg.blocksX
        invariant LotsPlaced(v0, s0, LotIndex(cfg.blocksX, bz, bx, 0, 0), rng)
      {
        rng := FillBlock(bz, bx, v0, s0, rng);
        bx := bx + 1;
      }
      LotIndexSteps(cfg.blocksX, bz, bx, 0, 0);
    }

    /** The loop over rows of blocks bz = 0..blocksZ-1. */
    method PlaceBlockRows(ghost v0: Scene, ghost s0: bv32, rng0: bv32) returns (rng: bv32)
      requires LotRoom(v0, s0) && LotsPlaced(v0, s0, LotIndex(cfg.blocksX, 0, 0, 0, 0), rng0)
      modifies this`parkCount, this`buildingCount, parks, buildings
      ensures LotsPlaced(v0, s0, TotalLots(cfg), rng)
    {
      rng := rng0;
      var bz := 0;
      while bz < cfg.blocksZ
        invariant 0 <= bz <= cfg.blocksZ
        invariant LotsPlaced(v0, s0, LotIndex(cfg.blocksX, bz, 0, 0, 0), rng)
      {
        rng := FillBlockRow(bz, v0, s0, rng);
        bz := bz + 1;
      }
      LotIndexEnd(cfg);
    }

    /** The lot stage: blocks bz = 0..blocksZ-1, each row of blocks bx = 0..blocksX-1. */
    method PlaceLots(rng0: bv32) returns (rng: bv32)
      requires Valid() && Sized(cfg) && rng0 == InitialState(cfg.seed)
      requires ParkList() == [] && BuildingList() == []
      requires parks.Length == ParkCapacity(cfg) && buildings.Length == BuildingCapacity(cfg)
      requires |LotStage(cfg).parks| <= ParkCapacity(cfg)
      modifies this`parkCount, this`buildingCount, parks, buildings
      ensures ParksOk() && BuildingsOk()
      ensures ParkList() == LotStage(cfg).parks && BuildingList() == LotStage(cfg).buildings
      ensures rng == LotStage(cfg).rng
    {
      ghost var v0 := View();
      assert LotRoom(v0, rng0);
      NothingPlacedYet(rng0);
      rng := PlaceBlockRows(v0, rng0, rng0);
      AllPlaced(v0, rng0, rng);
    }

    /** Once both stages have run, the record holds the scene Generate describes. */
    lemma SceneIsGenerated()
      requires Valid() && Sized(cfg)
      requires RoadList() == Roads(cfg) && SidewalkList() == Sidewalks(cfg) && MarkList() == Marks(cfg)
      requires ParkList() == LotStage(cfg).parks && BuildingList() == LotStage(cfg).buildings
      ensures View() == Generate(cfg)
    {
    }
  }

  /**
   * Fills outCity with the city cfg describes: the record is zeroed, the
   * five arrays are allocated at their fixed capacities, and the horizontal
   * roads, the vertical roads and then the lots are written in place. The
   * capacities hold what is written only when there is at least one block
   * in some direction, the dashes of all road lines together (MarkTotal)
   * fit in (blocksX + blocksZ) * 200, and the parks fit in a
   * quarter of the lots plus eight (FixedCapacities, MarkCapacityOverflow
   * and ParkCapacityOverflow show when they do not).
   */
  method GenerateCity(outCity: City, cfg: CityConfig)
    requires Sized(cfg)
    requires cfg.blocksX + cfg.blocksZ >= 1
    requires MarkTotal(cfg) <= MarkCapacity(cfg)
    requires |LotStage(cfg).parks| <= ParkCapacity(cfg)
    modifies outCity
    ensures outCity.Valid()
    ensures fresh(outCity.buildings) && fresh(outCity.roads) && fresh(outCity.sidewalks)
    ensures fresh(outCity.parks) && fresh(outCity.marks)
    ensures outCity.buildings.Length == BuildingCapacity(cfg) && outCity.roads.Length == RoadCapacity(cfg)
    ensures outCity.sidewalks.Length == SidewalkCapacity(cfg) && outCity.parks.Length == ParkCapacity(cfg)
    ensures outCity.marks.Length == MarkCapacity(cfg)
    ensures outCity.View() == Generate(cfg)
  {
    var rng: bv32 := if cfg.seed != 0 then cfg.seed else 1234567;
    outCity.Start(cfg);
    outCity.LayRoads();
    rng := outCity.PlaceLots(rng);
    outCity.SceneIsGenerated();
  }

  /**
   * Releases the arrays a record owns and zeroes it; a null record is left
   * alone. `freed` is the set of arrays handed to MemFree. A zeroed record
   * owns nothing, so unloading it again frees nothing.
   */
  method UnloadCity(city: City?) returns (ghost freed: set<object>)
    modifies city
    ensures city == null ==> freed == {}
    ensures city != null ==> freed == old(city.Allocations())
    ensures city != null ==> city.IsZero() && city.Allocations() == {}
    ensures city != null && old(city.IsZero()) ==> freed == {}
  {
    freed := {};
    if city == null { return; }
    if city.buildings != null { freed := freed + {city.buildings}; }
    if city.roads != null { freed := freed + {city.roads}; }
    if city.sidewalks != null { freed := freed + {city.sidewalks}; }
    if city.parks != null { freed := freed + {city.parks}; }
    if city.marks != null { freed := freed + {city.marks}; }
    city.Reset();
  }
}
