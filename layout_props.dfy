// Properties of the generated city: counts, placement of curbs and dashes,
// the lot grid, the draws the lot stage consumes, the seed rule, and which
// of GenerateCity's allocations can be too small.

module LayoutProps {
  import opened CityTypes
  import opened Prng
  import opened Layout

  // ---------------------------------------------------------------------
  // Integer arithmetic the lot order needs.

  lemma MulSub(x: int, y: int, n: int)
    ensures (x - y) * n == x * n - y * n
  {
  }

  lemma MulAtLeast(c: int, n: int)
    requires c >= 1 && n >= 0
    ensures c * n >= n
  {
  }

  lemma MulMono(a: int, b: int, n: int)
    requires a <= b && n >= 0
    ensures a * n <= b * n
  {
    MulSub(b, a, n);
    if b > a { MulAtLeast(b - a, n); }
  }

  /** Euclidean division recovers quotient and remainder. */
  lemma DivModUnique(a: int, r: int, n: int)
    requires n > 0 && 0 <= r < n
    ensures (a * n + r) / n == a && (a * n + r) % n == r
  {
    var k := a * n + r;
    var q, m := k / n, k % n;
    assert k == q * n + m && 0 <= m < n;
    MulSub(q, a, n);
    assert (q - a) * n == r - m;
    if q > a {
      MulAtLeast(q - a, n);
      assert false;
    } else if q < a {
      MulAtLeast(a - q, n);
      MulSub(a, q, n);
      assert false;
    }
  }

  // ---------------------------------------------------------------------
  // Road stage: counts.

  /** One road and two curbs per grid line. */
  lemma {:induction false} HorizontalCounts(cfg: CityConfig, n: nat)
    ensures |HorizontalRoads(cfg, n)| == n
    ensures |HorizontalSidewalks(cfg, n)| == 2 * n
  {
    if n > 0 {
      HorizontalCounts(cfg, n - 1);
    }
  }

  lemma {:induction false} VerticalCounts(cfg: CityConfig, n: nat)
    ensures |VerticalRoads(cfg, n)| == n
    ensures |VerticalSidewalks(cfg, n)| == 2 * n
  {
    if n > 0 {
      VerticalCounts(cfg, n - 1);
    }
  }

  /** Every horizontal road carries the same number of dashes. */
  lemma {:induction false} HorizontalMarkCount(cfg: CityConfig, n: nat)
    ensures |HorizontalMarks(cfg, n)| == n * DashCount(CityWidth(cfg) + cfg.roadWidth)
  {
    if n > 0 {
      HorizontalMarkCount(cfg, n - 1);
      MulSub(n, 1, DashCount(CityWidth(cfg) + cfg.roadWidth));
    }
  }

  lemma {:induction false} VerticalMarkCount(cfg: CityConfig, n: nat)
    ensures |VerticalMarks(cfg, n)| == n * DashCount(CityHeight(cfg) + cfg.roadWidth)
  {
    if n > 0 {
      VerticalMarkCount(cfg, n - 1);
      MulSub(n, 1, DashCount(CityHeight(cfg) + cfg.roadWidth));
    }
  }

  /** The marks of fewer roads are fewer. */
  lemma {:induction false} HorizontalMarksGrow(cfg: CityConfig, m: nat, n: nat)
    requires m <= n
    ensures |HorizontalMarks(cfg, m) + HorizontalDashes(cfg, m)| <= |HorizontalMarks(cfg, n + 1)|
    decreases n - m
  {
    if m < n {
      HorizontalMarksGrow(cfg, m + 1, n);
    }
  }

  lemma {:induction false} VerticalMarksGrow(cfg: CityConfig, m: nat, n: nat)
    requires m <= n
    ensures |VerticalMarks(cfg, m) + VerticalDashes(cfg, m)| <= |VerticalMarks(cfg, n + 1)|
    decreases n - m
  {
    if m < n {
      VerticalMarksGrow(cfg, m + 1, n);
    }
  }

  /**
   * One pass of the horizontal road loop. When the lists R, S and M hold
   * r0, s0 and m0 followed by the entries of the roads before bz, and the
   * rooms fit all the horizontal roads, road bz fits, and appending its
   * road, curbs and dashes gives the entries of the roads up to bz.
   */
  lemma HorizontalStep(cfg: CityConfig, bz: nat, r0: seq<Road>, s0: seq<Sidewalk>, m0: seq<Mark>,
                       R: seq<Road>, S: seq<Sidewalk>, M: seq<Mark>,
                       roadRoom: int, sidewalkRoom: int, markRoom: int)
    requires bz <= cfg.blocksZ
    requires R == r0 + HorizontalRoads(cfg, bz) && S == s0 + HorizontalSidewalks(cfg, bz)
    requires M == m0 + HorizontalMarks(cfg, bz)
    requires |r0| + (cfg.blocksZ + 1) <= roadRoom && |s0| + 2 * (cfg.blocksZ + 1) <= sidewalkRoom
    requires |m0| + |HorizontalMarks(cfg, cfg.blocksZ + 1)| <= markRoom
    ensures |R| < roadRoom && |S| + 2 <= sidewalkRoom && |M| + |HorizontalDashes(cfg, bz)| <= markRoom
    ensures R + [HorizontalRoad(cfg, bz)] == r0 + HorizontalRoads(cfg, bz + 1)
    ensures S + HorizontalCurbs(cfg, bz) == s0 + HorizontalSidewalks(cfg, bz + 1)
    ensures M + HorizontalDashes(cfg, bz) == m0 + HorizontalMarks(cfg, bz + 1)
  {
    HorizontalCounts(cfg, bz);
    HorizontalMarksGrow(cfg, bz, cfg.blocksZ);
    assert R + [HorizontalRoad(cfg, bz)] == r0 + (HorizontalRoads(cfg, bz) + [HorizontalRoad(cfg, bz)]);
    assert S + HorizontalCurbs(cfg, bz) == s0 + (HorizontalSidewalks(cfg, bz) + HorizontalCurbs(cfg, bz));
    assert M + HorizontalDashes(cfg, bz) == m0 + (HorizontalMarks(cfg, bz) + HorizontalDashes(cfg, bz));
  }

  /** One pass of the vertical road loop, as HorizontalStep. */
  lemma VerticalStep(cfg: CityConfig, bx: nat, r0: seq<Road>, s0: seq<Sidewalk>, m0: seq<Mark>,
                     R: seq<Road>, S: seq<Sidewalk>, M: seq<Mark>,
                     roadRoom: int, sidewalkRoom: int, markRoom: int)
    requires bx <= cfg.blocksX
    requires R == r0 + VerticalRoads(cfg, bx) && S == s0 + VerticalSidewalks(cfg, bx)
    requires M == m0 + VerticalMarks(cfg, bx)
    requires |r0| + (cfg.blocksX + 1) <= roadRoom && |s0| + 2 * (cfg.blocksX + 1) <= sidewalkRoom
    requires |m0| + |VerticalMarks(cfg, cfg.blocksX + 1)| <= markRoom
    ensures |R| < roadRoom && |S| + 2 <= sidewalkRoom && |M| + |VerticalDashes(cfg, bx)| <= markRoom
    ensures R + [VerticalRoad(cfg, bx)] == r0 + VerticalRoads(cfg, bx + 1)
    ensures S + VerticalCurbs(cfg, bx) == s0 + VerticalSidewalks(cfg, bx + 1)
    ensures M + VerticalDashes(cfg, bx) == m0 + VerticalMarks(cfg, bx + 1)
  {
    VerticalCounts(cfg, bx);
    VerticalMarksGrow(cfg, bx, cfg.blocksX);
    assert R + [VerticalRoad(cfg, bx)] == r0 + (VerticalRoads(cfg, bx) + [VerticalRoad(cfg, bx)]);
    assert S + VerticalCurbs(cfg, bx) == s0 + (VerticalSidewalks(cfg, bx) + VerticalCurbs(cfg, bx));
    assert M + VerticalDashes(cfg, bx) == m0 + (VerticalMarks(cfg, bx) + VerticalDashes(cfg, bx));
  }

  /** One road per grid line, two curbs per road, and the dash formula for the marks. */
  lemma RoadStageCounts(cfg: CityConfig)
    requires Sized(cfg)
    ensures |Roads(cfg)| == (cfg.blocksZ + 1) + (cfg.blocksX + 1)
    ensures |Sidewalks(cfg)| == 2 * |Roads(cfg)|
    ensures |Marks(cfg)| == MarkTotal(cfg)
  {
    HorizontalCounts(cfg, cfg.blocksZ + 1);
    VerticalCounts(cfg, cfg.blocksX + 1);
    HorizontalMarkCount(cfg, cfg.blocksZ + 1);
    VerticalMarkCount(cfg, cfg.blocksX + 1);
  }

  /**
   * With at least one block and the dash total within the mark capacity,
   * both road stages fit the fixed capacities of the road, sidewalk and
   * mark arrays.
   */
  lemma RoadStageFits(cfg: CityConfig)
    requires Sized(cfg) && cfg.blocksX + cfg.blocksZ >= 1
    requires MarkTotal(cfg) <= MarkCapacity(cfg)
    ensures |HorizontalRoads(cfg, cfg.blocksZ + 1)| == cfg.blocksZ + 1
    ensures |VerticalRoads(cfg, cfg.blocksX + 1)| == cfg.blocksX + 1
    ensures |HorizontalSidewalks(cfg, cfg.blocksZ + 1)| == 2 * (cfg.blocksZ + 1)
    ensures |VerticalSidewalks(cfg, cfg.blocksX + 1)| == 2 * (cfg.blocksX + 1)
    ensures (cfg.blocksZ + 1) + (cfg.blocksX + 1) <= RoadCapacity(cfg)
    ensures 2 * (cfg.blocksZ + 1) + 2 * (cfg.blocksX + 1) <= SidewalkCapacity(cfg)
    ensures |HorizontalMarks(cfg, cfg.blocksZ + 1)| + |VerticalMarks(cfg, cfg.blocksX + 1)| <= MarkCapacity(cfg)
  {
    HorizontalCounts(cfg, cfg.blocksZ + 1);
    VerticalCounts(cfg, cfg.blocksX + 1);
    HorizontalMarkCount(cfg, cfg.blocksZ + 1);
    VerticalMarkCount(cfg, cfg.blocksX + 1);
  }

  // ---------------------------------------------------------------------
  // Road stage: where roads, curbs and dashes are.

  lemma {:induction false} HorizontalRoadsAt(cfg: CityConfig, n: nat, i: nat)
    requires i < n
    ensures |HorizontalRoads(cfg, n)| == n
    ensures HorizontalRoads(cfg, n)[i] == HorizontalRoad(cfg, i)
  {
    HorizontalCounts(cfg, n);
    if i < n - 1 {
      HorizontalRoadsAt(cfg, n - 1, i);
    }
  }

  lemma {:induction false} VerticalRoadsAt(cfg: CityConfig, n: nat, i: nat)
    requires i < n
    ensures |VerticalRoads(cfg, n)| == n
    ensures VerticalRoads(cfg, n)[i] == VerticalRoad(cfg, i)
  {
    VerticalCounts(cfg, n);
    if i < n - 1 {
      VerticalRoadsAt(cfg, n - 1, i);
    }
  }

  /**
   * Curb j of the horizontal run belongs to road j / 2 and lies half a road
   * plus half a curb from its centre line: on the -z side for even j, on the
   * +z side for odd j.
   */
  lemma {:induction false} HorizontalCurbsFlankRoads(cfg: CityConfig, n: nat, j: nat)
    requires j < 2 * n
    ensures |HorizontalSidewalks(cfg, n)| == 2 * n && |HorizontalRoads(cfg, n)| == n
    ensures HorizontalSidewalks(cfg, n)[j].pos.z
         == HorizontalRoads(cfg, n)[j / 2].pos.z
            + (if j % 2 == 0 then -1.0 else 1.0) * (cfg.roadWidth * 0.5 + 0.5)
    ensures HorizontalSidewalks(cfg, n)[j].pos.x == HorizontalRoads(cfg, n)[j / 2].pos.x
  {
    HorizontalCounts(cfg, n);
    HorizontalRoadsAt(cfg, n, j / 2);
    if j < 2 * (n - 1) {
      HorizontalCurbsFlankRoads(cfg, n - 1, j);
      HorizontalRoadsAt(cfg, n - 1, j / 2);
    } else {
      HorizontalCounts(cfg, n - 1);
      assert j / 2 == n - 1;
      assert HorizontalSidewalks(cfg, n)[j] == HorizontalCurbs(cfg, n - 1)[j - 2 * (n - 1)];
    }
  }

  /** The same for the vertical run, along x. */
  lemma {:induction false} VerticalCurbsFlankRoads(cfg: CityConfig, n: nat, j: nat)
    requires j < 2 * n
    ensures |VerticalSidewalks(cfg, n)| == 2 * n && |VerticalRoads(cfg, n)| == n
    ensures VerticalSidewalks(cfg, n)[j].pos.x
         == VerticalRoads(cfg, n)[j / 2].pos.x
            + (if j % 2 == 0 then -1.0 else 1.0) * (cfg.roadWidth * 0.5 + 0.5)
    ensures VerticalSidewalks(cfg, n)[j].pos.z == VerticalRoads(cfg, n)[j / 2].pos.z
  {
    VerticalCounts(cfg, n);
    VerticalRoadsAt(cfg, n, j / 2);
    if j < 2 * (n - 1) {
      VerticalCurbsFlankRoads(cfg, n - 1, j);
      VerticalRoadsAt(cfg, n - 1, j / 2);
    } else {
      VerticalCounts(cfg, n - 1);
      assert j / 2 == n - 1;
      assert VerticalSidewalks(cfg, n)[j] == VerticalCurbs(cfg, n - 1)[j - 2 * (n - 1)];
    }
  }

  /**
   * The dashes of horizontal road bz: dash i is centred (i + 0.5) * 4 along
   * the road, consecutive dashes are 4 apart, and every dash lies inside
   * [0, cityW + roadWidth].
   */
  lemma HorizontalDashesSpaced(cfg: CityConfig, bz: int)
    ensures var d, len := HorizontalDashes(cfg, bz), CityWidth(cfg) + cfg.roadWidth;
      && (forall i :: 0 <= i < |d| ==>
            && d[i].pos.x == (i as real + 0.5) * DashPitch
            && d[i].pos.z == HorizontalRoad(cfg, bz).pos.z
            && 0.0 <= d[i].pos.x - d[i].size.x * 0.5
            && d[i].pos.x + d[i].size.x * 0.5 <= len)
      && (forall i :: 0 <= i < |d| - 1 ==> d[i + 1].pos.x - d[i].pos.x == DashPitch)
      && (forall i, j :: 0 <= i < j < |d| ==> d[i].pos.x < d[j].pos.x)
  {
    var d, len := HorizontalDashes(cfg, bz), CityWidth(cfg) + cfg.roadWidth;
    forall i | 0 <= i < |d|
      ensures d[i].pos.x + d[i].size.x * 0.5 <= len
    {
      assert (i + 1) as real <= |d| as real;
      assert |d| as real * DashPitch <= len;
    }
  }

  /** The same for the dashes of vertical road bx, along z. */
  lemma VerticalDashesSpaced(cfg: CityConfig, bx: int)
    ensures var d, len := VerticalDashes(cfg, bx), CityHeight(cfg) + cfg.roadWidth;
      && (forall i :: 0 <= i < |d| ==>
            && d[i].pos.z == (i as real + 0.5) * DashPitch
            && d[i].pos.x == VerticalRoad(cfg, bx).pos.x
            && 0.0 <= d[i].pos.z - d[i].size.z * 0.5
            && d[i].pos.z + d[i].size.z * 0.5 <= len)
      && (forall i :: 0 <= i < |d| - 1 ==> d[i + 1].pos.z - d[i].pos.z == DashPitch)
      && (forall i, j :: 0 <= i < j < |d| ==> d[i].pos.z < d[j].pos.z)
  {
    var d, len := VerticalDashes(cfg, bx), CityHeight(cfg) + cfg.roadWidth;
    forall i | 0 <= i < |d|
      ensures d[i].pos.z + d[i].size.z * 0.5 <= len
    {
      assert (i + 1) as real <= |d| as real;
      assert |d| as real * DashPitch <= len;
    }
  }

  /** With a non-negative length, the dash count is the floor of length / 4. */
  lemma DashCountIsFloor(len: real)
    requires 0.0 <= len
    ensures DashCount(len) == (len / DashPitch).Floor
  {
  }

  /** Every road, curb and dash of the horizontal lines has its line's common size. */
  lemma {:induction false} HorizontalSizes(cfg: CityConfig, n: nat)
    ensures forall r :: r in HorizontalRoads(cfg, n) ==>
      r.size == Vector3(CityWidth(cfg) + cfg.roadWidth, 0.1, cfg.roadWidth)
    ensures forall s :: s in HorizontalSidewalks(cfg, n) ==>
      s.size == Vector3(CityWidth(cfg) + cfg.roadWidth, CurbHeight, 1.0)
    ensures forall m :: m in HorizontalMarks(cfg, n) ==> m.size == Vector3(1.5, 0.02, 0.2)
  {
    if n > 0 {
      HorizontalSizes(cfg, n - 1);
    }
  }

  /** Every road, curb and dash of the vertical lines has its line's common size. */
  lemma {:induction false} VerticalSizes(cfg: CityConfig, n: nat)
    ensures forall r :: r in VerticalRoads(cfg, n) ==>
      r.size == Vector3(cfg.roadWidth, 0.1, CityHeight(cfg) + cfg.roadWidth)
    ensures forall s :: s in VerticalSidewalks(cfg, n) ==>
      s.size == Vector3(1.0, CurbHeight, CityHeight(cfg) + cfg.roadWidth)
    ensures forall m :: m in VerticalMarks(cfg, n) ==> m.size == Vector3(0.2, 0.02, 1.5)
  {
    if n > 0 {
      VerticalSizes(cfg, n - 1);
    }
  }

  /**
   * Dashes are placed by their centres within [0, cityW + roadWidth], while
   * the road spans [-roadWidth / 2, cityW + roadWidth / 2] along x; so with
   * a road wider than 2.5 the last dash can run past the road's far end. On
   * a 2 x 2 grid with blockSize 20 and roadWidth 4, dash 10 ends at 42.75
   * and the road at 42.
   */
  lemma DashOverhang()
    ensures var cfg := CityConfig(0, 2, 2, 20.0, 4.0, Origin, Origin, 0.0);
      var road, dashes := HorizontalRoad(cfg, 0), HorizontalDashes(cfg, 0);
      && |dashes| == 11
      && dashes[10].pos.x + dashes[10].size.x * 0.5 == 42.75
      && road.pos.x + road.size.x * 0.5 == 42.0
  {
    var cfg := CityConfig(0, 2, 2, 20.0, 4.0, Origin, Origin, 0.0);
    assert CityWidth(cfg) == 40.0;
    assert Trunc(44.0 / DashPitch) == 11;
  }

  // ---------------------------------------------------------------------
  // The lot grid.

  /** The lot grid is visited block row by block row, block by block, lot row by lot row. */
  lemma LotOrder(cfg: CityConfig, bz: int, bx: int, lz: int, lx: int)
    requires Sized(cfg)
    requires 0 <= bz < cfg.blocksZ && 0 <= bx < cfg.blocksX
    requires 0 <= lz < LotsPerBlock && 0 <= lx < LotsPerBlock
    ensures 0 <= LotIndex(cfg.blocksX, bz, bx, lz, lx) < TotalLots(cfg)
    ensures AllLots(cfg)[LotIndex(cfg.blocksX, bz, bx, lz, lx)] == LotAt(cfg, bz, bx, lz, lx)
  {
    var bX := cfg.blocksX;
    var block, lot := bz * bX + bx, lz * 6 + lx;
    var k := LotIndex(bX, bz, bx, lz, lx);
    assert k == block * 36 + lot;
    assert 0 <= bz * bX by { MulMono(0, bz, bX); }
    MulMono(bz + 1, cfg.blocksZ, bX);
    assert block + 1 <= cfg.blocksZ * bX;
    MulMono(block + 1, cfg.blocksZ * bX, 36);
    assert k < TotalLots(cfg);
    DivModUnique(block, lot, 36);
    DivModUnique(lz, lx, 6);
    DivModUnique(bz, bx, bX);
  }

  /**
   * Row-major lot numbering: the next lot of a row, the lot after the last
   * of a row (the first of the next row), the lot after the last row of a
   * block (the first of the next block) and the lot after the last block of
   * a row of blocks (the first of the next row of blocks).
   */
  lemma LotIndexSteps(blocksX: int, bz: int, bx: int, lz: int, lx: int)
    ensures LotIndex(blocksX, bz, bx, lz, lx + 1) == LotIndex(blocksX, bz, bx, lz, lx) + 1
    ensures LotIndex(blocksX, bz, bx, lz, LotsPerBlock) == LotIndex(blocksX, bz, bx, lz + 1, 0)
    ensures LotIndex(blocksX, bz, bx, LotsPerBlock, 0) == LotIndex(blocksX, bz, bx + 1, 0, 0)
    ensures LotIndex(blocksX, bz, blocksX, 0, 0) == LotIndex(blocksX, bz + 1, 0, 0, 0)
  {
  }

  /**
   * parks and buildings are v0's followed by what the first k lots of the
   * grid yield from generator state s0, and rng is the state after them.
   */
  ghost predicate Placed(cfg: CityConfig, v0: Scene, s0: bv32, k: int,
                         parks: seq<Park>, buildings: seq<Building>, rng: bv32)
  {
    && Sized(cfg) && 0 <= k <= TotalLots(cfg)
    && var y := FillLots(cfg, AllLots(cfg)[..k], s0);
    && parks == v0.parks + y.parks && buildings == v0.buildings + y.buildings && rng == y.rng
  }

  /** Arrays of parkRoom parks and buildingRoom buildings hold v0's and the whole lot stage's. */
  ghost predicate Room(cfg: CityConfig, v0: Scene, s0: bv32, parkRoom: int, buildingRoom: int)
  {
    && Sized(cfg)
    && var y := FillLots(cfg, AllLots(cfg), s0);
    && |v0.parks| + |y.parks| <= parkRoom && |v0.buildings| + |y.buildings| <= buildingRoom
  }

  /**
   * Lot (lz, lx) of block (bz, bx) is lot k of the grid: placing it after
   * the first k keeps Placed one lot further, and arrays with Room hold its
   * park or building.
   */
  lemma PlacedStep(cfg: CityConfig, v0: Scene, s0: bv32, k: int, P: seq<Park>, B: seq<Building>, rng: bv32,
                   parkRoom: int, buildingRoom: int, bz: int, bx: int, lz: int, lx: int, lot: Lot)
    requires Placed(cfg, v0, s0, k, P, B, rng) && Room(cfg, v0, s0, parkRoom, buildingRoom)
    requires 0 <= bz < cfg.blocksZ && 0 <= bx < cfg.blocksX
    requires 0 <= lz < LotsPerBlock && 0 <= lx < LotsPerBlock
    requires k == LotIndex(cfg.blocksX, bz, bx, lz, lx) && lot == LotAt(cfg, bz, bx, lz, lx)
    ensures PlaceLot(cfg, lot, rng).outcome.ParkLot? ==> |P| < parkRoom
    ensures PlaceLot(cfg, lot, rng).outcome.BuildingLot? ==> |B| < buildingRoom
    ensures var y := Absorb(cfg, Yield(P, B, rng), lot);
      Placed(cfg, v0, s0, k + 1, y.parks, y.buildings, y.rng)
  {
    LotOrder(cfg, bz, bx, lz, lx);
    var all := AllLots(cfg);
    FillLotsPrefix(cfg, all, k + 1, s0);
    assert all[..k + 1][..k] == all[..k];
    var y := FillLots(cfg, all[..k], s0);
    AbsorbAfter(cfg, v0.parks, v0.buildings, y, lot);
  }

  /** The first lot past the last row of blocks is numbered TotalLots. */
  lemma LotIndexEnd(cfg: CityConfig)
    ensures LotIndex(cfg.blocksX, cfg.blocksZ, 0, 0, 0) == TotalLots(cfg)
  {
    assert cfg.blocksZ * cfg.blocksX == cfg.blocksX * cfg.blocksZ;
  }

  /** Consecutive boundaries of the lot grid are a sixth of the interval apart. */
  lemma LotEdgeStep(lo: real, hi: real, i: int)
    ensures LotEdge(lo, hi, i + 1) - LotEdge(lo, hi, i) == (hi - lo) / 6.0
  {
    var t0, t1 := i as real / 6.0, (i + 1) as real / 6.0;
    assert t1 - t0 == 1.0 / 6.0;
    assert (hi - lo) * t1 - (hi - lo) * t0 == (hi - lo) * (t1 - t0);
  }

  /** The interior of every block is blockSize - roadWidth - 2 long on each axis. */
  lemma BlockInterior(cfg: CityConfig, b: int)
    ensures BlockMax(cfg, b) - BlockMin(cfg, b) == cfg.blockSize - cfg.roadWidth - 2.0
  {
    assert (b + 1) as real * cfg.blockSize == b as real * cfg.blockSize + cfg.blockSize;
  }

  /** The effective footprint of every lot: 0.85 of a sixth of the block interior. */
  function Footprint(cfg: CityConfig): real
  {
    (cfg.blockSize - cfg.roadWidth - 2.0) / 6.0 * Setback
  }

  /** A lot has room for a park or building only when the block is wider than the road plus the two 1-unit margins. */
  lemma FootprintPositive(cfg: CityConfig)
    ensures Footprint(cfg) > 0.0 <==> cfg.blockSize > cfg.roadWidth + 2.0
  {
  }

  /**
   * The 6 x 6 lots tile the block interior [BlockMin, BlockMax] on both axes:
   * the first lot starts at BlockMin, the last ends at BlockMax, neighbours
   * share a boundary, every lot is a sixth of the interior, and its effective
   * footprint is 0.85 of that.
   */
  lemma LotsTileBlock(cfg: CityConfig, bz: int, bx: int, lz: int, lx: int)
    ensures var lot := LotAt(cfg, bz, bx, lz, lx);
      && (lx == 0 ==> lot.x0 == BlockMin(cfg, bx))
      && (lx == LotsPerBlock - 1 ==> lot.x1 == BlockMax(cfg, bx))
      && (lz == 0 ==> lot.z0 == BlockMin(cfg, bz))
      && (lz == LotsPerBlock - 1 ==> lot.z1 == BlockMax(cfg, bz))
      && lot.x1 == LotAt(cfg, bz, bx, lz, lx + 1).x0
      && lot.z1 == LotAt(cfg, bz, bx, lz + 1, lx).z0
      && lot.x1 - lot.x0 == (BlockMax(cfg, bx) - BlockMin(cfg, bx)) / 6.0
      && lot.z1 - lot.z0 == (BlockMax(cfg, bz) - BlockMin(cfg, bz)) / 6.0
      && lot.Width() == Footprint(cfg) && lot.Depth() == Footprint(cfg)
  {
    LotEdgeStep(BlockMin(cfg, bx), BlockMax(cfg, bx), lx);
    LotEdgeStep(BlockMin(cfg, bz), BlockMax(cfg, bz), lz);
    BlockInterior(cfg, bx);
    BlockInterior(cfg, bz);
    assert 0 as real / 6.0 == 0.0;
    assert (LotsPerBlock - 1 + 1) as real / 6.0 == 1.0;
  }

  /** Every lot of the city has the same effective footprint. */
  lemma AllLotsFootprint(cfg: CityConfig)
    requires Sized(cfg)
    ensures forall lot :: lot in AllLots(cfg) ==>
      lot.Width() == Footprint(cfg) && lot.Depth() == Footprint(cfg)
  {
    forall lot | lot in AllLots(cfg)
      ensures lot.Width() == Footprint(cfg) && lot.Depth() == Footprint(cfg)
    {
      var k :| 0 <= k < |AllLots(cfg)| && AllLots(cfg)[k] == lot;
      var block, l := k / 36, k % 36;
      LotsTileBlock(cfg, block / cfg.blocksX, block % cfg.blocksX, l / 6, l % 6);
    }
  }

  // ---------------------------------------------------------------------
  // The lot stage.

  lemma FillLotsSnoc(cfg: CityConfig, lots: seq<Lot>, lot: Lot, s: bv32)
    ensures FillLots(cfg, lots + [lot], s) == Absorb(cfg, FillLots(cfg, lots, s), lot)
  {
    assert (lots + [lot])[..|lots|] == lots;
  }

  /** What a prefix of the lots yields is a prefix of what all of them yield. */
  lemma {:induction false} FillLotsPrefix(cfg: CityConfig, lots: seq<Lot>, k: nat, s: bv32)
    requires k <= |lots|
    ensures FillLots(cfg, lots[..k], s).parks <= FillLots(cfg, lots, s).parks
    ensures FillLots(cfg, lots[..k], s).buildings <= FillLots(cfg, lots, s).buildings
    decreases |lots| - k
  {
    if k < |lots| {
      var init := lots[..|lots| - 1];
      assert init[..k] == lots[..k];
      FillLotsPrefix(cfg, init, k, s);
    } else {
      assert lots[..k] == lots;
    }
  }

  /** Absorbing a lot after earlier entries P and B appends its outcome after them. */
  lemma AbsorbAfter(cfg: CityConfig, P: seq<Park>, B: seq<Building>, y: Yield, lot: Lot)
    ensures var y' := Absorb(cfg, y, lot);
      Absorb(cfg, Yield(P + y.parks, B + y.buildings, y.rng), lot)
        == Yield(P + y'.parks, B + y'.buildings, y'.rng)
  {
    var pl := PlaceLot(cfg, lot, y.rng);
    match pl.outcome
    case ParkLot(p) =>
      assert P + y.parks + [p] == P + (y.parks + [p]);
    case BuildingLot(b) =>
      assert B + y.buildings + [b] == B + (y.buildings + [b]);
  }

  /** A park lot consumes one draw and a building lot five. */
  lemma {:induction false} DrawsConsumed(cfg: CityConfig, lots: seq<Lot>, s: bv32)
    ensures var y := FillLots(cfg, lots, s);
      y.rng == Iter(s, |y.parks| + 5 * |y.buildings|)
    decreases |lots|
  {
    if lots != [] {
      var prev := FillLots(cfg, lots[..|lots| - 1], s);
      DrawsConsumed(cfg, lots[..|lots| - 1], s);
      var pl := PlaceLot(cfg, lots[|lots| - 1], prev.rng);
      IterAdd(s, |prev.parks| + 5 * |prev.buildings|, if pl.outcome.ParkLot? then 1 else 5);
    }
  }

  /** On lots of one footprint, every building is clamped to it and every park fills it. */
  lemma {:induction false} FillLotsShapes(cfg: CityConfig, lots: seq<Lot>, s: bv32, w: real, d: real)
    requires forall lot :: lot in lots ==> lot.Width() == w && lot.Depth() == d
    ensures forall b :: b in FillLots(cfg, lots, s).buildings ==> WithinFootprint(cfg, b, w, d)
    ensures forall p :: p in FillLots(cfg, lots, s).parks ==>
      p.size == Vector3(w, 0.12, d) && p.pos.y == 0.06
    decreases |lots|
  {
    if lots != [] {
      var init, last := lots[..|lots| - 1], lots[|lots| - 1];
      assert forall lot :: lot in init ==> lot in lots;
      FillLotsShapes(cfg, init, s, w, d);
      assert last in lots;
    }
  }

  /** With parkChance at most 0 no draw falls below it: every lot is a building. */
  lemma {:induction false} NoParksWithoutChance(cfg: CityConfig, lots: seq<Lot>, s: bv32)
    requires cfg.parkChance <= 0.0
    ensures FillLots(cfg, lots, s).parks == []
    ensures |FillLots(cfg, lots, s).buildings| == |lots|
    decreases |lots|
  {
    if lots != [] {
      NoParksWithoutChance(cfg, lots[..|lots| - 1], s);
    }
  }

  /** When each of the first |lots| draws falls below parkChance, every lot is a park. */
  lemma {:induction false} AllParksWhenDrawsBelowChance(cfg: CityConfig, lots: seq<Lot>, s: bv32)
    requires forall k :: 1 <= k <= |lots| ==> Unit(Iter(s, k)) < cfg.parkChance
    ensures FillLots(cfg, lots, s).buildings == []
    ensures |FillLots(cfg, lots, s).parks| == |lots|
    ensures FillLots(cfg, lots, s).rng == Iter(s, |lots|)
    decreases |lots|
  {
    if lots != [] {
      AllParksWhenDrawsBelowChance(cfg, lots[..|lots| - 1], s);
      IterAdd(s, |lots| - 1, 1);
    }
  }

  /** parkChance = 1 makes a lot a park unless its draw is exactly 1.0, the all-ones state. */
  lemma ParkChanceOne(cfg: CityConfig, lots: seq<Lot>, s: bv32)
    requires cfg.parkChance == 1.0
    requires forall k :: 1 <= k <= |lots| ==> Iter(s, k) != UintMax
    ensures |FillLots(cfg, lots, s).parks| == |lots|
  {
    AllParksWhenDrawsBelowChance(cfg, lots, s);
  }

  // ---------------------------------------------------------------------
  // The generated city.

  /** Exact sizes of all five collections. */
  lemma SceneCounts(cfg: CityConfig)
    requires Sized(cfg)
    ensures var sc := Generate(cfg);
      && |sc.roads| == (cfg.blocksZ + 1) + (cfg.blocksX + 1)
      && |sc.sidewalks| == 2 * |sc.roads|
      && |sc.marks| == MarkTotal(cfg)
      && |sc.parks| + |sc.buildings| == cfg.blocksX * cfg.blocksZ * 36
  {
    RoadStageCounts(cfg);
  }

  /** The lot stage leaves the generator |parks| + 5 * |buildings| steps past the initial state. */
  lemma LotStageDraws(cfg: CityConfig)
    requires Sized(cfg)
    ensures var y := LotStage(cfg);
      y.rng == Iter(InitialState(cfg.seed), |y.parks| + 5 * |y.buildings|)
  {
    DrawsConsumed(cfg, AllLots(cfg), InitialState(cfg.seed));
  }

  /**
   * The colour draw reads the all-ones state as exactly 1, so the colour tag
   * reaches 1000, the top of its range; every other state gives less.
   */
  lemma TopColourTag(cfg: CityConfig, lot: Lot, dx: real, dz: real, dy: real, c: bv32)
    requires 0.0 <= dx <= 1.0 && 0.0 <= dz <= 1.0 && 0.0 <= dy <= 1.0
    ensures LotBuilding(cfg, lot, dx, dz, dy, Unit(c)).colorVar == 1000 <==> c == UintMax
  {
    var p := Unit(c);
    if c != UintMax {
      assert p < 1.0;
      assert p * 1000.0 < 1000.0;
    }
  }

  /** Every building fits the common lot footprint, and every park fills it. */
  lemma SceneShapes(cfg: CityConfig)
    requires Sized(cfg)
    ensures forall b :: b in Generate(cfg).buildings ==>
      WithinFootprint(cfg, b, Footprint(cfg), Footprint(cfg))
    ensures forall p :: p in Generate(cfg).parks ==>
      p.size == Vector3(Footprint(cfg), 0.12, Footprint(cfg)) && p.pos.y == 0.06
  {
    AllLotsFootprint(cfg);
    FillLotsShapes(cfg, AllLots(cfg), InitialState(cfg.seed), Footprint(cfg), Footprint(cfg));
  }

  /**
   * Every dash has positive extents, and with a positive road width and
   * block size so does every road and curb.
   */
  lemma RoadStagePositiveExtents(cfg: CityConfig)
    requires Sized(cfg)
    ensures cfg.roadWidth > 0.0 && cfg.blockSize >= 0.0 ==> forall r :: r in Roads(cfg) ==>
      r.size.x > 0.0 && r.size.y > 0.0 && r.size.z > 0.0
    ensures cfg.roadWidth > 0.0 && cfg.blockSize >= 0.0 ==> forall s :: s in Sidewalks(cfg) ==>
      s.size.x > 0.0 && s.size.y > 0.0 && s.size.z > 0.0
    ensures forall m :: m in Marks(cfg) ==>
      m.size.x > 0.0 && m.size.y > 0.0 && m.size.z > 0.0
  {
    HorizontalSizes(cfg, cfg.blocksZ + 1);
    VerticalSizes(cfg, cfg.blocksX + 1);
    if cfg.roadWidth > 0.0 && cfg.blockSize >= 0.0 {
      ProductNonNegative(cfg.blocksX as real, cfg.blockSize);
      ProductNonNegative(cfg.blocksZ as real, cfg.blockSize);
    }
  }

  /**
   * With room in the lots and positive minimum building extents, every
   * building and park has positive extents on all three axes; so does
   * every dash, and every road and curb once the road width is positive.
   */
  lemma ScenePositiveExtents(cfg: CityConfig)
    requires Sized(cfg)
    requires cfg.blockSize > cfg.roadWidth + 2.0
    requires 0.0 < cfg.minBuilding.x <= cfg.maxBuilding.x
    requires 0.0 < cfg.minBuilding.y <= cfg.maxBuilding.y
    requires 0.0 < cfg.minBuilding.z <= cfg.maxBuilding.z
    ensures forall b :: b in Generate(cfg).buildings ==>
      b.size.x > 0.0 && b.size.y > 0.0 && b.size.z > 0.0
    ensures forall p :: p in Generate(cfg).parks ==>
      p.size.x > 0.0 && p.size.y > 0.0 && p.size.z > 0.0
    ensures cfg.roadWidth > 0.0 ==> forall r :: r in Generate(cfg).roads ==>
      r.size.x > 0.0 && r.size.y > 0.0 && r.size.z > 0.0
    ensures cfg.roadWidth > 0.0 ==> forall s :: s in Generate(cfg).sidewalks ==>
      s.size.x > 0.0 && s.size.y > 0.0 && s.size.z > 0.0
    ensures forall m :: m in Generate(cfg).marks ==>
      m.size.x > 0.0 && m.size.y > 0.0 && m.size.z > 0.0
  {
    SceneShapes(cfg);
    FootprintPositive(cfg);
    RoadStagePositiveExtents(cfg);
  }

  // ---------------------------------------------------------------------
  // The seed.

  /** Road line bz along x: its road and curbs do not depend on the seed. */
  lemma HorizontalLineIgnoresSeed(cfg: CityConfig, seed: bv32, bz: int)
    ensures HorizontalRoad(cfg.(seed := seed), bz) == HorizontalRoad(cfg, bz)
    ensures HorizontalCurbs(cfg.(seed := seed), bz) == HorizontalCurbs(cfg, bz)
  {
    assert CityWidth(cfg.(seed := seed)) == CityWidth(cfg);
  }

  /** The dashes of road line bz along x do not depend on the seed. */
  lemma HorizontalDashesIgnoreSeed(cfg: CityConfig, seed: bv32, bz: int)
    ensures HorizontalDashes(cfg.(seed := seed), bz) == HorizontalDashes(cfg, bz)
  {
    var c := cfg.(seed := seed);
    assert c.blocksX == cfg.blocksX && c.blocksZ == cfg.blocksZ;
    assert c.blockSize == cfg.blockSize && c.roadWidth == cfg.roadWidth;
    var n := DashCount(CityWidth(cfg) + cfg.roadWidth);
    assert DashCount(CityWidth(c) + c.roadWidth) == n;
    var d0, d1 := HorizontalDashes(c, bz), HorizontalDashes(cfg, bz);
    forall i | 0 <= i < n
      ensures d0[i] == d1[i]
    {
      assert d0[i] == HorizontalMark(c, bz, i) && d1[i] == HorizontalMark(cfg, bz, i);
    }
  }

  /** Road line bx along z: its road and curbs do not depend on the seed. */
  lemma VerticalLineIgnoresSeed(cfg: CityConfig, seed: bv32, bx: int)
    ensures VerticalRoad(cfg.(seed := seed), bx) == VerticalRoad(cfg, bx)
    ensures VerticalCurbs(cfg.(seed := seed), bx) == VerticalCurbs(cfg, bx)
  {
    assert CityHeight(cfg.(seed := seed)) == CityHeight(cfg);
  }

  /** The dashes of road line bx along z do not depend on the seed. */
  lemma VerticalDashesIgnoreSeed(cfg: CityConfig, seed: bv32, bx: int)
    ensures VerticalDashes(cfg.(seed := seed), bx) == VerticalDashes(cfg, bx)
  {
    var c := cfg.(seed := seed);
    assert c.blocksX == cfg.blocksX && c.blocksZ == cfg.blocksZ;
    assert c.blockSize == cfg.blockSize && c.roadWidth == cfg.roadWidth;
    var n := DashCount(CityHeight(cfg) + cfg.roadWidth);
    assert DashCount(CityHeight(c) + c.roadWidth) == n;
    var d0, d1 := VerticalDashes(c, bx), VerticalDashes(cfg, bx);
    forall i | 0 <= i < n
      ensures d0[i] == d1[i]
    {
      assert d0[i] == VerticalMark(c, bx, i) && d1[i] == VerticalMark(cfg, bx, i);
    }
  }

  lemma {:induction false} HorizontalIgnoresSeed(cfg: CityConfig, seed: bv32, n: nat)
    ensures HorizontalRoads(cfg.(seed := seed), n) == HorizontalRoads(cfg, n)
    ensures HorizontalSidewalks(cfg.(seed := seed), n) == HorizontalSidewalks(cfg, n)
    ensures HorizontalMarks(cfg.(seed := seed), n) == HorizontalMarks(cfg, n)
  {
    if n > 0 {
      HorizontalIgnoresSeed(cfg, seed, n - 1);
      HorizontalLineIgnoresSeed(cfg, seed, n - 1);
      HorizontalDashesIgnoreSeed(cfg, seed, n - 1);
    }
  }

  lemma {:induction false} VerticalIgnoresSeed(cfg: CityConfig, seed: bv32, n: nat)
    ensures VerticalRoads(cfg.(seed := seed), n) == VerticalRoads(cfg, n)
    ensures VerticalSidewalks(cfg.(seed := seed), n) == VerticalSidewalks(cfg, n)
    ensures VerticalMarks(cfg.(seed := seed), n) == VerticalMarks(cfg, n)
  {
    if n > 0 {
      VerticalIgnoresSeed(cfg, seed, n - 1);
      VerticalLineIgnoresSeed(cfg, seed, n - 1);
      VerticalDashesIgnoreSeed(cfg, seed, n - 1);
    }
  }

  /** The road stage draws nothing from the generator: its output does not depend on the seed. */
  lemma RoadStageIgnoresSeed(cfg: CityConfig, seed: bv32)
    requires Sized(cfg)
    ensures Roads(cfg.(seed := seed)) == Roads(cfg)
    ensures Sidewalks(cfg.(seed := seed)) == Sidewalks(cfg)
    ensures Marks(cfg.(seed := seed)) == Marks(cfg)
  {
    HorizontalIgnoresSeed(cfg, seed, cfg.blocksZ + 1);
    VerticalIgnoresSeed(cfg, seed, cfg.blocksX + 1);
  }

  /** Given the same generator state, the lot stage does not look at the seed field. */
  lemma {:induction false} FillLotsIgnoresSeed(cfg: CityConfig, seed: bv32, lots: seq<Lot>, s: bv32)
    ensures FillLots(cfg.(seed := seed), lots, s) == FillLots(cfg, lots, s)
    decreases |lots|
  {
    if lots != [] {
      FillLotsIgnoresSeed(cfg, seed, lots[..|lots| - 1], s);
    }
  }

  lemma LotAtIgnoresSeed(cfg: CityConfig, seed: bv32, bz: int, bx: int, lz: int, lx: int)
    ensures LotAt(cfg.(seed := seed), bz, bx, lz, lx) == LotAt(cfg, bz, bx, lz, lx)
  {
    var c := cfg.(seed := seed);
    assert BlockMin(c, bx) == BlockMin(cfg, bx) && BlockMax(c, bx) == BlockMax(cfg, bx);
    assert BlockMin(c, bz) == BlockMin(cfg, bz) && BlockMax(c, bz) == BlockMax(cfg, bz);
  }

  /** The lot grid does not depend on the seed. */
  lemma AllLotsIgnoresSeed(cfg: CityConfig, seed: bv32)
    requires Sized(cfg)
    ensures AllLots(cfg.(seed := seed)) == AllLots(cfg)
  {
    var c := cfg.(seed := seed);
    if cfg.blocksX != 0 {
      var l0, l1 := AllLots(c), AllLots(cfg);
      assert |l0| == |l1| == TotalLots(cfg);
      forall k | 0 <= k < |l0|
        ensures l0[k] == l1[k]
      {
        var block, lot := k / 36, k % 36;
        LotAtIgnoresSeed(cfg, seed, block / cfg.blocksX, block % cfg.blocksX, lot / 6, lot % 6);
      }
    }
  }

  /** Seed 0 stands for the default seed: both generate the same five collections. */
  lemma ZeroSeedIsDefaultSeed(cfg: CityConfig)
    requires Sized(cfg)
    ensures var c0, c1 := cfg.(seed := 0), cfg.(seed := DefaultSeed);
      Generate(c0) == Generate(c1).(cfg := c0)
  {
    var c1 := cfg.(seed := DefaultSeed);
    var c0 := c1.(seed := 0);
    assert c0 == cfg.(seed := 0);
    RoadStageIgnoresSeed(c1, 0);
    AllLotsIgnoresSeed(c1, 0);
    FillLotsIgnoresSeed(c1, 0, AllLots(c1), DefaultSeed);
    assert LotStage(c0) == LotStage(c1);
  }

  // ---------------------------------------------------------------------
  // The allocation sizes.

  /**
   * Buildings always fit their array. Roads and sidewalks fit theirs exactly
   * when the grid has at least one block column or row.
   */
  lemma FixedCapacities(cfg: CityConfig)
    requires Sized(cfg)
    ensures |Generate(cfg).buildings| <= BuildingCapacity(cfg)
    ensures |Generate(cfg).roads| <= RoadCapacity(cfg) <==> cfg.blocksX + cfg.blocksZ >= 1
    ensures |Generate(cfg).sidewalks| <= SidewalkCapacity(cfg) <==> cfg.blocksX + cfg.blocksZ >= 1
  {
    RoadStageCounts(cfg);
  }

  /**
   * The parks array holds totalLots / 4 + 8 entries, but with draws below
   * parkChance every one of the totalLots lots is a park: it overflows.
   */
  lemma ParkCapacityOverflow(cfg: CityConfig)
    requires Sized(cfg) && cfg.blocksX >= 1 && cfg.blocksZ >= 1
    requires forall k :: 1 <= k <= TotalLots(cfg) ==>
      Unit(Iter(InitialState(cfg.seed), k)) < cfg.parkChance
    ensures |Generate(cfg).parks| == TotalLots(cfg) > ParkCapacity(cfg)
  {
    AllParksWhenDrawsBelowChance(cfg, AllLots(cfg), InitialState(cfg.seed));
    MulMono(1, cfg.blocksX, cfg.blocksZ);
  }

  /** A parkChance above 1 makes every lot a park, so the parks array overflows. */
  lemma ParkChanceAboveOneOverflows(cfg: CityConfig)
    requires Sized(cfg) && cfg.blocksX >= 1 && cfg.blocksZ >= 1
    requires cfg.parkChance > 1.0
    ensures |Generate(cfg).parks| > ParkCapacity(cfg)
  {
    ParkCapacityOverflow(cfg);
  }

  /** A single 1000-unit block with 4-unit roads needs 1004 marks but gets room for 400. */
  lemma MarkCapacityOverflow()
    ensures var cfg := CityConfig(1, 1, 1, 1000.0, 4.0, Vector3(3.0, 6.0, 3.0), Vector3(8.0, 20.0, 8.0), 0.2);
      MarkTotal(cfg) == 1004 && MarkCapacity(cfg) == 400
  {
    var cfg := CityConfig(1, 1, 1, 1000.0, 4.0, Vector3(3.0, 6.0, 3.0), Vector3(8.0, 20.0, 8.0), 0.2);
    assert CityWidth(cfg) + cfg.roadWidth == 1004.0;
    assert Trunc(1004.0 / DashPitch) == 251;
  }

  /**
   * A 2 x 2 grid of 20-unit blocks with 4-unit roads, buildings between
   * (3, 6, 3) and (8, 20, 8) and no parks: 6 roads, 12 sidewalks, 144
   * buildings, each clamped to the 0.85 * 14 / 6 footprint on both axes.
   */
  lemma TwoByTwoExample()
    ensures var cfg := CityConfig(42, 2, 2, 20.0, 4.0, Vector3(3.0, 6.0, 3.0), Vector3(8.0, 20.0, 8.0), 0.0);
      var sc := Generate(cfg);
      && |sc.roads| == 6 && |sc.sidewalks| == 12
      && |sc.parks| == 0 && |sc.buildings| == 144
      && forall b :: b in sc.buildings ==>
           b.size.x == 0.85 * 14.0 / 6.0 && b.size.z == 0.85 * 14.0 / 6.0 && 6.0 <= b.size.y <= 20.0
  {
    var cfg := CityConfig(42, 2, 2, 20.0, 4.0, Vector3(3.0, 6.0, 3.0), Vector3(8.0, 20.0, 8.0), 0.0);
    SceneCounts(cfg);
    NoParksWithoutChance(cfg, AllLots(cfg), InitialState(cfg.seed));
    SceneShapes(cfg);
  }
}
