/** HexBoardGenerator: the tile dictionary as a field updated in place by the grid loop, the
    water and resource stages and the smoothing passes, each method proved against the
    functions of the Water, Quota and Smoothing modules. */
module Generator {
  import opened Resources
  import opened Seqs
  import opened Hex
  import opened Randomness
  import opened Water
  import opened Quota
  import opened Smoothing

  /** The dictionary right after the grid loop: every hexagon cell, with the default type. */
  function GridTiles(radius: int): (tiles: TileMap)
    ensures forall c :: c in tiles <==> InHexagon(c, radius)
  {
    GridOrderIsHexagon(radius);
    map c | c in GridOrder(radius) :: DefaultType
  }

  /** The tunables Generate runs with. */
  datatype Config = Config(radius: int, desertFraction: Fraction, waterFraction: Fraction,
                           waterClusterFactor: Fraction, edgeWaterDepth: int, smoothingPasses: int)

  /** waterFraction within [0, 1], as its inspector range declares: above 1 the water loop
      could run past the end of the land list. */
  predicate WaterFractionInRange(cfg: Config)
  {
    cfg.waterFraction.num <= cfg.waterFraction.den
  }

  /** The dictionary after AssignWater, from the grid. */
  function WaterStage(cfg: Config, stream: nat -> nat, k: nat): (TileMap, nat)
    requires WaterFractionInRange(cfg)
  {
    GridOrderIsHexagon(cfg.radius);
    AssignWaterSpec(GridTiles(cfg.radius), GridOrder(cfg.radius), cfg.radius, cfg.edgeWaterDepth,
                    cfg.waterFraction, cfg.waterClusterFactor, stream, k)
  }

  /** The dictionary after AssignResources, from the water stage. */
  function ResourceStage(cfg: Config, stream: nat -> nat, k: nat): (TileMap, nat)
    requires WaterFractionInRange(cfg)
  {
    var water := WaterStage(cfg, stream, k);
    GridOrderIsHexagon(cfg.radius);
    AssignWaterEffect(GridTiles(cfg.radius), GridOrder(cfg.radius), cfg.radius, cfg.edgeWaterDepth,
                      cfg.waterFraction, cfg.waterClusterFactor, stream, k);
    AssignResourcesSpec(water.0, GridOrder(cfg.radius), cfg.desertFraction, stream, water.1)
  }

  /** Generate as a whole, from draw k of the stream: two draws for the noise offset, the grid,
      AssignWater, AssignResources and the smoothing passes. Returns the final dictionary and the
      draw count afterwards. */
  function GenerateSpec(cfg: Config, stream: nat -> nat, k: nat): (TileMap, nat)
    requires WaterFractionInRange(cfg)
  {
    var resources := ResourceStage(cfg, stream, k + 2);
    (SmoothTimes(resources.0, cfg.smoothingPasses), resources.1)
  }

  /** Rounding zero times anything gives zero. */
  lemma RoundZero(n: nat, f: Fraction)
    requires f.num == 0
    ensures RoundToInt(n, f) == 0
  {
    var c := RoundToInt(n, f);
    RoundToIntIsNearest(n, f);
    if c > 0 {
      MulMonotone(1, c, f.den);
    }
  }

  /** After AssignWater the stages keep the key set, and AssignResources and smoothing keep the
      Water tiles exactly: the final Water tiles are those AssignWater left. */
  lemma LaterStagesKeepWater(cfg: Config, stream: nat -> nat, k: nat)
    requires WaterFractionInRange(cfg)
    ensures GenerateSpec(cfg, stream, k).0.Keys == GridTiles(cfg.radius).Keys
    ensures WaterStage(cfg, stream, k + 2).0.Keys == GridTiles(cfg.radius).Keys
    ensures TilesOf(GenerateSpec(cfg, stream, k).0, Water) == TilesOf(WaterStage(cfg, stream, k + 2).0, Water)
  {
    var order := GridOrder(cfg.radius);
    var grid := GridTiles(cfg.radius);
    GridOrderIsHexagon(cfg.radius);
    var water := WaterStage(cfg, stream, k + 2);
    AssignWaterEffect(grid, order, cfg.radius, cfg.edgeWaterDepth, cfg.waterFraction,
                      cfg.waterClusterFactor, stream, k + 2);
    var resources := ResourceStage(cfg, stream, k + 2);
    AssignResourcesEffect(water.0, order, cfg.desertFraction, stream, water.1);
    SmoothTimesKeepsWater(resources.0, cfg.smoothingPasses);
  }

  /** A generated board's keys are exactly the hexagon's 3·radius² + 3·radius + 1 cells. */
  lemma GeneratedBoardIsHexagon(cfg: Config, stream: nat -> nat, k: nat)
    requires WaterFractionInRange(cfg)
    ensures var board := GenerateSpec(cfg, stream, k).0;
      && (forall c :: c in board <==> InHexagon(c, cfg.radius))
      && |board| == HexCount(cfg.radius)
  {
    var board := GenerateSpec(cfg, stream, k).0;
    LaterStagesKeepWater(cfg, stream, k);
    GridOrderIsHexagon(cfg.radius);
    var order := GridOrder(cfg.radius);
    assert board.Keys == Elems(order);
    DistinctCard(order);
  }

  /** Every tile of the border band of a generated board is Water, and a band at least as deep
      as the radius floods the whole board. */
  lemma GeneratedBorderIsWater(cfg: Config, stream: nat -> nat, k: nat)
    requires WaterFractionInRange(cfg)
    ensures var board := GenerateSpec(cfg, stream, k).0;
      && (forall c :: c in board && InBorderBand(c, cfg.radius, cfg.edgeWaterDepth) ==> board[c] == Water)
      && (cfg.edgeWaterDepth > cfg.radius ==> forall c :: c in board ==> board[c] == Water)
  {
    var board := GenerateSpec(cfg, stream, k).0;
    var water := WaterStage(cfg, stream, k + 2).0;
    var order := GridOrder(cfg.radius);
    var grid := GridTiles(cfg.radius);
    GridOrderIsHexagon(cfg.radius);
    LaterStagesKeepWater(cfg, stream, k);
    AssignWaterEffect(grid, order, cfg.radius, cfg.edgeWaterDepth, cfg.waterFraction,
                      cfg.waterClusterFactor, stream, k + 2);
    forall c | c in board && InBorderBand(c, cfg.radius, cfg.edgeWaterDepth) ensures board[c] == Water {
      assert c in TilesOf(water, Water);
    }
    if cfg.edgeWaterDepth > cfg.radius {
      forall c | c in board ensures board[c] == Water {
        if cfg.radius >= 0 {
          assert Abs(c.q) >= cfg.radius - cfg.edgeWaterDepth + 1;
        }
        assert InBorderBand(c, cfg.radius, cfg.edgeWaterDepth);
      }
    }
  }

  /** With a water fraction of zero, the Water tiles of a generated board are exactly the band. */
  lemma DryBoardWaterIsBand(cfg: Config, stream: nat -> nat, k: nat)
    requires WaterFractionInRange(cfg) && cfg.waterFraction.num == 0
    ensures var board := GenerateSpec(cfg, stream, k).0;
      forall c :: c in board ==> (board[c] == Water <==> InBorderBand(c, cfg.radius, cfg.edgeWaterDepth))
  {
    var board := GenerateSpec(cfg, stream, k).0;
    var water := WaterStage(cfg, stream, k + 2).0;
    LaterStagesKeepWater(cfg, stream, k);
    GeneratedBorderIsWater(cfg, stream, k);
    forall c | c in board && board[c] == Water ensures InBorderBand(c, cfg.radius, cfg.edgeWaterDepth) {
      assert c in TilesOf(water, Water);
      NoNewWaterWhenDry(GridTiles(cfg.radius), GridOrder(cfg.radius), cfg, stream, k + 2, c);
    }
  }

  /** With no water to place, AssignWater changes only the band. */
  lemma NoNewWaterWhenDry(grid: TileMap, order: seq<Axial>, cfg: Config, stream: nat -> nat, k: nat,
                          c: Axial)
    requires grid == GridTiles(cfg.radius) && order == GridOrder(cfg.radius)
    requires WaterFractionInRange(cfg) && cfg.waterFraction.num == 0
    requires c in grid && WaterStage(cfg, stream, k).0[c] == Water
    ensures InBorderBand(c, cfg.radius, cfg.edgeWaterDepth)
  {
    GridOrderIsHexagon(cfg.radius);
    var land := LandOf(grid, order, cfg.radius, cfg.edgeWaterDepth);
    var forced := ForceBorder(grid, cfg.radius, cfg.edgeWaterDepth);
    RoundZero(|land|, cfg.waterFraction);
    var st := WaterState(forced, [], k + |land|);
    var shuffled := ShuffleFrom(land, 0, stream, k);
    assert WaterStage(cfg, stream, k).0 == PlaceWaterFrom(st, shuffled, 0, 0, cfg.waterClusterFactor, stream).tiles;
    ForceBorderEffect(grid, order, cfg.radius, cfg.edgeWaterDepth);
  }

  /** The generator: the tunables, the random generator it draws from, and the tile dictionary
      with its enumeration order (insertion order: the dictionary is only ever cleared and added
      to). */
  class HexBoardGenerator {
    const cfg: Config
    const rng: Random
    var tiles: TileMap
    var order: seq<Axial>

    /** The enumeration order lists every key once. */
    ghost predicate Valid()
      reads this
    {
      NoDups(order) && forall c :: c in order <==> c in tiles
    }

    constructor (cfg: Config, rng: Random)
      ensures this.cfg == cfg && this.rng == rng && tiles == map[] && order == []
      ensures Valid()
    {
      this.cfg := cfg;
      this.rng := rng;
      tiles := map[];
      order := [];
    }

    /** The grid loop over an emptied dictionary: rows q = -radius .. radius, and in row q the
        r from RowStart to RowEnd, each cell added once with the default type. */
    method BuildGrid()
      modifies this
      ensures order == GridOrder(cfg.radius) && tiles == GridTiles(cfg.radius)
      ensures Valid()
    {
      tiles, order := GridLoop(cfg.radius);
    }

    /** The first loop of AssignWater: band tiles become Water, the others not already Water are
        collected as land, in dictionary order. */
    method ForceEdgeWater() returns (land: seq<Axial>)
      requires Valid()
      modifies this
      ensures order == old(order) && Valid()
      ensures tiles == ForceBorder(old(tiles), cfg.radius, cfg.edgeWaterDepth)
      ensures land == LandOf(old(tiles), order, cfg.radius, cfg.edgeWaterDepth)
    {
      var forced;
      forced, land := BorderLoop(tiles, order, cfg.radius, cfg.edgeWaterDepth);
      tiles := forced;
    }

    /** The neighbours list of the cluster branch: for each placed water tile in turn, its
        in-map non-Water neighbours in direction order, each listed once. */
    method ClusterCandidates(waterTiles: seq<Axial>) returns (neighbors: seq<Axial>)
      ensures neighbors == Candidates(tiles, waterTiles)
      ensures NoDups(neighbors)
      ensures forall c :: c in neighbors <==>
        c in tiles && tiles[c] != Water && exists w :: w in waterTiles && c in Neighbors(w)
    {
      neighbors := [];
      for k := 0 to |waterTiles|
        invariant neighbors == Candidates(tiles, waterTiles[..k])
      {
        var ns := Neighbors(waterTiles[k]);
        ghost var before := neighbors;
        for d := 0 to |ns|
          invariant neighbors == AddCandidates(tiles, before, ns[..d])
        {
          var p := ns[d];
          if p in tiles {
            if tiles[p] != Water && p !in neighbors {
              neighbors := neighbors + [p];
            }
          }
          assert ns[..d + 1][..d] == ns[..d];
        }
        assert ns[..|ns|] == ns;
        assert waterTiles[..k + 1][..k] == waterTiles[..k];
      }
      assert waterTiles[..|waterTiles|] == waterTiles;
      CandidatesExactly(tiles, waterTiles);
    }

    /** The choice of one water loop iteration. Random.value is drawn only when some water is
        placed; a tile next to placed water is taken when that draw is below the cluster factor
        and there is a candidate, Random.Range choosing among them; otherwise land[i]. */
    method PickTile(land: seq<Axial>, i: nat, waterTiles: seq<Axial>) returns (t: Axial)
      requires i < |land|
      modifies rng
      ensures t == PickWaterTile(WaterState(tiles, waterTiles, old(rng.drawn)), land, i,
                                 cfg.waterClusterFactor, rng.stream).0
      ensures rng.drawn == PickWaterTile(WaterState(tiles, waterTiles, old(rng.drawn)), land, i,
                                         cfg.waterClusterFactor, rng.stream).1
    {
      var clustered := false;
      if |waterTiles| > 0 {
        var v := rng.Value();
        clustered := ValueBelow(v, cfg.waterClusterFactor);
      }
      if clustered {
        var neighbors := ClusterCandidates(waterTiles);
        if |neighbors| > 0 {
          var j := rng.Range(0, |neighbors|);
          t := neighbors[j];
        } else {
          t := land[i];
        }
      } else {
        t := land[i];
      }
    }

    /** The water loop: waterCount iterations, each turning its pick to Water and appending it
        to waterTiles. */
    method PlaceWater(land: seq<Axial>, waterCount: nat)
      requires waterCount <= |land| && Valid()
      requires forall c :: c in land ==> c in tiles
      modifies this, rng
      ensures order == old(order) && Valid()
      ensures var r := PlaceWaterFrom(WaterState(old(tiles), [], old(rng.drawn)), land, 0, waterCount,
                                      cfg.waterClusterFactor, rng.stream);
        tiles == r.tiles && rng.drawn == r.drawn
    {
      ghost var final := PlaceWaterFrom(WaterState(tiles, [], rng.drawn), land, 0, waterCount,
                                        cfg.waterClusterFactor, rng.stream);
      var waterTiles: seq<Axial> := [];
      for i := 0 to waterCount
        invariant tiles.Keys == old(tiles).Keys && order == old(order)
        invariant PlaceWaterFrom(WaterState(tiles, waterTiles, rng.drawn), land, i, waterCount,
                                 cfg.waterClusterFactor, rng.stream) == final
      {
        ghost var st := WaterState(tiles, waterTiles, rng.drawn);
        var t := PickTile(land, i, waterTiles);
        tiles := tiles[t := Water];
        waterTiles := waterTiles + [t];
        assert PlaceWaterFrom(st, land, i, waterCount, cfg.waterClusterFactor, rng.stream)
            == PlaceWaterFrom(WaterState(tiles, waterTiles, rng.drawn), land, i + 1, waterCount,
                              cfg.waterClusterFactor, rng.stream);
      }
    }

    /** AssignWater: force the band, shuffle the land list in place, and place
        RoundToInt(|land| · waterFraction) more water tiles. */
    method AssignWater()
      requires Valid() && WaterFractionInRange(cfg)
      modifies this, rng
      ensures order == old(order) && Valid()
      ensures tiles == AssignWaterSpec(old(tiles), order, cfg.radius, cfg.edgeWaterDepth,
                                       cfg.waterFraction, cfg.waterClusterFactor,
                                       rng.stream, old(rng.drawn)).0
      ensures rng.drawn == AssignWaterSpec(old(tiles), order, cfg.radius, cfg.edgeWaterDepth,
                                           cfg.waterFraction, cfg.waterClusterFactor,
                                           rng.stream, old(rng.drawn)).1
    {
      ghost var start, k := tiles, rng.drawn;
      var landTiles := ForceEdgeWater();
      ghost var forced := tiles;
      var waterCount := RoundToInt(|landTiles|, cfg.waterFraction);
      var a := new Axial[|landTiles|];
      forall i | 0 <= i < a.Length {
        a[i] := landTiles[i];
      }
      assert a[..] == landTiles;
      Shuffle(a, rng);
      var shuffled := a[..];
      ShuffledLandIsInterior(start, order, cfg.radius, cfg.edgeWaterDepth, rng.stream, k);
      AssignWaterSpecSteps(start, order, cfg.radius, cfg.edgeWaterDepth, cfg.waterFraction,
                           cfg.waterClusterFactor, rng.stream, k, landTiles, shuffled, waterCount);
      ghost var st := WaterState(tiles, [], rng.drawn);
      assert st == WaterState(forced, [], k + |landTiles|);
      PlaceWater(shuffled, waterCount);
    }

    /** The land list of AssignResources: the non-Water keys, in dictionary order. */
    method CollectLand() returns (landTiles: seq<Axial>)
      requires Valid()
      ensures landTiles == NonWaterOf(tiles, order)
    {
      landTiles := [];
      for i := 0 to |order|
        invariant landTiles == NonWaterOf(tiles, order[..i])
      {
        if tiles[order[i]] != Water {
          landTiles := landTiles + [order[i]];
        }
        assert order[..i + 1][..i] == order[..i];
      }
      assert order[..|order|] == order;
    }

    /** The quota loop: shuffled position i receives Wood, Brick, Sheep, Wheat or Ore while i is
        within the first, ..., fifth block of perResource positions, and Desert after them; a
        perResource of zero or below gives every position Desert, as a quota of 0 does. */
    method HandOutQuotas(land: seq<Axial>, perResource: int)
      requires Valid() && forall c :: c in land ==> c in tiles
      modifies this
      ensures order == old(order) && Valid()
      ensures tiles == AssignQuotas(old(tiles), land, if perResource <= 0 then 0 else perResource, |land|)
    {
      for i := 0 to |land|
        invariant order == old(order) && tiles.Keys == old(tiles).Keys
        invariant tiles == AssignQuotas(old(tiles), land, if perResource <= 0 then 0 else perResource, i)
      {
        var t;
        if i < perResource { t := Wood; }
        else if i < perResource * 2 { t := Brick; }
        else if i < perResource * 3 { t := Sheep; }
        else if i < perResource * 4 { t := Wheat; }
        else if i < perResource * 5 { t := Ore; }
        else { t := Desert; }
        tiles := tiles[land[i] := t];
      }
    }

    /** AssignResources: collect the non-Water tiles, shuffle them in place, and hand out the
        quotas from perResource = (|land| - RoundToInt(|land| · desertFraction)) / 5, for any
        desert fraction. */
    method AssignResources()
      requires Valid()
      modifies this, rng
      ensures order == old(order) && Valid()
      ensures tiles == AssignResourcesSpec(old(tiles), order, cfg.desertFraction,
                                           rng.stream, old(rng.drawn)).0
      ensures rng.drawn == AssignResourcesSpec(old(tiles), order, cfg.desertFraction,
                                               rng.stream, old(rng.drawn)).1
    {
      ghost var start, k := tiles, rng.drawn;
      var landTiles := CollectLand();
      var a := new Axial[|landTiles|];
      forall i | 0 <= i < a.Length {
        a[i] := landTiles[i];
      }
      assert a[..] == landTiles;
      Shuffle(a, rng);
      var shuffled := a[..];
      var desertCount := RoundToInt(a.Length, cfg.desertFraction);
      var resourceCount := a.Length - desertCount;
      // C#'s integer division truncates toward zero; Dafny's rounds a negative quotient down.
      var perResource := if resourceCount < 0 then -((-resourceCount) / 5) else resourceCount / 5;
      ShuffledLand(start, order, rng.stream, k);
      AssignResourcesSpecSteps(start, order, cfg.desertFraction, rng.stream, k, landTiles, shuffled,
                               if perResource <= 0 then 0 else perResource);
      HandOutQuotas(shuffled, perResource);
    }

    /** The tally for one tile: its own type, then each in-map neighbour's type in direction
        order, counted in a dictionary whose keys keep their insertion order. */
    method Tally(key: Axial) returns (keys: seq<ResourceType>, counts: map<ResourceType, nat>)
      requires key in tiles
      ensures keys == TallyOrder(Neighborhood(tiles, key))
      ensures forall t :: t in counts <==> t in keys
      ensures forall t :: t in counts ==> counts[t] == Occurrences(Neighborhood(tiles, key), t)
    {
      var m := tiles;
      var self := m[key];
      ghost var seen: seq<ResourceType> := [];
      keys, counts := [], map[];
      keys, counts := Inc(seen, self, keys, counts);
      seen := [self];
      var ns := Neighbors(key);
      for d := 0 to |ns|
        invariant seen == [self] + NeighborTypes(m, ns[..d])
        invariant keys == TallyOrder(seen)
        invariant forall t :: t in counts <==> t in keys
        invariant forall t :: t in counts ==> counts[t] == Occurrences(seen, t)
      {
        NeighborTypesStep(m, ns, d);
        if ns[d] in m {
          keys, counts := Inc(seen, m[ns[d]], keys, counts);
          seen := seen + [m[ns[d]]];
        }
      }
      assert ns[..|ns|] == ns;
    }

    /** The selection loop for one land tile: the first non-Water tally key with the strictly
        greatest count, starting from the tile's own type with count -1. */
    method MajorityAt(key: Axial) returns (best: ResourceType)
      requires key in tiles && tiles[key] != Water
      ensures best == SmoothedType(tiles, key)
    {
      var keys, counts := Tally(key);
      ghost var s := Neighborhood(tiles, key);
      best := tiles[key];
      var bestCount: int := -1;
      for i := 0 to |keys|
        invariant (best, bestCount) == Best(keys[..i], s, s[0])
      {
        var k := keys[i];
        if k != Water {
          if counts[k] > bestCount {
            best := k;
            bestCount := counts[k];
          }
        }
        assert keys[..i + 1][..i] == keys[..i];
      }
      assert keys[..|keys|] == keys;
    }

    /** The first loop of a smoothing pass: the newTypes snapshot, every tile's new type computed
        from the dictionary as it stands. */
    method SnapshotTypes() returns (newTypes: map<Axial, ResourceType>)
      requires Valid()
      ensures newTypes == SmoothPass(tiles)
    {
      newTypes := map[];
      for i := 0 to |order|
        invariant forall k :: k in newTypes <==> k in order[..i]
        invariant forall k :: k in newTypes ==> newTypes[k] == SmoothedType(tiles, k)
      {
        var key := order[i];
        if tiles[key] == Water {
          newTypes := newTypes[key := Water];
        } else {
          var best := MajorityAt(key);
          newTypes := newTypes[key := best];
        }
        assert order[..i + 1] == order[..i] + [key];
      }
      assert order[..|order|] == order;
    }

    /** One smoothing pass: the snapshot, then every new type written back. */
    method SmoothResources()
      requires Valid()
      modifies this
      ensures order == old(order) && Valid()
      ensures tiles == SmoothPass(old(tiles))
    {
      var newTypes := SnapshotTypes();
      for i := 0 to |order|
        invariant order == old(order) && tiles.Keys == newTypes.Keys
        invariant forall k :: k in tiles ==> tiles[k] == (if k in order[..i] then newTypes[k] else old(tiles)[k])
      {
        var key := order[i];
        tiles := tiles[key := newTypes[key]];
        assert order[..i + 1] == order[..i] + [key];
      }
      assert order[..|order|] == order;
    }

    /** The stages of Generate before smoothing, from draw k onwards: the grid loop, AssignWater
        and AssignResources. */
    method BuildStages()
      requires WaterFractionInRange(cfg)
      modifies this, rng
      ensures Valid() && order == GridOrder(cfg.radius)
      ensures tiles == ResourceStage(cfg, rng.stream, old(rng.drawn)).0
      ensures rng.drawn == ResourceStage(cfg, rng.stream, old(rng.drawn)).1
    {
      ghost var k := rng.drawn;
      BuildGrid();
      WaterStageSteps(cfg, rng.stream, k);
      AssignWater();
      ResourceStageSteps(cfg, rng.stream, k, tiles, rng.drawn);
      AssignResources();
    }

    /** The smoothing loop of Generate: smoothingPasses passes, none when the count is zero or
        negative. */
    method SmoothPasses()
      requires Valid()
      modifies this
      ensures Valid() && order == old(order)
      ensures tiles == SmoothTimes(old(tiles), cfg.smoothingPasses)
    {
      var i := 0;
      while i < cfg.smoothingPasses
        invariant if cfg.smoothingPasses <= 0 then i == 0 else i <= cfg.smoothingPasses
        invariant Valid() && order == old(order)
        invariant tiles == SmoothTimes(old(tiles), i)
      {
        SmoothResources();
        SmoothTimesUnfold(old(tiles), i + 1);
        i := i + 1;
      }
      SmoothTimesNone(old(tiles), cfg.smoothingPasses);
    }

    /** Generate: empty the dictionary, take the two noise-offset draws, run the grid loop,
        AssignWater, AssignResources and the smoothing passes. */
    method Generate()
      requires WaterFractionInRange(cfg)
      modifies this, rng
      ensures Valid() && order == GridOrder(cfg.radius)
      ensures tiles == GenerateSpec(cfg, rng.stream, old(rng.drawn)).0
      ensures rng.drawn == GenerateSpec(cfg, rng.stream, old(rng.drawn)).1
    {
      ghost var k := rng.drawn;
      tiles := map[];
      order := [];
      rng.Discard();
      rng.Discard();
      StagesAndSmoothing(k);
    }

    /** Everything Generate does after the noise-offset draws, which took the stream from draw k
        to draw k + 2. */
    method StagesAndSmoothing(ghost k: nat)
      requires WaterFractionInRange(cfg) && rng.drawn == k + 2
      modifies this, rng
      ensures Valid() && order == GridOrder(cfg.radius)
      ensures tiles == GenerateSpec(cfg, rng.stream, k).0
      ensures rng.drawn == GenerateSpec(cfg, rng.stream, k).1
    {
      BuildStages();
      SmoothPasses();
      GenerateSpecBody(cfg, rng.stream, k);
    }
  }

  /** The grid loop: rows q = -radius .. radius, and in row q the r from RowStart to RowEnd,
      each cell added once with the default type to an emptied dictionary. */
  method GridLoop(radius: int) returns (tiles: TileMap, order: seq<Axial>)
    ensures order == GridOrder(radius) && tiles == GridTiles(radius)
    ensures NoDups(order) && forall c :: c in order <==> c in tiles
  {
    tiles, order := map[], [];
    var q := -radius;
    while q <= radius
      invariant radius < 0 ==> q == -radius && order == []
      invariant 0 <= radius ==> -radius <= q <= radius + 1 && order == GridRows(radius, q)
      invariant forall c :: c in tiles <==> c in order
      invariant forall c :: c in tiles ==> tiles[c] == DefaultType
      decreases radius + 1 - q
    {
      GridRowsExactly(radius, q);
      tiles, order := RowLoop(radius, q, tiles, order);
      q := q + 1;
    }
    GridOrderIsHexagon(radius);
  }

  /** The inner loop for row q: r from RowStart to RowEnd, each cell added with the default type.
      None of them is present yet, so Dictionary.Add never throws. */
  method RowLoop(radius: int, q: int, tiles: TileMap, order: seq<Axial>) returns (tiles': TileMap, order': seq<Axial>)
    requires 0 <= radius && -radius <= q <= radius
    requires forall c :: c in tiles <==> c in order
    requires forall c :: c in order ==> c.q < q
    ensures order' == order + Row(radius, q)
    ensures forall c :: c in tiles' <==> c in order'
    ensures forall c :: c in tiles' ==> tiles'[c] == if c in tiles then tiles[c] else DefaultType
  {
    var r1 := Max(-radius, -q - radius);
    var r2 := Min(radius, -q + radius);
    tiles', order' := tiles, order;
    var r := r1;
    while r <= r2
      invariant r1 <= r <= r2 + 1
      invariant |order'| == |order| + (r - r1)
      invariant forall j :: 0 <= j < |order| ==> order'[j] == order[j]
      invariant forall j :: |order| <= j < |order'| ==> order'[j] == Axial(q, r1 + j - |order|)
      invariant forall c :: c in tiles' <==> c in order'
      invariant forall c :: c in tiles' ==> tiles'[c] == if c in tiles then tiles[c] else DefaultType
    {
      var c := Axial(q, r);
      assert forall j :: 0 <= j < |order| ==> order[j] in order;
      assert c !in order';
      tiles' := tiles'[c := DefaultType];
      order' := order' + [c];
      r := r + 1;
    }
    RowCells(radius, q, order, order');
  }

  /** A key list that continues `order` with the cells of column q from RowStart onwards, one per
      position, is `order` followed by that column. */
  lemma RowCells(radius: int, q: int, order: seq<Axial>, order': seq<Axial>)
    requires -radius <= q <= radius
    requires |order'| == |order| + |Row(radius, q)|
    requires forall j :: 0 <= j < |order| ==> order'[j] == order[j]
    requires forall j :: |order| <= j < |order'| ==> order'[j] == Axial(q, RowStart(radius, q) + j - |order|)
    ensures order' == order + Row(radius, q)
  {
    var row := Row(radius, q);
    forall j | 0 <= j < |order'| ensures order'[j] == (order + row)[j] {
      if j >= |order| {
        assert row[j - |order|].r == row[0].r + (j - |order|);
      }
    }
  }

  /** The loop of ForceEdgeWater over the dictionary's keys in order. */
  method BorderLoop(tiles: TileMap, order: seq<Axial>, radius: int, depth: int)
    returns (forced: TileMap, land: seq<Axial>)
    requires NoDups(order) && forall c :: c in order <==> c in tiles
    ensures forced == ForceBorder(tiles, radius, depth)
    ensures land == LandOf(tiles, order, radius, depth)
  {
    forced, land := tiles, [];
    for i := 0 to |order|
      invariant BorderPrefix(tiles, order, i, forced, radius, depth)
      invariant land == LandOf(tiles, order[..i], radius, depth)
    {
      var c := order[i];
      LandOfStep(tiles, order, i, radius, depth);
      BorderStep(tiles, order, i, forced, radius, depth);
      if InBorderBand(c, radius, depth) {
        forced := forced[c := Water];
      } else if forced[c] != Water {
        land := land + [c];
      }
    }
    BorderDone(tiles, order, forced, radius, depth);
    assert order[..|order|] == order;
  }

  /** The dictionary after the border loop has visited order[..i]. */
  ghost predicate BorderPrefix(tiles: TileMap, order: seq<Axial>, i: nat, forced: TileMap, radius: int, depth: int)
  {
    i <= |order| && forced.Keys == tiles.Keys
    && forall c :: c in forced ==>
         forced[c] == (if c in order[..i] && InBorderBand(c, radius, depth) then Water else tiles[c])
  }

  /** One more key visited: it is still as the input had it, and forcing it keeps the invariant. */
  lemma BorderStep(tiles: TileMap, order: seq<Axial>, i: nat, forced: TileMap, radius: int, depth: int)
    requires NoDups(order) && (forall c :: c in order ==> c in tiles) && i < |order|
    requires BorderPrefix(tiles, order, i, forced, radius, depth)
    ensures order[i] in forced && forced[order[i]] == tiles[order[i]]
    ensures BorderPrefix(tiles, order, i + 1,
                         if InBorderBand(order[i], radius, depth) then forced[order[i] := Water] else forced,
                         radius, depth)
  {
    var c := order[i];
    assert c !in order[..i];
    assert order[..i + 1] == order[..i] + [c];
  }

  /** Once every key is visited the loop's dictionary is ForceBorder's. */
  lemma BorderDone(tiles: TileMap, order: seq<Axial>, forced: TileMap, radius: int, depth: int)
    requires (forall c :: c in tiles ==> c in order) && BorderPrefix(tiles, order, |order|, forced, radius, depth)
    ensures forced == ForceBorder(tiles, radius, depth)
  {
    assert order[..|order|] == order;
  }

  /** The land list of a prefix one key longer. */
  lemma LandOfStep(tiles: TileMap, order: seq<Axial>, i: nat, radius: int, depth: int)
    requires i < |order| && forall c :: c in order ==> c in tiles
    ensures order[..i + 1] == order[..i] + [order[i]]
    ensures LandOf(tiles, order[..i + 1], radius, depth)
         == if !InBorderBand(order[i], radius, depth) && tiles[order[i]] != Water
            then LandOf(tiles, order[..i], radius, depth) + [order[i]]
            else LandOf(tiles, order[..i], radius, depth)
  {
    assert order[..i + 1][..i] == order[..i];
  }

  /** GenerateSpec is the resource stage after two draws, followed by the smoothing passes. */
  lemma GenerateSpecBody(cfg: Config, stream: nat -> nat, k: nat)
    requires WaterFractionInRange(cfg)
    ensures GenerateSpec(cfg, stream, k).0 == SmoothTimes(ResourceStage(cfg, stream, k + 2).0, cfg.smoothingPasses)
    ensures GenerateSpec(cfg, stream, k).1 == ResourceStage(cfg, stream, k + 2).1
  {
  }

  /** WaterStage is AssignWaterSpec on the grid. */
  lemma WaterStageSteps(cfg: Config, stream: nat -> nat, k: nat)
    requires WaterFractionInRange(cfg)
    ensures forall c :: c in GridOrder(cfg.radius) ==> c in GridTiles(cfg.radius)
    ensures WaterStage(cfg, stream, k).0
         == AssignWaterSpec(GridTiles(cfg.radius), GridOrder(cfg.radius), cfg.radius, cfg.edgeWaterDepth,
                            cfg.waterFraction, cfg.waterClusterFactor, stream, k).0
    ensures WaterStage(cfg, stream, k).1
         == AssignWaterSpec(GridTiles(cfg.radius), GridOrder(cfg.radius), cfg.radius, cfg.edgeWaterDepth,
                            cfg.waterFraction, cfg.waterClusterFactor, stream, k).1
  {
    GridOrderIsHexagon(cfg.radius);
  }

  /** ResourceStage is AssignResourcesSpec on the water stage's result. */
  lemma ResourceStageSteps(cfg: Config, stream: nat -> nat, k: nat, water: TileMap, drawn: nat)
    requires WaterFractionInRange(cfg)
    requires water == WaterStage(cfg, stream, k).0 && drawn == WaterStage(cfg, stream, k).1
    ensures forall c :: c in GridOrder(cfg.radius) ==> c in water
    ensures ResourceStage(cfg, stream, k).0
         == AssignResourcesSpec(water, GridOrder(cfg.radius), cfg.desertFraction, stream, drawn).0
    ensures ResourceStage(cfg, stream, k).1
         == AssignResourcesSpec(water, GridOrder(cfg.radius), cfg.desertFraction, stream, drawn).1
  {
    GridOrderIsHexagon(cfg.radius);
    AssignWaterEffect(GridTiles(cfg.radius), GridOrder(cfg.radius), cfg.radius, cfg.edgeWaterDepth,
                      cfg.waterFraction, cfg.waterClusterFactor, stream, k);
  }

  /** One more value reaches the tally: its count goes up by one, and it joins the key list
      exactly when it was not there. */
  lemma TallyStep(seen: seq<ResourceType>, rt: ResourceType)
    ensures forall t :: Occurrences(seen + [rt], t) == Occurrences(seen, t) + (if t == rt then 1 else 0)
    ensures TallyOrder(seen + [rt]) == if rt in TallyOrder(seen) then TallyOrder(seen) else TallyOrder(seen) + [rt]
    ensures rt !in TallyOrder(seen) ==> Occurrences(seen, rt) == 0
  {
    assert (seen + [rt])[..|seen|] == seen;
    TallyOrderKeys(seen);
    if rt !in seen {
      OccurrencesAbsent(seen, rt);
    }
  }

  /** Inc on the tally dictionary, as its key list in insertion order and its counts: when the
      tally matches the values seen so far, it matches them with rt appended afterwards. */
  method Inc(ghost seen: seq<ResourceType>, rt: ResourceType, keys: seq<ResourceType>,
             counts: map<ResourceType, nat>)
    returns (keys': seq<ResourceType>, counts': map<ResourceType, nat>)
    requires keys == TallyOrder(seen)
    requires forall t :: t in counts <==> t in keys
    requires forall t :: t in counts ==> counts[t] == Occurrences(seen, t)
    ensures keys' == TallyOrder(seen + [rt])
    ensures forall t :: t in counts' <==> t in keys'
    ensures forall t :: t in counts' ==> counts'[t] == Occurrences(seen + [rt], t)
  {
    TallyStep(seen, rt);
    if rt in counts {
      keys', counts' := keys, counts[rt := counts[rt] + 1];
    } else {
      keys', counts' := keys + [rt], counts[rt := 1];
    }
  }

  /** The neighbour types of one more direction: that neighbour's type joins at the end when it
      is on the board. */
  lemma NeighborTypesStep(tiles: TileMap, ps: seq<Axial>, d: nat)
    requires d < |ps|
    ensures NeighborTypes(tiles, ps[..d + 1])
         == NeighborTypes(tiles, ps[..d]) + (if ps[d] in tiles then [tiles[ps[d]]] else [])
  {
    assert ps[..d + 1][..d] == ps[..d];
  }
}
