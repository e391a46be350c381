/** AssignWater, as functions of the tile dictionary: the border band forced to Water, the land
    list it leaves, the cluster candidates around placed water, and the placement loop. */
module Water {
  import opened Resources
  import opened Seqs
  import opened Hex
  import opened Randomness

  /** A tile within `depth` rings of the edge: |q|, |r| or |q+r| reaches radius - depth + 1. */
  predicate InBorderBand(c: Axial, radius: int, depth: int)
  {
    var limit := radius - depth + 1;
    Abs(c.q) >= limit || Abs(c.r) >= limit || Abs(c.q + c.r) >= limit
  }

  /** The band is the set of cells at hex distance at least radius - depth + 1 from the centre. */
  lemma BorderBandIsOuterRings(c: Axial, radius: int, depth: int)
    ensures InBorderBand(c, radius, depth) <==> HexDistance(c, Origin) >= radius - depth + 1
  {
    DistanceIsLargestDifference(c, Origin);
  }

  /** The dictionary after the border loop: band tiles Water, every other tile unchanged. */
  function ForceBorder(tiles: TileMap, radius: int, depth: int): TileMap
  {
    map c | c in tiles :: if InBorderBand(c, radius, depth) then Water else tiles[c]
  }

  /** The land list the border loop collects: keys, in dictionary order, outside the band and
      not already Water. */
  function LandOf(tiles: TileMap, order: seq<Axial>, radius: int, depth: int): seq<Axial>
    requires forall c :: c in order ==> c in tiles
  {
    if order == [] then []
    else
      var c := order[|order| - 1];
      var init := LandOf(tiles, order[..|order| - 1], radius, depth);
      if !InBorderBand(c, radius, depth) && tiles[c] != Water then init + [c] else init
  }

  /** The land list holds exactly the non-band, non-Water keys, each once. */
  lemma {:induction false} LandOfExactly(tiles: TileMap, order: seq<Axial>, radius: int, depth: int)
    requires forall c :: c in order ==> c in tiles
    ensures forall c :: c in LandOf(tiles, order, radius, depth) <==>
      c in order && !InBorderBand(c, radius, depth) && tiles[c] != Water
    ensures NoDups(order) ==> NoDups(LandOf(tiles, order, radius, depth))
  {
    if order != [] {
      var init := order[..|order| - 1];
      assert order == init + [order[|order| - 1]];
      LandOfExactly(tiles, init, radius, depth);
    }
  }

  /** After the border loop every band tile is Water and every other tile is as before; when the
      depth exceeds the radius, the whole board is Water and there is no land. */
  lemma ForceBorderEffect(tiles: TileMap, order: seq<Axial>, radius: int, depth: int)
    requires forall c :: c in order ==> c in tiles
    ensures ForceBorder(tiles, radius, depth).Keys == tiles.Keys
    ensures forall c :: c in tiles ==>
      ForceBorder(tiles, radius, depth)[c] == (if InBorderBand(c, radius, depth) then Water else tiles[c])
    ensures depth > radius ==>
      (forall c :: c in tiles ==> ForceBorder(tiles, radius, depth)[c] == Water)
      && LandOf(tiles, order, radius, depth) == []
  {
    LandOfExactly(tiles, order, radius, depth);
    if depth > radius && LandOf(tiles, order, radius, depth) != [] {
      assert LandOf(tiles, order, radius, depth)[0] in LandOf(tiles, order, radius, depth);
    }
  }

  /** acc extended, in order, by each position of ps that is on the board, not Water and not yet
      listed: the inner loop over one water tile's neighbours. */
  function AddCandidates(tiles: TileMap, acc: seq<Axial>, ps: seq<Axial>): seq<Axial>
  {
    if ps == [] then acc
    else
      var before := AddCandidates(tiles, acc, ps[..|ps| - 1]);
      var p := ps[|ps| - 1];
      if p in tiles && tiles[p] != Water && p !in before then before + [p] else before
  }

  /** The neighbours list of the cluster branch: for each placed water tile in turn, its
      neighbours in direction order, skipping duplicates, off-board and Water cells. */
  function Candidates(tiles: TileMap, water: seq<Axial>): seq<Axial>
  {
    if water == [] then []
    else AddCandidates(tiles, Candidates(tiles, water[..|water| - 1]), Neighbors(water[|water| - 1]))
  }

  lemma {:induction false} AddCandidatesExactly(tiles: TileMap, acc: seq<Axial>, ps: seq<Axial>)
    ensures forall c :: c in AddCandidates(tiles, acc, ps) <==>
      c in acc || (c in ps && c in tiles && tiles[c] != Water)
    ensures NoDups(acc) ==> NoDups(AddCandidates(tiles, acc, ps))
  {
    if ps != [] {
      var init := ps[..|ps| - 1];
      assert ps == init + [ps[|ps| - 1]];
      AddCandidatesExactly(tiles, acc, init);
    }
  }

  /** A cluster candidate is exactly an on-board, non-Water cell adjacent to some placed water
      tile, and the list names each such cell once. */
  lemma {:induction false} CandidatesExactly(tiles: TileMap, water: seq<Axial>)
    ensures NoDups(Candidates(tiles, water))
    ensures forall c :: c in Candidates(tiles, water) <==>
      c in tiles && tiles[c] != Water && exists w :: w in water && c in Neighbors(w)
  {
    if water != [] {
      var init, w := water[..|water| - 1], water[|water| - 1];
      assert water == init + [w];
      CandidatesExactly(tiles, init);
      AddCandidatesExactly(tiles, Candidates(tiles, init), Neighbors(w));
      forall c | c in Candidates(tiles, water)
        ensures c in tiles && tiles[c] != Water && exists w' :: w' in water && c in Neighbors(w')
      {
        if c !in Candidates(tiles, init) {
          assert c in Neighbors(w) && w in water;
        } else {
          var w' :| w' in init && c in Neighbors(w');
          assert w' in water;
        }
      }
      forall c | c in tiles && tiles[c] != Water && (exists w' :: w' in water && c in Neighbors(w'))
        ensures c in Candidates(tiles, water)
      {
        var w' :| w' in water && c in Neighbors(w');
        if w' != w {
          assert w' in init;
        }
      }
    }
  }

  /** The state of the water loop: the dictionary, the water tiles placed so far (waterTiles)
      and the number of draws taken from the generator. */
  datatype WaterState = WaterState(tiles: TileMap, water: seq<Axial>, drawn: nat)

  /** One iteration's choice of tile and the draw count after it. Random.value is drawn only when
      some water is placed (the && short-circuits), and Random.Range only when the cluster branch
      is taken and has candidates. */
  function PickWaterTile(st: WaterState, land: seq<Axial>, i: nat, factor: Fraction, stream: nat -> nat)
    : (pick: (Axial, nat))
    requires i < |land|
    ensures pick.1 >= st.drawn
    ensures pick.0 == land[i] ||
      (pick.0 in st.tiles && st.tiles[pick.0] != Water && exists w :: w in st.water && pick.0 in Neighbors(w))
    ensures st.water == [] ==> pick == (land[i], st.drawn)
    ensures st.water != [] && ValueBelow(ValueDraw(stream, st.drawn), factor)
            && Candidates(st.tiles, st.water) != [] ==>
      pick.0 in Candidates(st.tiles, st.water) && pick.1 == st.drawn + 2
    ensures st.water != [] && !(ValueBelow(ValueDraw(stream, st.drawn), factor)
            && Candidates(st.tiles, st.water) != []) ==>
      pick == (land[i], st.drawn + 1)
    ensures factor.num == 0 ==> pick.0 == land[i]
  {
    if |st.water| > 0 then
      var v := ValueDraw(stream, st.drawn);
      ValueBelowBounds(v, factor);
      if ValueBelow(v, factor) then
        var neighbors := Candidates(st.tiles, st.water);
        CandidatesExactly(st.tiles, st.water);
        if |neighbors| > 0 then
          (neighbors[RangeDraw(stream, st.drawn + 1, 0, |neighbors|)], st.drawn + 2)
        else (land[i], st.drawn + 1)
      else (land[i], st.drawn + 1)
    else (land[i], st.drawn)
  }

  /** Iterations i .. count-1 of the water loop: each marks its pick Water and appends it to the
      water tiles. */
  function PlaceWaterFrom(st: WaterState, land: seq<Axial>, i: nat, count: nat, factor: Fraction,
                          stream: nat -> nat): WaterState
    requires i <= count <= |land|
    decreases count - i
  {
    if i == count then st
    else
      var pick := PickWaterTile(st, land, i, factor, stream);
      PlaceWaterFrom(WaterState(st.tiles[pick.0 := Water], st.water + [pick.0], pick.1),
                     land, i + 1, count, factor, stream)
  }

  /** The tiles that were not Water before and are Water after. */
  function NewWater(before: TileMap, after: TileMap): set<Axial>
  {
    set c | c in before && c in after && before[c] != Water && after[c] == Water
  }

  /** The water loop keeps the key set, never turns Water into anything else, turns every tile it
      changes into Water, and lists each such tile among the count - i new water tiles. */
  lemma {:induction false} PlaceWaterEffect(st: WaterState, land: seq<Axial>, i: nat, count: nat,
                                            factor: Fraction, stream: nat -> nat)
    requires i <= count <= |land|
    requires forall c :: c in land ==> c in st.tiles
    ensures var r := PlaceWaterFrom(st, land, i, count, factor, stream);
      && r.tiles.Keys == st.tiles.Keys
      && |r.water| == |st.water| + (count - i)
      && r.water[..|st.water|] == st.water
      && (forall c :: c in st.tiles && st.tiles[c] == Water ==> r.tiles[c] == Water)
      && (forall c :: c in st.tiles && r.tiles[c] != st.tiles[c] ==>
            r.tiles[c] == Water && c in r.water[|st.water|..])
    decreases count - i
  {
    if i < count {
      var pick := PickWaterTile(st, land, i, factor, stream);
      var next := WaterState(st.tiles[pick.0 := Water], st.water + [pick.0], pick.1);
      assert pick.0 in st.tiles;
      PlaceWaterEffect(next, land, i + 1, count, factor, stream);
      var r := PlaceWaterFrom(next, land, i + 1, count, factor, stream);
      assert r.water[..|next.water|][..|st.water|] == r.water[..|st.water|];
      forall c | c in st.tiles && r.tiles[c] != st.tiles[c]
        ensures r.tiles[c] == Water && c in r.water[|st.water|..]
      {
        if c == pick.0 {
          assert r.water[|st.water|] == pick.0;
        } else {
          assert r.tiles[c] != next.tiles[c];
          assert r.water[|next.water|..] == r.water[|st.water|..][1..];
        }
      }
    }
  }

  /** The loop adds at most count new water tiles: an index reused after a cluster pick adds none. */
  lemma AtMostCountNewWater(st: WaterState, land: seq<Axial>, count: nat, factor: Fraction,
                            stream: nat -> nat)
    requires count <= |land|
    requires forall c :: c in land ==> c in st.tiles
    ensures |NewWater(st.tiles, PlaceWaterFrom(st, land, 0, count, factor, stream).tiles)| <= count
  {
    var r := PlaceWaterFrom(st, land, 0, count, factor, stream);
    PlaceWaterEffect(st, land, 0, count, factor, stream);
    var added := r.water[|st.water|..];
    assert NewWater(st.tiles, r.tiles) <= Elems(added);
    DistinctCard(added);
    SubsetCard(NewWater(st.tiles, r.tiles), Elems(added));
  }

  /** With a cluster factor of zero every pick is landTiles[i]: the new water tiles are exactly the
      first count land tiles, so count distinct land tiles all become Water. */
  lemma {:induction false} UnclusteredPicksLandInOrder(st: WaterState, land: seq<Axial>, i: nat, count: nat,
                                                      factor: Fraction, stream: nat -> nat)
    requires i <= count <= |land| && factor.num == 0
    ensures PlaceWaterFrom(st, land, i, count, factor, stream).water == st.water + land[i..count]
    decreases count - i
  {
    if i < count {
      var pick := PickWaterTile(st, land, i, factor, stream);
      var next := WaterState(st.tiles[pick.0 := Water], st.water + [pick.0], pick.1);
      UnclusteredPicksLandInOrder(next, land, i + 1, count, factor, stream);
      assert land[i..count] == [land[i]] + land[i + 1..count];
    }
  }

  /** Every tile in the water list is on the board and Water, once the initial list was. */
  lemma {:induction false} PlacedAreWater(st: WaterState, land: seq<Axial>, i: nat, count: nat,
                                          factor: Fraction, stream: nat -> nat)
    requires i <= count <= |land|
    requires forall c :: c in st.water ==> c in st.tiles && st.tiles[c] == Water
    requires forall c :: c in land ==> c in st.tiles
    ensures var r := PlaceWaterFrom(st, land, i, count, factor, stream);
      forall c :: c in r.water ==> c in r.tiles && r.tiles[c] == Water
    decreases count - i
  {
    if i < count {
      var pick := PickWaterTile(st, land, i, factor, stream);
      var next := WaterState(st.tiles[pick.0 := Water], st.water + [pick.0], pick.1);
      assert pick.0 in st.tiles;
      assert next.tiles.Keys == st.tiles.Keys;
      forall c | c in next.water ensures c in next.tiles && next.tiles[c] == Water {
        if c != pick.0 {
          assert c in st.water;
        }
      }
      PlacedAreWater(next, land, i + 1, count, factor, stream);
      assert PlaceWaterFrom(st, land, i, count, factor, stream)
          == PlaceWaterFrom(next, land, i + 1, count, factor, stream);
    } else {
      assert PlaceWaterFrom(st, land, i, count, factor, stream) == st;
    }
  }

  /** AssignWater as a whole: force the band, shuffle the land list, then run the water loop
      for waterCount = RoundToInt(|land| · waterFraction) iterations. Returns the dictionary and
      the draw count afterwards. */
  function AssignWaterSpec(tiles: TileMap, order: seq<Axial>, radius: int, depth: int,
                           waterFraction: Fraction, factor: Fraction, stream: nat -> nat, k: nat)
    : (TileMap, nat)
    requires forall c :: c in order ==> c in tiles
    requires waterFraction.num <= waterFraction.den
  {
    var land := LandOf(tiles, order, radius, depth);
    var count := RoundToInt(|land|, waterFraction);
    var shuffled := ShuffleFrom(land, 0, stream, k);
    var r := PlaceWaterFrom(WaterState(ForceBorder(tiles, radius, depth), [], k + |land|),
                            shuffled, 0, count, factor, stream);
    (r.tiles, r.drawn)
  }

  /** AssignWaterSpec in terms of its intermediate values: the land list, its shuffle and the
      water count. */
  lemma AssignWaterSpecSteps(tiles: TileMap, order: seq<Axial>, radius: int, depth: int,
                             waterFraction: Fraction, factor: Fraction, stream: nat -> nat, k: nat,
                             land: seq<Axial>, shuffled: seq<Axial>, count: nat)
    requires forall c :: c in order ==> c in tiles
    requires waterFraction.num <= waterFraction.den
    requires land == LandOf(tiles, order, radius, depth)
    requires shuffled == ShuffleFrom(land, 0, stream, k) && count == RoundToInt(|land|, waterFraction)
    ensures count <= |shuffled|
    ensures AssignWaterSpec(tiles, order, radius, depth, waterFraction, factor, stream, k).0
         == PlaceWaterFrom(WaterState(ForceBorder(tiles, radius, depth), [], k + |land|),
                           shuffled, 0, count, factor, stream).tiles
    ensures AssignWaterSpec(tiles, order, radius, depth, waterFraction, factor, stream, k).1
         == PlaceWaterFrom(WaterState(ForceBorder(tiles, radius, depth), [], k + |land|),
                           shuffled, 0, count, factor, stream).drawn
  {
    AssignWaterSpecBody(tiles, order, radius, depth, waterFraction, factor, stream, k);
    PlaceWaterCongruent(ForceBorder(tiles, radius, depth), k + |LandOf(tiles, order, radius, depth)|,
                        k + |land|, ShuffleFrom(LandOf(tiles, order, radius, depth), 0, stream, k), shuffled,
                        RoundToInt(|LandOf(tiles, order, radius, depth)|, waterFraction), count, factor, stream);
  }

  /** AssignWaterSpec with its local definitions written out. */
  lemma AssignWaterSpecBody(tiles: TileMap, order: seq<Axial>, radius: int, depth: int,
                            waterFraction: Fraction, factor: Fraction, stream: nat -> nat, k: nat)
    requires forall c :: c in order ==> c in tiles
    requires waterFraction.num <= waterFraction.den
    ensures AssignWaterSpec(tiles, order, radius, depth, waterFraction, factor, stream, k).0
         == PlaceWaterFrom(WaterState(ForceBorder(tiles, radius, depth), [], k + |LandOf(tiles, order, radius, depth)|),
                           ShuffleFrom(LandOf(tiles, order, radius, depth), 0, stream, k), 0,
                           RoundToInt(|LandOf(tiles, order, radius, depth)|, waterFraction), factor, stream).tiles
    ensures AssignWaterSpec(tiles, order, radius, depth, waterFraction, factor, stream, k).1
         == PlaceWaterFrom(WaterState(ForceBorder(tiles, radius, depth), [], k + |LandOf(tiles, order, radius, depth)|),
                           ShuffleFrom(LandOf(tiles, order, radius, depth), 0, stream, k), 0,
                           RoundToInt(|LandOf(tiles, order, radius, depth)|, waterFraction), factor, stream).drawn
  {
  }

  /** Equal starting draw counts, land lists and water counts give equal loop results. */
  lemma PlaceWaterCongruent(forced: TileMap, drawn: nat, drawn': nat, land: seq<Axial>, land': seq<Axial>,
                            count: nat, count': nat, factor: Fraction, stream: nat -> nat)
    requires drawn == drawn' && land == land' && count == count' && count <= |land|
    ensures PlaceWaterFrom(WaterState(forced, [], drawn), land, 0, count, factor, stream).tiles
         == PlaceWaterFrom(WaterState(forced, [], drawn'), land', 0, count', factor, stream).tiles
    ensures PlaceWaterFrom(WaterState(forced, [], drawn), land, 0, count, factor, stream).drawn
         == PlaceWaterFrom(WaterState(forced, [], drawn'), land', 0, count', factor, stream).drawn
  {
  }

  /** The shuffled land list holds tiles that are on the forced board and not Water there, and
      holds each once when the key order does. */
  lemma ShuffledLandIsInterior(tiles: TileMap, order: seq<Axial>, radius: int, depth: int,
                               stream: nat -> nat, k: nat)
    requires forall c :: c in order ==> c in tiles
    ensures var shuffled := ShuffleFrom(LandOf(tiles, order, radius, depth), 0, stream, k);
      && (forall c :: c in shuffled ==>
            c in ForceBorder(tiles, radius, depth) && ForceBorder(tiles, radius, depth)[c] != Water)
      && (NoDups(order) ==> NoDups(shuffled))
  {
    var land := LandOf(tiles, order, radius, depth);
    var shuffled := ShuffleFrom(land, 0, stream, k);
    ForceBorderEffect(tiles, order, radius, depth);
    LandOfExactly(tiles, order, radius, depth);
    ShuffleKeepsKeys(land, stream, k);
    assert forall c :: c in shuffled ==> c in Elems(land);
  }

  /** The water loop on its own: the key set is kept, Water stays Water, other tiles change
      only to Water, and at most count tiles become Water. */
  lemma WaterLoopEffect(st: WaterState, land: seq<Axial>, count: nat, factor: Fraction,
                        stream: nat -> nat)
    requires count <= |land|
    requires forall c :: c in land ==> c in st.tiles
    ensures var after := PlaceWaterFrom(st, land, 0, count, factor, stream).tiles;
      && after.Keys == st.tiles.Keys
      && (forall c :: c in st.tiles && st.tiles[c] == Water ==> after[c] == Water)
      && (forall c :: c in st.tiles && after[c] != st.tiles[c] ==> after[c] == Water)
      && |NewWater(st.tiles, after)| <= count
  {
    PlaceWaterEffect(st, land, 0, count, factor, stream);
    AtMostCountNewWater(st, land, count, factor, stream);
  }

  /** AssignWater keeps the key set, leaves every band tile and every tile that was Water as
      Water, changes other tiles only to Water, and adds at most waterCount water tiles to the
      forced board. */
  lemma AssignWaterEffect(tiles: TileMap, order: seq<Axial>, radius: int, depth: int,
                          waterFraction: Fraction, factor: Fraction, stream: nat -> nat, k: nat)
    requires forall c :: c in order ==> c in tiles
    requires waterFraction.num <= waterFraction.den
    ensures var after := AssignWaterSpec(tiles, order, radius, depth, waterFraction, factor, stream, k).0;
      && after.Keys == tiles.Keys
      && (forall c :: c in tiles && InBorderBand(c, radius, depth) ==> after[c] == Water)
      && (forall c :: c in tiles && tiles[c] == Water ==> after[c] == Water)
      && (forall c :: c in tiles && after[c] != tiles[c] ==> after[c] == Water)
      && |NewWater(ForceBorder(tiles, radius, depth), after)|
           <= RoundToInt(|LandOf(tiles, order, radius, depth)|, waterFraction)
  {
    var land := LandOf(tiles, order, radius, depth);
    var forced := ForceBorder(tiles, radius, depth);
    var count := RoundToInt(|land|, waterFraction);
    var shuffled := ShuffleFrom(land, 0, stream, k);
    ForceBorderEffect(tiles, order, radius, depth);
    var st := WaterState(forced, [], k + |land|);
    var after := PlaceWaterFrom(st, shuffled, 0, count, factor, stream).tiles;
    AssignWaterSpecSteps(tiles, order, radius, depth, waterFraction, factor, stream, k, land, shuffled, count);
    ShuffledLandIsInterior(tiles, order, radius, depth, stream, k);
    WaterLoopEffect(st, shuffled, count, factor, stream);
    OnlyWaterChangesCompose(tiles, forced, after);
  }

  /** Two steps that each keep the keys, keep Water as Water and change tiles only to Water
      compose into one step with the same three properties. */
  lemma OnlyWaterChangesCompose(a: TileMap, b: TileMap, c: TileMap)
    requires b.Keys == a.Keys && c.Keys == b.Keys
    requires forall x :: x in a && a[x] == Water ==> b[x] == Water
    requires forall x :: x in a && b[x] != a[x] ==> b[x] == Water
    requires forall x :: x in b && b[x] == Water ==> c[x] == Water
    requires forall x :: x in b && c[x] != b[x] ==> c[x] == Water
    ensures forall x :: x in a && a[x] == Water ==> c[x] == Water
    ensures forall x :: x in a && c[x] != a[x] ==> c[x] == Water
  {
  }

  /** With a cluster factor of zero, a loop over a list of distinct land tiles turns exactly
      count of them into Water. */
  lemma UnclusteredNewWater(st: WaterState, land: seq<Axial>, count: nat, factor: Fraction,
                            stream: nat -> nat)
    requires count <= |land| && factor.num == 0 && st.water == [] && NoDups(land)
    requires forall c :: c in land ==> c in st.tiles && st.tiles[c] != Water
    ensures |NewWater(st.tiles, PlaceWaterFrom(st, land, 0, count, factor, stream).tiles)| == count
  {
    var r := PlaceWaterFrom(st, land, 0, count, factor, stream);
    PlaceWaterEffect(st, land, 0, count, factor, stream);
    PlacedAreWater(st, land, 0, count, factor, stream);
    UnclusteredPicksLandInOrder(st, land, 0, count, factor, stream);
    var picked := land[..count];
    assert r.water == picked;
    assert NewWater(st.tiles, r.tiles) == Elems(picked) by {
      forall c | c in picked ensures c in NewWater(st.tiles, r.tiles) {
        assert c in land;
      }
    }
    assert NoDups(picked);
    DistinctCard(picked);
  }

  /** With a cluster factor of zero and distinct keys, exactly waterCount tiles of the land list
      become Water: no pick repeats. */
  lemma UnclusteredWaterCount(tiles: TileMap, order: seq<Axial>, radius: int, depth: int,
                              waterFraction: Fraction, factor: Fraction, stream: nat -> nat, k: nat)
    requires forall c :: c in order ==> c in tiles
    requires NoDups(order)
    requires waterFraction.num <= waterFraction.den && factor.num == 0
    ensures |NewWater(ForceBorder(tiles, radius, depth),
                      AssignWaterSpec(tiles, order, radius, depth, waterFraction, factor, stream, k).0)|
         == RoundToInt(|LandOf(tiles, order, radius, depth)|, waterFraction)
  {
    var land := LandOf(tiles, order, radius, depth);
    var forced := ForceBorder(tiles, radius, depth);
    var count := RoundToInt(|land|, waterFraction);
    var shuffled := ShuffleFrom(land, 0, stream, k);
    ShuffledLandIsInterior(tiles, order, radius, depth, stream, k);
    AssignWaterSpecSteps(tiles, order, radius, depth, waterFraction, factor, stream, k, land, shuffled, count);
    UnclusteredNewWater(WaterState(forced, [], k + |land|), shuffled, count, factor, stream);
  }
}
