/** AssignResources, as functions of the tile dictionary: the land list, the quota each shuffled
    position receives, and the counts of every resource type that result. */
module Quota {
  import opened Resources
  import opened Seqs
  import opened Hex
  import opened Randomness

  /** The land list AssignResources collects: the non-Water keys, in dictionary order. */
  function NonWaterOf(tiles: TileMap, order: seq<Axial>): seq<Axial>
    requires forall c :: c in order ==> c in tiles
  {
    if order == [] then []
    else
      var c := order[|order| - 1];
      var init := NonWaterOf(tiles, order[..|order| - 1]);
      if tiles[c] != Water then init + [c] else init
  }

  lemma {:induction false} NonWaterOfExactly(tiles: TileMap, order: seq<Axial>)
    requires forall c :: c in order ==> c in tiles
    ensures forall c :: c in NonWaterOf(tiles, order) <==> c in order && tiles[c] != Water
    ensures NoDups(order) ==> NoDups(NonWaterOf(tiles, order))
  {
    if order != [] {
      var init := order[..|order| - 1];
      assert order == init + [order[|order| - 1]];
      NonWaterOfExactly(tiles, init);
    }
  }

  /** The type handed to shuffled position i when each resource gets `per` tiles. */
  function QuotaType(i: nat, per: nat): ResourceType
  {
    if i < per then Wood
    else if i < per * 2 then Brick
    else if i < per * 3 then Sheep
    else if i < per * 4 then Wheat
    else if i < per * 5 then Ore
    else Desert
  }

  /** The first shuffled position that receives type t. */
  function QuotaStart(t: ResourceType, per: nat): nat
  {
    match t
    case Wood => 0
    case Brick => per
    case Sheep => 2 * per
    case Wheat => 3 * per
    case Ore => 4 * per
    case _ => 5 * per
  }

  /** Position i receives t exactly when it lies in t's block: the five quota blocks of `per`
      positions in Wood, Brick, Sheep, Wheat, Ore order, then Desert for everything after. */
  lemma QuotaTypeBlocks(i: nat, per: nat, t: ResourceType)
    requires t != Water
    ensures QuotaType(i, per) == t <==>
      QuotaStart(t, per) <= i && (t == Desert || i < QuotaStart(t, per) + per)
  {
  }

  /** The dictionary after positions 0 .. n-1 of the shuffled land list received their types. */
  function AssignQuotas(tiles: TileMap, land: seq<Axial>, per: nat, n: nat): TileMap
    requires n <= |land|
  {
    if n == 0 then tiles
    else AssignQuotas(tiles, land, per, n - 1)[land[n - 1] := QuotaType(n - 1, per)]
  }

  lemma {:induction false} AssignQuotasEffect(tiles: TileMap, land: seq<Axial>, per: nat, n: nat)
    requires n <= |land| && NoDups(land)
    requires forall c :: c in land ==> c in tiles
    ensures AssignQuotas(tiles, land, per, n).Keys == tiles.Keys
    ensures forall j :: 0 <= j < n ==> AssignQuotas(tiles, land, per, n)[land[j]] == QuotaType(j, per)
    ensures forall c :: c in tiles && c !in land[..n] ==> AssignQuotas(tiles, land, per, n)[c] == tiles[c]
  {
    if n > 0 {
      AssignQuotasEffect(tiles, land, per, n - 1);
      PrefixExtend(land, n);
    }
  }

  /** Over a land list that holds every non-Water tile once, the tiles of a non-Water type t
      after the assignment are exactly the land entries in t's block. */
  lemma QuotaBlock(tiles: TileMap, land: seq<Axial>, per: nat, t: ResourceType)
    requires NoDups(land) && 5 * per <= |land| && t != Water
    requires forall c :: c in land <==> c in tiles && tiles[c] != Water
    ensures |TilesOf(AssignQuotas(tiles, land, per, |land|), t)| == (if t == Desert then |land| - 5 * per else per)
  {
    var lo := QuotaStart(t, per);
    var hi := if t == Desert then |land| else lo + per;
    QuotaBlockInside(tiles, land, per, t, lo, hi);
    QuotaBlockCovers(tiles, land, per, t, lo, hi);
    assert TilesOf(AssignQuotas(tiles, land, per, |land|), t) == set j | lo <= j < hi :: land[j];
    RangeImageCard(land, lo, hi);
  }

  /** Every tile of type t after the assignment is a land entry in t's block. */
  lemma QuotaBlockInside(tiles: TileMap, land: seq<Axial>, per: nat, t: ResourceType, lo: nat, hi: nat)
    requires NoDups(land) && 5 * per <= |land| && t != Water
    requires forall c :: c in land <==> c in tiles && tiles[c] != Water
    requires lo == QuotaStart(t, per) && hi == if t == Desert then |land| else lo + per
    ensures TilesOf(AssignQuotas(tiles, land, per, |land|), t) <= set j | lo <= j < hi :: land[j]
  {
    var after := AssignQuotas(tiles, land, per, |land|);
    AssignQuotasEffect(tiles, land, per, |land|);
    assert land[..|land|] == land;
    forall c | c in TilesOf(after, t) ensures c in set j | lo <= j < hi :: land[j] {
      assert c in land;
      var j :| 0 <= j < |land| && land[j] == c;
      QuotaTypeBlocks(j, per, t);
    }
  }

  /** Every land entry in t's block has type t after the assignment. */
  lemma QuotaBlockCovers(tiles: TileMap, land: seq<Axial>, per: nat, t: ResourceType, lo: nat, hi: nat)
    requires NoDups(land) && 5 * per <= |land| && t != Water
    requires forall c :: c in land ==> c in tiles
    requires lo == QuotaStart(t, per) && hi == if t == Desert then |land| else lo + per
    ensures (set j | lo <= j < hi :: land[j]) <= TilesOf(AssignQuotas(tiles, land, per, |land|), t)
  {
    var after := AssignQuotas(tiles, land, per, |land|);
    AssignQuotasEffect(tiles, land, per, |land|);
    forall j | lo <= j < hi ensures land[j] in TilesOf(after, t) {
      QuotaTypeBlocks(j, per, t);
    }
  }

  /** The assignment leaves the Water tiles as they were. */
  lemma QuotaKeepsWater(tiles: TileMap, land: seq<Axial>, per: nat)
    requires NoDups(land)
    requires forall c :: c in land <==> c in tiles && tiles[c] != Water
    ensures TilesOf(AssignQuotas(tiles, land, per, |land|), Water) == TilesOf(tiles, Water)
  {
    var after := AssignQuotas(tiles, land, per, |land|);
    AssignQuotasEffect(tiles, land, per, |land|);
    assert land[..|land|] == land;
    forall c | c in land ensures after[c] != Water {
      var j :| 0 <= j < |land| && land[j] == c;
    }
  }

  /** Over a land list that holds every non-Water tile once, each of the five resources ends with
      exactly `per` tiles, Desert with everything else, and the Water tiles are untouched. */
  lemma QuotaCounts(tiles: TileMap, land: seq<Axial>, per: nat)
    requires NoDups(land) && 5 * per <= |land|
    requires forall c :: c in land <==> c in tiles && tiles[c] != Water
    ensures var after := AssignQuotas(tiles, land, per, |land|);
      && TilesOf(after, Water) == TilesOf(tiles, Water)
      && |TilesOf(after, Wood)| == per && |TilesOf(after, Brick)| == per
      && |TilesOf(after, Sheep)| == per && |TilesOf(after, Wheat)| == per
      && |TilesOf(after, Ore)| == per
      && |TilesOf(after, Desert)| == |land| - 5 * per
  {
    QuotaKeepsWater(tiles, land, per);
    QuotaBlock(tiles, land, per, Wood);
    QuotaBlock(tiles, land, per, Brick);
    QuotaBlock(tiles, land, per, Sheep);
    QuotaBlock(tiles, land, per, Wheat);
    QuotaBlock(tiles, land, per, Ore);
    QuotaBlock(tiles, land, per, Desert);
  }

  /** The number of non-Water tiles. */
  function LandCount(tiles: TileMap): nat
  {
    |set c | c in tiles && tiles[c] != Water|
  }

  /** AssignResources as a whole: collect the land, shuffle it, and hand out the quotas. Returns
      the dictionary and the draw count after the shuffle. */
  function AssignResourcesSpec(tiles: TileMap, order: seq<Axial>, desertFraction: Fraction,
                               stream: nat -> nat, k: nat): (TileMap, nat)
    requires forall c :: c in order ==> c in tiles
  {
    var land := NonWaterOf(tiles, order);
    var shuffled := ShuffleFrom(land, 0, stream, k);
    (AssignQuotas(tiles, shuffled, PerResource(|land|, desertFraction), |shuffled|), k + |land|)
  }

  /** AssignResourcesSpec in terms of its intermediate values: the land list, its shuffle and
      the quota size. */
  lemma AssignResourcesSpecSteps(tiles: TileMap, order: seq<Axial>, desertFraction: Fraction,
                                 stream: nat -> nat, k: nat, land: seq<Axial>, shuffled: seq<Axial>,
                                 per: nat)
    requires forall c :: c in order ==> c in tiles
    requires land == NonWaterOf(tiles, order) && shuffled == ShuffleFrom(land, 0, stream, k)
    requires per == PerResource(|land|, desertFraction)
    ensures AssignResourcesSpec(tiles, order, desertFraction, stream, k).0
         == AssignQuotas(tiles, shuffled, per, |shuffled|)
    ensures AssignResourcesSpec(tiles, order, desertFraction, stream, k).1 == k + |land|
  {
    AssignResourcesSpecBody(tiles, order, desertFraction, stream, k);
    AssignQuotasCongruent(tiles, ShuffleFrom(NonWaterOf(tiles, order), 0, stream, k), shuffled,
                          PerResource(|NonWaterOf(tiles, order)|, desertFraction), per);
  }

  /** Equal land lists and quota sizes give equal assignments. */
  lemma AssignQuotasCongruent(tiles: TileMap, land: seq<Axial>, land': seq<Axial>, per: nat, per': nat)
    requires land == land' && per == per'
    ensures AssignQuotas(tiles, land, per, |land|) == AssignQuotas(tiles, land', per', |land'|)
  {
  }

  /** AssignResourcesSpec with its local definitions written out. */
  lemma AssignResourcesSpecBody(tiles: TileMap, order: seq<Axial>, desertFraction: Fraction,
                                stream: nat -> nat, k: nat)
    requires forall c :: c in order ==> c in tiles
    ensures AssignResourcesSpec(tiles, order, desertFraction, stream, k).0
         == AssignQuotas(tiles, ShuffleFrom(NonWaterOf(tiles, order), 0, stream, k),
                         PerResource(|NonWaterOf(tiles, order)|, desertFraction),
                         |ShuffleFrom(NonWaterOf(tiles, order), 0, stream, k)|)
    ensures AssignResourcesSpec(tiles, order, desertFraction, stream, k).1 == k + |NonWaterOf(tiles, order)|
  {
  }

  /** The number of tiles each quota resource gets, from the land count and the desert fraction:
      resourceCount / 5 with resourceCount = landCount - RoundToInt(landCount · desertFraction).
      A desert fraction above one can make resourceCount negative; C#'s division then gives a
      perResource of zero or below, and either way every test of the if-chain fails, as with 0. */
  function PerResource(landCount: nat, desertFraction: Fraction): (per: nat)
    ensures 5 * per <= landCount
    ensures desertFraction.num <= desertFraction.den ==>
      5 * per <= landCount - RoundToInt(landCount, desertFraction) < 5 * per + 5
  {
    var resourceCount := landCount - RoundToInt(landCount, desertFraction);
    if resourceCount <= 0 then 0 else resourceCount / 5
  }

  /** AssignResources keeps the key set and the Water tiles, gives each of Wood, Brick, Sheep,
      Wheat and Ore exactly PerResource tiles and every other land tile Desert, so that the land
      count splits as 5·PerResource + Desert. */
  lemma AssignResourcesEffect(tiles: TileMap, order: seq<Axial>, desertFraction: Fraction,
                              stream: nat -> nat, k: nat)
    requires NoDups(order) && forall c :: c in order <==> c in tiles
    ensures var after := AssignResourcesSpec(tiles, order, desertFraction, stream, k).0;
      var per := PerResource(LandCount(tiles), desertFraction);
      && after.Keys == tiles.Keys
      && AssignResourcesSpec(tiles, order, desertFraction, stream, k).1 == k + LandCount(tiles)
      && TilesOf(after, Water) == TilesOf(tiles, Water)
      && |TilesOf(after, Wood)| == per && |TilesOf(after, Brick)| == per
      && |TilesOf(after, Sheep)| == per && |TilesOf(after, Wheat)| == per
      && |TilesOf(after, Ore)| == per
      && |TilesOf(after, Desert)| == LandCount(tiles) - 5 * per
  {
    var land := NonWaterOf(tiles, order);
    var shuffled := ShuffleFrom(land, 0, stream, k);
    ShuffledLand(tiles, order, stream, k);
    var per := PerResource(|land|, desertFraction);
    assert per == PerResource(LandCount(tiles), desertFraction);
    var after := AssignQuotas(tiles, shuffled, per, |shuffled|);
    AssignResourcesSpecSteps(tiles, order, desertFraction, stream, k, land, shuffled, per);
    QuotaCounts(tiles, shuffled, per);
    AssignQuotasEffect(tiles, shuffled, per, |shuffled|);
  }

  /** The shuffled land list names every non-Water tile exactly once. */
  lemma ShuffledLand(tiles: TileMap, order: seq<Axial>, stream: nat -> nat, k: nat)
    requires NoDups(order) && forall c :: c in order <==> c in tiles
    ensures var shuffled := ShuffleFrom(NonWaterOf(tiles, order), 0, stream, k);
      && NoDups(shuffled)
      && (forall c :: c in shuffled <==> c in tiles && tiles[c] != Water)
      && |shuffled| == LandCount(tiles)
  {
    var land := NonWaterOf(tiles, order);
    NonWaterOfExactly(tiles, order);
    var shuffled := ShuffleFrom(land, 0, stream, k);
    ShuffleKeepsKeys(land, stream, k);
    assert Elems(shuffled) == set c | c in tiles && tiles[c] != Water;
    DistinctCard(shuffled);
    assert forall c :: c in shuffled <==> c in Elems(shuffled);
  }
}
