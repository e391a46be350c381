/** SmoothResources, as functions of the tile dictionary: the tally over a tile and its in-map
    neighbours, the choice of the most frequent non-Water type, and one or more passes computed
    from a snapshot. */
module Smoothing {
  import opened Resources
  import opened Seqs
  import opened Hex

  /** The types of the positions of ps that are on the board, in order. */
  function NeighborTypes(tiles: TileMap, ps: seq<Axial>): seq<ResourceType>
  {
    if ps == [] then []
    else
      var p := ps[|ps| - 1];
      NeighborTypes(tiles, ps[..|ps| - 1]) + (if p in tiles then [tiles[p]] else [])
  }

  /** The values counted for one tile, in the order they reach the tally: the tile's own type,
      then each in-map neighbour's type in direction order. */
  function Neighborhood(tiles: TileMap, key: Axial): (s: seq<ResourceType>)
    requires key in tiles
    ensures |s| > 0 && s[0] == tiles[key]
  {
    [tiles[key]] + NeighborTypes(tiles, Neighbors(key))
  }

  /** The number of entries of s equal to t: the tally's count for t. */
  function Occurrences(s: seq<ResourceType>, t: ResourceType): nat
  {
    if s == [] then 0
    else Occurrences(s[..|s| - 1], t) + (if s[|s| - 1] == t then 1 else 0)
  }

  /** A value that does not occur has count zero. */
  lemma {:induction false} OccurrencesAbsent(s: seq<ResourceType>, t: ResourceType)
    requires t !in s
    ensures Occurrences(s, t) == 0
  {
    if s != [] {
      OccurrencesAbsent(s[..|s| - 1], t);
    }
  }

  /** The tally's keys in enumeration order: each distinct value once, by first occurrence. */
  function TallyOrder(s: seq<ResourceType>): seq<ResourceType>
  {
    if s == [] then []
    else
      var keys := TallyOrder(s[..|s| - 1]);
      if s[|s| - 1] in keys then keys else keys + [s[|s| - 1]]
  }

  /** The position of the first occurrence of t in s (an independent view of the tally's order). */
  function FirstIndex(s: seq<ResourceType>, t: ResourceType): (i: nat)
    requires t in s
    ensures i < |s| && s[i] == t && t !in s[..i]
  {
    if s[0] == t then 0
    else
      assert t in s[1..] by { var j :| 0 <= j < |s| && s[j] == t; assert s[1..][j - 1] == t; }
      var i := 1 + FirstIndex(s[1..], t);
      assert s[..i] == [s[0]] + s[1..][..i - 1];
      i
  }

  /** The tally lists every value of s once. */
  lemma {:induction false} TallyOrderKeys(s: seq<ResourceType>)
    ensures NoDups(TallyOrder(s))
    ensures forall t :: t in TallyOrder(s) <==> t in s
  {
    if s != [] {
      var init := s[..|s| - 1];
      assert s == init + [s[|s| - 1]];
      TallyOrderKeys(init);
    }
  }

  /** The tally lists the values of s in order of first occurrence. */
  lemma {:induction false} TallyOrderSorted(s: seq<ResourceType>, i: nat, j: nat)
    requires i < j < |TallyOrder(s)|
    ensures TallyOrder(s)[i] in s && TallyOrder(s)[j] in s
    ensures FirstIndex(s, TallyOrder(s)[i]) < FirstIndex(s, TallyOrder(s)[j])
  {
    TallyOrderKeys(s);
    assert TallyOrder(s)[i] in TallyOrder(s) && TallyOrder(s)[j] in TallyOrder(s);
    var init, x := s[..|s| - 1], s[|s| - 1];
    assert s == init + [x];
    var keys := TallyOrder(init);
    TallyOrderKeys(init);
    assert keys[i] in init;
    FirstIndexOfPrefix(init, x, keys[i]);
    if j < |keys| {
      TallyOrderSorted(init, i, j);
      FirstIndexOfPrefix(init, x, keys[j]);
    } else {
      assert TallyOrder(s)[j] == x && x !in init;
      assert FirstIndex(s, x) == |init| by {
        assert x !in s[..|init|];
      }
    }
  }

  /** Extending a list does not move the first occurrence of a value already in it. */
  lemma FirstIndexOfPrefix(s: seq<ResourceType>, x: ResourceType, t: ResourceType)
    requires t in s
    ensures FirstIndex(s + [x], t) == FirstIndex(s, t)
  {
    var i := FirstIndex(s, t);
    var j := FirstIndex(s + [x], t);
    assert (s + [x])[i] == t;
    assert j <= i;
    assert s[j] == t;
  }

  /** The selection loop over the first entries of keys: the best type and its count so far.
      Water keys are skipped, and a later key replaces the best only with a strictly greater
      count, starting from `fallback` with count -1. */
  function Best(keys: seq<ResourceType>, s: seq<ResourceType>, fallback: ResourceType): (ResourceType, int)
  {
    if keys == [] then (fallback, -1)
    else
      var prev := Best(keys[..|keys| - 1], s, fallback);
      var k := keys[|keys| - 1];
      if k == Water then prev
      else if Occurrences(s, k) > prev.1 then (k, Occurrences(s, k))
      else prev
  }

  /** With no non-Water key the selection keeps the fallback; otherwise it holds a non-Water key
      whose count is the greatest among the non-Water keys. */
  lemma {:induction false} BestIsMaximal(keys: seq<ResourceType>, s: seq<ResourceType>, fallback: ResourceType)
    ensures var b := Best(keys, s, fallback);
      && ((forall k :: k in keys ==> k == Water) ==> b == (fallback, -1))
      && ((exists k :: k in keys && k != Water) ==>
            b.0 in keys && b.0 != Water && b.1 == Occurrences(s, b.0))
      && (forall k :: k in keys && k != Water ==> Occurrences(s, k) <= b.1)
  {
    if keys != [] {
      var init, k := keys[..|keys| - 1], keys[|keys| - 1];
      assert keys == init + [k];
      BestIsMaximal(init, s, fallback);
      if forall k' :: k' in keys ==> k' == Water {
        assert k in keys;
        assert forall k' :: k' in init ==> k' in keys;
      }
    }
  }

  /** No non-Water key before the selected one has the selected count: a later key with an equal
      count never replaces it. */
  lemma {:induction false} BestIsFirst(keys: seq<ResourceType>, s: seq<ResourceType>, fallback: ResourceType,
                                       j: nat)
    requires j < |keys| && keys[j] != Water
    requires Occurrences(s, keys[j]) == Best(keys, s, fallback).1
    ensures Best(keys, s, fallback).0 in keys[..j + 1]
  {
    var init, k := keys[..|keys| - 1], keys[|keys| - 1];
    assert keys == init + [k];
    BestIsMaximal(init, s, fallback);
    var prev := Best(init, s, fallback);
    if j < |init| {
      assert keys[..j + 1] == init[..j + 1];
      assert Occurrences(s, init[j]) <= prev.1;
      BestIsFirst(init, s, fallback, j);
    } else {
      assert keys[..j + 1] == keys;
    }
  }

  /** The type the selection loop settles on for the values s of one tile's tally. */
  function MajorityType(s: seq<ResourceType>): ResourceType
    requires |s| > 0
  {
    Best(TallyOrder(s), s, s[0]).0
  }

  /** For a tally whose first value is not Water, the selected type is a non-Water value of s
      with the greatest count among the non-Water values, and of the values with that count it
      is the one that occurs first in s. These properties determine the result uniquely. */
  lemma MajorityIsFirstMostFrequent(s: seq<ResourceType>)
    requires |s| > 0 && s[0] != Water
    ensures var m := MajorityType(s);
      && m != Water && m in s
      && (forall t :: t in s && t != Water ==> Occurrences(s, t) <= Occurrences(s, m))
      && (forall t :: t in s && t != Water && Occurrences(s, t) == Occurrences(s, m) ==>
            FirstIndex(s, m) <= FirstIndex(s, t))
  {
    var keys := TallyOrder(s);
    TallyOrderKeys(s);
    BestIsMaximal(keys, s, s[0]);
    assert s[0] in keys;
    var m := MajorityType(s);
    forall t | t in s && t != Water && Occurrences(s, t) == Occurrences(s, m)
      ensures FirstIndex(s, m) <= FirstIndex(s, t)
    {
      MajorityComesFirst(s, t);
    }
  }

  /** The tie-break half of MajorityIsFirstMostFrequent, for one competing value t. */
  lemma MajorityComesFirst(s: seq<ResourceType>, t: ResourceType)
    requires |s| > 0 && s[0] != Water
    requires t in s && t != Water
    requires MajorityType(s) in s
    requires Occurrences(s, t) == Occurrences(s, MajorityType(s))
    ensures FirstIndex(s, MajorityType(s)) <= FirstIndex(s, t)
  {
    var keys := TallyOrder(s);
    TallyOrderKeys(s);
    BestIsMaximal(keys, s, s[0]);
    assert s[0] in keys;
    var m := MajorityType(s);
    var j :| 0 <= j < |keys| && keys[j] == t;
    BestIsFirst(keys, s, s[0], j);
    var i :| 0 <= i < j + 1 && keys[..j + 1][i] == m;
    if i < j {
      TallyOrderSorted(s, i, j);
    }
  }

  /** The type a tile receives in one pass over the snapshot `tiles`. */
  function SmoothedType(tiles: TileMap, key: Axial): (t: ResourceType)
    requires key in tiles
    ensures t == Water <==> tiles[key] == Water
  {
    if tiles[key] == Water then Water
    else
      MajorityIsFirstMostFrequent(Neighborhood(tiles, key));
      MajorityType(Neighborhood(tiles, key))
  }

  /** One smoothing pass: every tile's new type is computed from the same snapshot. */
  function SmoothPass(tiles: TileMap): TileMap
  {
    map k | k in tiles :: SmoothedType(tiles, k)
  }

  /** `passes` smoothing passes; a count of zero or less leaves the dictionary as it is. */
  function SmoothTimes(tiles: TileMap, passes: int): TileMap
    decreases passes
  {
    if passes <= 0 then tiles else SmoothPass(SmoothTimes(tiles, passes - 1))
  }

  /** One more pass on top of passes - 1. */
  lemma SmoothTimesUnfold(tiles: TileMap, passes: int)
    requires passes > 0
    ensures SmoothTimes(tiles, passes) == SmoothPass(SmoothTimes(tiles, passes - 1))
  {
  }

  /** Zero or a negative number of passes is the identity. */
  lemma SmoothTimesNone(tiles: TileMap, passes: int)
    ensures passes <= 0 ==> SmoothTimes(tiles, passes) == SmoothTimes(tiles, 0) == tiles
  {
  }

  /** A pass keeps the key set and the Water tiles exactly: Water stays Water and no land tile
      becomes Water. */
  lemma SmoothPassKeepsWater(tiles: TileMap)
    ensures SmoothPass(tiles).Keys == tiles.Keys
    ensures TilesOf(SmoothPass(tiles), Water) == TilesOf(tiles, Water)
  {
  }

  /** Any number of passes keeps the key set and the Water tiles exactly. */
  lemma {:induction false} SmoothTimesKeepsWater(tiles: TileMap, passes: int)
    ensures SmoothTimes(tiles, passes).Keys == tiles.Keys
    ensures TilesOf(SmoothTimes(tiles, passes), Water) == TilesOf(tiles, Water)
    decreases passes
  {
    if passes > 0 {
      SmoothTimesKeepsWater(tiles, passes - 1);
      SmoothTimesStep(tiles, passes);
    }
  }

  /** One more pass keeps what the passes before it kept. */
  lemma SmoothTimesStep(tiles: TileMap, passes: int)
    requires passes > 0
    ensures SmoothTimes(tiles, passes).Keys == SmoothTimes(tiles, passes - 1).Keys
    ensures TilesOf(SmoothTimes(tiles, passes), Water) == TilesOf(SmoothTimes(tiles, passes - 1), Water)
  {
    SmoothPassKeepsWater(SmoothTimes(tiles, passes - 1));
  }

  /** The values counted for a tile are its own type and the types of its in-map neighbours. */
  lemma {:induction false} NeighborTypesExactly(tiles: TileMap, ps: seq<Axial>)
    ensures forall t :: t in NeighborTypes(tiles, ps) <==> exists p :: p in ps && p in tiles && tiles[p] == t
  {
    if ps != [] {
      var init := ps[..|ps| - 1];
      assert ps == init + [ps[|ps| - 1]];
      NeighborTypesExactly(tiles, init);
    }
  }

  /** A board whose land is all of one type t is left as it is by a pass: the tally of every land
      tile holds t and possibly Water, so t wins. */
  lemma UniformLandIsStable(tiles: TileMap, t: ResourceType)
    requires t != Water
    requires forall c :: c in tiles ==> tiles[c] == t || tiles[c] == Water
    ensures SmoothPass(tiles) == tiles
  {
    forall key | key in tiles && tiles[key] != Water ensures SmoothedType(tiles, key) == t {
      var s := Neighborhood(tiles, key);
      NeighborTypesExactly(tiles, Neighbors(key));
      MajorityIsFirstMostFrequent(s);
    }
  }
}
