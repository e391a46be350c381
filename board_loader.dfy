/** BoardLoader: cutting the board array out of the server's game-state JSON, the wrapper string
    handed to the JSON parser, the recognition of resource names, and the tiles BuildBoard
    places. */
module BoardLoader {
  import opened Resources
  import opened Hex

  datatype Option<T> = None | Some(value: T)

  datatype Result<T, E> = Ok(value: T) | Err(error: E)

  /** Substring was given a negative length: no ']' follows the key. */
  datatype ExtractError = NoClosingBracket

  /** pat occurs in s at position i. */
  predicate OccursAt(s: string, pat: string, i: int)
  {
    0 <= i && i + |pat| <= |s| && s[i..i + |pat|] == pat
  }

  /** i is the first position at or after `from` where pat occurs. */
  predicate FirstAt(s: string, pat: string, from: int, i: int)
  {
    from <= i && OccursAt(s, pat, i) && forall j :: from <= j < i ==> !OccursAt(s, pat, j)
  }

  /** String.IndexOf(pat, from), compared character by character: the first position at or after
      `from` where pat occurs, or -1 when there is none. */
  function IndexOf(s: string, pat: string, from: nat): (r: int)
    requires from <= |s|
    ensures r == -1 || FirstAt(s, pat, from, r)
    ensures r == -1 <==> forall j :: from <= j ==> !OccursAt(s, pat, j)
    decreases |s| - from
  {
    if from + |pat| > |s| then -1
    else if s[from..from + |pat|] == pat then from
    else IndexOf(s, pat, from + 1)
  }

  /** The key searched for: "board": with its quotes, eight characters. */
  const BoardKey: string := "\"board\":"

  /** A board array as ExtractBoardJson cuts it: it ends in ']' and holds no earlier ']'. */
  predicate EndsAtFirstBracket(x: string)
  {
    |x| > 0 && x[|x| - 1] == ']' && forall j :: 0 <= j < |x| - 1 ==> x[j] != ']'
  }

  /** ExtractBoardJson: "[]" when the key does not occur; otherwise the text from just after the
      key's first occurrence up to and including the first ']' after it, or an error when no ']'
      follows (Substring with the negative length end - start + 1). */
  function ExtractBoardJson(fullJson: string): (r: Result<string, ExtractError>)
    ensures r.Ok? ==> EndsAtFirstBracket(r.value)
  {
    var found := IndexOf(fullJson, BoardKey, 0);
    if found < 0 then Ok("[]")
    else
      var start := found + 8;
      var end := IndexOf(fullJson, "]", start);
      if end - start + 1 < 0 then Err(NoClosingBracket)
      else
        ClosingBracket(fullJson, start, end);
        Ok(fullJson[start..end + 1])
  }

  /** Without the key the result is "[]". */
  lemma ExtractWithoutKey(fullJson: string)
    requires forall i :: !OccursAt(fullJson, BoardKey, i)
    ensures ExtractBoardJson(fullJson) == Ok("[]")
  {
  }

  /** With the key first occurring at k, extraction fails exactly when no ']' follows the key,
      and otherwise returns the text that starts right after the key and runs to the first ']'
      after it. */
  lemma ExtractAfterKey(fullJson: string, k: nat)
    requires FirstAt(fullJson, BoardKey, 0, k)
    ensures var r := ExtractBoardJson(fullJson);
      && (r.Err? <==> forall j :: k + |BoardKey| <= j < |fullJson| ==> fullJson[j] != ']')
      && (r.Ok? ==>
            && k + |BoardKey| + |r.value| <= |fullJson|
            && r.value == fullJson[k + |BoardKey|..k + |BoardKey| + |r.value|]
            && EndsAtFirstBracket(r.value)
            && fullJson[k + |BoardKey| + |r.value| - 1] == ']'
            && forall j :: k + |BoardKey| <= j < k + |BoardKey| + |r.value| - 1 ==> fullJson[j] != ']')
  {
    var found := IndexOf(fullJson, BoardKey, 0);
    assert OccursAt(fullJson, BoardKey, k);
    assert found == k;
    ClosingBracket(fullJson, k + 8, IndexOf(fullJson, "]", k + 8));
  }

  /** The first ']' at or after start, read off IndexOf's result. */
  lemma ClosingBracket(s: string, start: nat, end: int)
    requires start <= |s| && end == IndexOf(s, "]", start)
    ensures end == -1 <==> forall j :: start <= j < |s| ==> s[j] != ']'
    ensures end != -1 ==> start <= end < |s| && s[end] == ']' && forall j :: start <= j < end ==> s[j] != ']'
    ensures end != -1 ==> EndsAtFirstBracket(s[start..end + 1])
  {
    if end == -1 {
      forall j | start <= j < |s| ensures s[j] != ']' {
        assert !OccursAt(s, "]", j);
        assert s[j..j + 1] == [s[j]];
      }
    } else {
      assert s[end..end + 1] == "]";
      assert s[end] == s[end..end + 1][0];
      forall j | start <= j < end ensures s[j] != ']' {
        assert !OccursAt(s, "]", j);
        assert s[j..j + 1] == [s[j]];
      }
      var x := s[start..end + 1];
      forall j | 0 <= j < |x| - 1 ensures x[j] != ']' {
        assert x[j] == s[start + j];
      }
    }
  }

  /** The string BuildBoard hands to the JSON parser: the extracted array wrapped as the value of
      a "board" field. */
  function WrapperJson(boardJson: string): (w: string)
    ensures |w| == |boardJson| + 10
    ensures w[..9] == "{" + BoardKey && w[9..9 + |boardJson|] == boardJson && w[|w| - 1] == '}'
  {
    "{\"board\":" + boardJson + "}"
  }

  /** Whatever ExtractBoardJson returns, extracting again from its wrapper gives it back: the
      wrapper puts the key first and the array's closing ']' is the first one after it. */
  lemma WrapperRoundTrip(fullJson: string)
    requires ExtractBoardJson(fullJson).Ok?
    ensures var x := ExtractBoardJson(fullJson).value;
      ExtractBoardJson(WrapperJson(x)) == Ok(x)
  {
    var x := ExtractBoardJson(fullJson).value;
    WrapperExtracts(x);
  }

  /** A text ending in its only ']' is recovered from its wrapper. */
  lemma WrapperExtracts(x: string)
    requires EndsAtFirstBracket(x)
    ensures ExtractBoardJson(WrapperJson(x)) == Ok(x)
  {
    var w := WrapperJson(x);
    assert OccursAt(w, BoardKey, 1) by {
      assert w[1..9] == BoardKey;
    }
    assert !OccursAt(w, BoardKey, 0) by {
      assert w[0] == '{';
    }
    assert FirstAt(w, BoardKey, 0, 1);
    forall j | 9 <= j < 9 + |x| - 1 ensures w[j] != ']' {
      assert w[j] == x[j - 9];
    }
    assert w[9 + |x| - 1] == ']';
    ExtractAfterKey(w, 1);
    var y := ExtractBoardJson(w).value;
    assert |y| == |x|;
    assert w[9..9 + |x|] == x;
  }

  /** The enum member names, as the server spells resource types. */
  function ResourceName(t: ResourceType): string
  {
    match t
    case Wood => "Wood"
    case Brick => "Brick"
    case Sheep => "Sheep"
    case Wheat => "Wheat"
    case Ore => "Ore"
    case Desert => "Desert"
    case Water => "Water"
  }

  /** The switch in GetPrefab: the resource type a name selects, if any. */
  function ParseResource(name: string): Option<ResourceType>
  {
    if name == "Wood" then Some(Wood)
    else if name == "Brick" then Some(Brick)
    else if name == "Sheep" then Some(Sheep)
    else if name == "Wheat" then Some(Wheat)
    else if name == "Ore" then Some(Ore)
    else if name == "Desert" then Some(Desert)
    else if name == "Water" then Some(Water)
    else None
  }

  /** GetPrefab recognises exactly the seven member names: a name selects t precisely when it is
      t's name, and every other string selects nothing. */
  lemma ParseResourceIsNameInverse(name: string, t: ResourceType)
    ensures ParseResource(name) == Some(t) <==> ResourceName(t) == name
    ensures ParseResource(name) == None <==> forall u :: ResourceName(u) != name
  {
    if ParseResource(name) == None {
      forall u ensures ResourceName(u) != name {
        match u
        case Wood => assert name != "Wood";
        case Brick => assert name != "Brick";
        case Sheep => assert name != "Sheep";
        case Wheat => assert name != "Wheat";
        case Ore => assert name != "Ore";
        case Desert => assert name != "Desert";
        case Water => assert name != "Water";
      }
    } else {
      assert ResourceName(ParseResource(name).value) == name;
    }
  }

  /** A tile record of the board array. */
  datatype TileData = TileData(q: int, r: int, typeName: string)

  /** A tile BuildBoard instantiates: its coordinate and the type of its prefab. */
  datatype Placement = Placement(at: Axial, kind: ResourceType)

  /** GetPrefab: the prefab for a name, present when the name is recognised and that prefab field
      is assigned. */
  function GetPrefab(name: string, withPrefab: set<ResourceType>): Option<ResourceType>
  {
    match ParseResource(name)
    case Some(t) => if t in withPrefab then Some(t) else None
    case None => None
  }

  /** GetPrefab finds a prefab for a name exactly when the name is the member name of a type
      whose prefab field is assigned. */
  lemma GetPrefabFindsAssigned(name: string, withPrefab: set<ResourceType>, t: ResourceType)
    ensures GetPrefab(name, withPrefab) == Some(t) <==> ResourceName(t) == name && t in withPrefab
  {
    ParseResourceIsNameInverse(name, t);
  }

  /** The placements for a list of tile records: in order, each record whose prefab is found,
      the others skipped. */
  function Placements(tiles: seq<TileData>, withPrefab: set<ResourceType>): seq<Placement>
  {
    if tiles == [] then []
    else
      var t := tiles[|tiles| - 1];
      Placements(tiles[..|tiles| - 1], withPrefab)
        + match GetPrefab(t.typeName, withPrefab)
          case Some(kind) => [Placement(Axial(t.q, t.r), kind)]
          case None => []
  }

  /** Every placement comes from a record whose name is the placed type's member name and whose
      prefab field is assigned, every such record is placed, and no more placements than records. */
  lemma {:induction false} PlacementsExactly(tiles: seq<TileData>, withPrefab: set<ResourceType>)
    ensures |Placements(tiles, withPrefab)| <= |tiles|
    ensures forall p :: p in Placements(tiles, withPrefab) <==>
      exists i :: 0 <= i < |tiles| && p.kind in withPrefab && ResourceName(p.kind) == tiles[i].typeName
                  && p.at == Axial(tiles[i].q, tiles[i].r)
  {
    if tiles != [] {
      var init, t := tiles[..|tiles| - 1], tiles[|tiles| - 1];
      PlacementsExactly(init, withPrefab);
      forall p ensures p in Placements(tiles, withPrefab) <==>
        exists i :: 0 <= i < |tiles| && p.kind in withPrefab && ResourceName(p.kind) == tiles[i].typeName
                    && p.at == Axial(tiles[i].q, tiles[i].r)
      {
        ParseResourceIsNameInverse(t.typeName, p.kind);
        if exists i :: 0 <= i < |tiles| && p.kind in withPrefab && ResourceName(p.kind) == tiles[i].typeName
                       && p.at == Axial(tiles[i].q, tiles[i].r) {
          var i :| 0 <= i < |tiles| && p.kind in withPrefab && ResourceName(p.kind) == tiles[i].typeName
                   && p.at == Axial(tiles[i].q, tiles[i].r);
          if i < |init| {
            assert init[i] == tiles[i];
          }
        }
        if p in Placements(init, withPrefab) {
          var i :| 0 <= i < |init| && p.kind in withPrefab && ResourceName(p.kind) == init[i].typeName
                   && p.at == Axial(init[i].q, init[i].r);
          assert tiles[i] == init[i];
        }
      }
    }
  }

  /** The board loader: the types whose prefab fields are assigned, and the tiles it has placed. */
  class Loader {
    const withPrefab: set<ResourceType>
    var placed: seq<Placement>

    constructor (withPrefab: set<ResourceType>)
      ensures this.withPrefab == withPrefab && placed == []
    {
      this.withPrefab := withPrefab;
      placed := [];
    }

    /** BuildBoard: extract the board array, parse its wrapper (JsonUtility.FromJson is the
        parameter `parse`, None when it fails), remove the placed tiles and place one per record
        whose prefab is found. When extraction or parsing fails nothing changes. */
    method BuildBoard(json: string, parse: string -> Option<seq<TileData>>) returns (ok: bool)
      modifies this
      ensures var extracted := ExtractBoardJson(json);
        ok <==> extracted.Ok? && parse(WrapperJson(extracted.value)).Some?
      ensures ok ==> placed == Placements(parse(WrapperJson(ExtractBoardJson(json).value)).value, withPrefab)
      ensures !ok ==> placed == old(placed)
    {
      var extracted := ExtractBoardJson(json);
      if extracted.Err? {
        return false;
      }
      var wrapper := parse(WrapperJson(extracted.value));
      if wrapper.None? {
        return false;
      }
      var tiles := wrapper.value;
      placed := [];
      for i := 0 to |tiles|
        invariant placed == Placements(tiles[..i], withPrefab)
      {
        var t := tiles[i];
        var prefab := GetPrefab(t.typeName, withPrefab);
        if prefab.Some? {
          placed := placed + [Placement(Axial(t.q, t.r), prefab.value)];
        }
        assert tiles[..i + 1][..i] == tiles[..i];
      }
      assert tiles[..|tiles|] == tiles;
      ok := true;
    }
  }
}
