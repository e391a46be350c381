/** Axial hex coordinates, the six-neighbour adjacency and the hexagon of a given radius. */
module Hex {
  import opened Resources
  import opened Seqs

  /** An axial coordinate (q, r). */
  datatype Axial = Axial(q: int, r: int)

  /** The tile dictionary: one resource type per coordinate. */
  type TileMap = map<Axial, ResourceType>

  /** The tiles of type t. */
  function TilesOf(tiles: TileMap, t: ResourceType): set<Axial>
  {
    set c | c in tiles && tiles[c] == t
  }

  function Abs(x: int): nat
  {
    if x < 0 then -x else x
  }

  function Max(a: int, b: int): int
  {
    if a < b then b else a
  }

  function Min(a: int, b: int): int
  {
    if a < b then a else b
  }

  const Origin: Axial := Axial(0, 0)

  /** The six direction offsets, in the order GetNeighbors lists them. */
  const Directions: seq<Axial> :=
    [Axial(1, 0), Axial(1, -1), Axial(0, -1), Axial(-1, 0), Axial(-1, 1), Axial(0, 1)]

  function Offset(a: Axial, d: Axial): Axial
  {
    Axial(a.q + d.q, a.r + d.r)
  }

  /** GetNeighbors: the coordinate moved by each direction offset, in direction order.
      The six results are distinct and none is the coordinate itself. */
  function Neighbors(a: Axial): (ns: seq<Axial>)
    ensures |ns| == 6 && NoDups(ns) && a !in ns
  {
    [Offset(a, Directions[0]), Offset(a, Directions[1]), Offset(a, Directions[2]),
     Offset(a, Directions[3]), Offset(a, Directions[4]), Offset(a, Directions[5])]
  }

  /** The number of adjacency steps between two cells (an independent definition of adjacency). */
  function HexDistance(a: Axial, b: Axial): nat
  {
    (Abs(a.q - b.q) + Abs(a.r - b.r) + Abs((a.q + a.r) - (b.q + b.r))) / 2
  }

  /** The hex distance is the largest of the three cube-coordinate differences. */
  lemma DistanceIsLargestDifference(a: Axial, b: Axial)
    ensures HexDistance(a, b)
         == Max(Abs(a.q - b.q), Max(Abs(a.r - b.r), Abs((a.q + a.r) - (b.q + b.r))))
  {
    var dq, dr := a.q - b.q, a.r - b.r;
    if dq >= 0 && dr >= 0 {
      assert Abs(dq + dr) == dq + dr;
    } else if dq < 0 && dr < 0 {
      assert Abs(dq + dr) == -(dq + dr);
    } else if dq >= 0 {
      if dq + dr >= 0 {
        assert Abs(dq) + Abs(dr) + Abs(dq + dr) == 2 * dq;
      } else {
        assert Abs(dq) + Abs(dr) + Abs(dq + dr) == 2 * -dr;
      }
    } else {
      if dq + dr >= 0 {
        assert Abs(dq) + Abs(dr) + Abs(dq + dr) == 2 * dr;
      } else {
        assert Abs(dq) + Abs(dr) + Abs(dq + dr) == 2 * -dq;
      }
    }
  }

  /** The fixed offsets are exactly the cells at hex distance one. */
  lemma NeighborsAtDistanceOne(a: Axial, b: Axial)
    ensures b in Neighbors(a) <==> HexDistance(a, b) == 1
  {
    DistanceIsLargestDifference(a, b);
    var ns := Neighbors(a);
    if HexDistance(a, b) == 1 {
      var dq, dr := b.q - a.q, b.r - a.r;
      assert -1 <= dq <= 1 && -1 <= dr <= 1 && -1 <= dq + dr <= 1;
      if dq == 1 && dr == 0 { assert b == ns[0]; }
      else if dq == 1 && dr == -1 { assert b == ns[1]; }
      else if dq == 0 && dr == -1 { assert b == ns[2]; }
      else if dq == -1 && dr == 0 { assert b == ns[3]; }
      else if dq == -1 && dr == 1 { assert b == ns[4]; }
      else { assert b == ns[5]; }
    }
  }

  /** Adjacency is symmetric: the offset set is closed under negation. */
  lemma AdjacencySymmetric(a: Axial, b: Axial)
    ensures b in Neighbors(a) <==> a in Neighbors(b)
  {
    NeighborsAtDistanceOne(a, b);
    NeighborsAtDistanceOne(b, a);
    assert HexDistance(a, b) == HexDistance(b, a) by {
      assert Abs(a.q - b.q) == Abs(b.q - a.q);
      assert Abs(a.r - b.r) == Abs(b.r - a.r);
      assert Abs((a.q + a.r) - (b.q + b.r)) == Abs((b.q + b.r) - (a.q + a.r));
    }
  }

  /** The cells of the hexagon of the given radius: |q|, |r| and |q+r| all at most radius. */
  predicate InHexagon(c: Axial, radius: int)
  {
    Abs(c.q) <= radius && Abs(c.r) <= radius && Abs(c.q + c.r) <= radius
  }

  /** The hexagon is the ball of the given radius around the origin. */
  lemma HexagonIsDistanceBall(c: Axial, radius: int)
    ensures InHexagon(c, radius) <==> HexDistance(c, Origin) <= radius
  {
    DistanceIsLargestDifference(c, Origin);
  }

  /** The number of cells in the hexagon of the given radius. */
  function HexCount(radius: int): nat
  {
    if radius < 0 then 0 else 3 * radius * radius + 3 * radius + 1
  }

  /** q-major, then r, strict ordering: the order in which the grid loop adds coordinates. */
  predicate LexLess(a: Axial, b: Axial)
  {
    a.q < b.q || (a.q == b.q && a.r < b.r)
  }

  predicate LexSorted(s: seq<Axial>)
  {
    forall i, j :: 0 <= i < j < |s| ==> LexLess(s[i], s[j])
  }

  /** The lowest and highest r of row q in the grid loop (Mathf.Max / Mathf.Min bounds). */
  function RowStart(radius: int, q: int): int
  {
    Max(-radius, -q - radius)
  }

  function RowEnd(radius: int, q: int): int
  {
    Min(radius, -q + radius)
  }

  /** A cell of row q lies in the hexagon exactly when its r is within the row's bounds. */
  lemma RowBoundsAreHexagon(radius: int, c: Axial)
    requires -radius <= c.q <= radius
    ensures InHexagon(c, radius) <==> RowStart(radius, c.q) <= c.r <= RowEnd(radius, c.q)
  {
  }

  /** The number of cells the grid loop adds in rows -radius .. q-1. */
  function RowsBefore(radius: int, q: int): nat
    requires 0 <= radius && -radius <= q <= radius + 1
    decreases q + radius
  {
    if q == -radius then 0
    else RowsBefore(radius, q - 1) + (RowEnd(radius, q - 1) - RowStart(radius, q - 1) + 1)
  }

  /** Rows -radius .. q-1 with q <= 1 hold radius+1, radius+2, ... cells. */
  lemma {:induction false} RowsBeforeLowerHalf(radius: int, q: int)
    requires 0 <= radius && -radius <= q <= 1
    ensures 2 * RowsBefore(radius, q) == 2 * (q + radius) * (radius + 1) + (q + radius) * (q + radius - 1)
    decreases q + radius
  {
    if q > -radius {
      RowsBeforeLowerHalf(radius, q - 1);
      var m := q + radius;
      assert RowEnd(radius, q - 1) - RowStart(radius, q - 1) + 1 == radius + m;
      LowerRowStep(m, radius);
    }
  }

  /** Rows 1 .. q-1 hold 2·radius, 2·radius-1, ... cells. */
  lemma {:induction false} RowsBeforeUpperHalf(radius: int, q: int)
    requires 0 <= radius && 1 <= q <= radius + 1
    ensures 2 * RowsBefore(radius, q)
         == 2 * (radius + 1) * (radius + 1) + (radius + 1) * radius + 2 * (q - 1) * (2 * radius + 1) - (q - 1) * q
    decreases q
  {
    if q == 1 {
      RowsBeforeLowerHalf(radius, 1);
    } else {
      RowsBeforeUpperHalf(radius, q - 1);
      var j := q - 1;
      assert RowEnd(radius, q - 1) - RowStart(radius, q - 1) + 1 == 2 * radius + 1 - j;
      UpperRowStep(j, radius);
    }
  }

  /** All 2·radius+1 rows together hold 3·radius² + 3·radius + 1 cells. */
  lemma GridCount(radius: int)
    requires 0 <= radius
    ensures RowsBefore(radius, radius + 1) == HexCount(radius)
  {
    RowsBeforeUpperHalf(radius, radius + 1);
    TotalRows(radius);
  }

  /** Row q of the grid loop: r running from RowStart to RowEnd, which is exactly the column q
      of the hexagon, in increasing r. */
  function Row(radius: int, q: int): (row: seq<Axial>)
    requires -radius <= q <= radius
    ensures |row| == RowEnd(radius, q) - RowStart(radius, q) + 1
    ensures forall c :: c in row <==> c.q == q && InHexagon(c, radius)
    ensures forall j :: 0 <= j < |row| ==> row[j].q == q && row[j].r == row[0].r + j
    ensures |row| > 0 && row[0].r == RowStart(radius, q)
    ensures LexSorted(row)
  {
    var lo := RowStart(radius, q);
    var row := seq(RowEnd(radius, q) - lo + 1, j => Axial(q, lo + j));
    assert forall c: Axial :: c.q == q && InHexagon(c, radius) ==> row[c.r - lo] == c;
    row
  }

  /** The coordinates the grid loop adds in rows -radius .. q-1, in the order it adds them. */
  function GridRows(radius: int, q: int): seq<Axial>
    requires 0 <= radius && -radius <= q <= radius + 1
    decreases q + radius
  {
    if q == -radius then [] else GridRows(radius, q - 1) + Row(radius, q - 1)
  }

  /** Rows -radius .. q-1 hold exactly the hexagon cells with those q, sorted, RowsBefore of them. */
  lemma {:induction false} GridRowsExactly(radius: int, q: int)
    requires 0 <= radius && -radius <= q <= radius + 1
    ensures forall c :: c in GridRows(radius, q) <==> -radius <= c.q < q && InHexagon(c, radius)
    ensures LexSorted(GridRows(radius, q))
    ensures |GridRows(radius, q)| == RowsBefore(radius, q)
    decreases q + radius
  {
    if q > -radius {
      GridRowsExactly(radius, q - 1);
      SortedRowsJoin(GridRows(radius, q - 1), Row(radius, q - 1), q - 1);
    }
  }

  /** Sorted rows before row q followed by a sorted row q stay sorted. */
  lemma SortedRowsJoin(init: seq<Axial>, row: seq<Axial>, q: int)
    requires LexSorted(init) && forall c :: c in init ==> c.q < q
    requires forall j :: 0 <= j < |row| ==> row[j].q == q && row[j].r == row[0].r + j
    ensures LexSorted(init + row)
  {
    var s := init + row;
    forall i, j | 0 <= i < j < |s| ensures LexLess(s[i], s[j]) {
      if j < |init| {
      } else if i < |init| {
        assert s[i] in init;
      }
    }
  }

  /** The whole key list of the grid loop; for a negative radius the loop adds nothing. */
  function GridOrder(radius: int): seq<Axial>
  {
    if radius < 0 then [] else GridRows(radius, radius + 1)
  }

  /** The grid loop enumerates exactly the hexagon of the given radius, each cell once, in
      q-major order, 3·radius² + 3·radius + 1 cells in all. */
  lemma GridOrderIsHexagon(radius: int)
    ensures forall c :: c in GridOrder(radius) <==> InHexagon(c, radius)
    ensures LexSorted(GridOrder(radius)) && NoDups(GridOrder(radius))
    ensures |GridOrder(radius)| == HexCount(radius)
  {
    if radius >= 0 {
      GridRowsExactly(radius, radius + 1);
      GridCount(radius);
    }
    assert LexSorted(GridOrder(radius));
    forall i, j | 0 <= i < j < |GridOrder(radius)| ensures GridOrder(radius)[i] != GridOrder(radius)[j] {
      assert LexLess(GridOrder(radius)[i], GridOrder(radius)[j]);
    }
  }

  lemma LowerRowStep(m: int, radius: int)
    ensures 2 * (m - 1) * (radius + 1) + (m - 1) * (m - 2) + 2 * (radius + m)
         == 2 * m * (radius + 1) + m * (m - 1)
  {
  }

  lemma UpperRowStep(j: int, radius: int)
    ensures 2 * (j - 1) * (2 * radius + 1) - (j - 1) * j + 2 * (2 * radius + 1 - j)
         == 2 * j * (2 * radius + 1) - j * (j + 1)
  {
  }

  lemma TotalRows(radius: int)
    ensures 2 * (radius + 1) * (radius + 1) + (radius + 1) * radius + 2 * radius * (2 * radius + 1) - radius * (radius + 1)
         == 2 * (3 * radius * radius + 3 * radius + 1)
  {
  }
}
