/*
 * world/room.py: an axis-aligned rectangular room of the dungeon, given by
 * its top-left corner and its size.  Python's `//` is floor division; for
 * the positive divisor used here Dafny's `/` agrees with it.
 */
module Room {

  /** A half-open range of integers lo <= i < hi, as Python's slice(lo, hi). */
  datatype Range = Range(lo: int, hi: int)
  {
    predicate Has(i: int) { lo <= i < hi }
  }

  datatype Room = Room(x: int, y: int, width: int, height: int)
  {
    /** Right edge. */
    function X2(): (r: int)
      ensures r - x == width
    {
      x + width
    }

    /** Bottom edge. */
    function Y2(): (r: int)
      ensures r - y == height
    {
      y + height
    }

    /** The integer midpoint of the two corners, rounded down. */
    function Center(): (c: (int, int))
      ensures 2 * c.0 <= x + X2() < 2 * c.0 + 2
      ensures 2 * c.1 <= y + Y2() < 2 * c.1 + 2
    {
      ((x + X2()) / 2, (y + Y2()) / 2)
    }

    /** The interior slices, walls excluded. */
    function Inner(): (r: (Range, Range))
      ensures r.0.lo == x + 1 && r.0.hi == X2() && r.1.lo == y + 1 && r.1.hi == Y2()
    {
      (Range(x + 1, X2()), Range(y + 1, Y2()))
    }

    /** Closed-interval overlap: rooms that only touch along an edge intersect. */
    predicate Intersects(other: Room)
    {
      x <= other.X2() && X2() >= other.x && y <= other.Y2() && Y2() >= other.y
    }

    /** Strict interior membership. */
    predicate Contains(px: int, py: int)
    {
      x < px < X2() && y < py < Y2()
    }
  }

  /** Overlap does not depend on which room asks. */
  lemma IntersectsSymmetric(a: Room, b: Room)
    ensures a.Intersects(b) <==> b.Intersects(a)
  {
  }

  /** Two rooms sharing only an edge column count as intersecting. */
  lemma TouchingIntersects(a: Room, b: Room)
    requires a.width >= 0 && b.width >= 0 && a.height >= 0 && b.height >= 0
    requires b.x == a.X2() && b.y == a.y
    ensures a.Intersects(b)
  {
  }

  /** A room of non-negative size intersects itself. */
  lemma IntersectsSelf(r: Room)
    requires r.width >= 0 && r.height >= 0
    ensures r.Intersects(r)
  {
  }

  /** Containment is exactly membership in both interior slices. */
  lemma ContainsIffInner(r: Room, px: int, py: int)
    ensures r.Contains(px, py) <==> (r.Inner().0.Has(px) && r.Inner().1.Has(py))
  {
  }

  /** With both sides at least 2, the center is an interior point. */
  lemma CenterContained(r: Room)
    requires r.width >= 2 && r.height >= 2
    ensures r.Contains(r.Center().0, r.Center().1)
  {
    var c := r.Center();
    assert 2 * c.0 <= 2 * r.x + r.width < 2 * c.0 + 2;
    assert 2 * c.1 <= 2 * r.y + r.height < 2 * c.1 + 2;
  }

  /** A point inside a room lies in every room that encloses it. */
  lemma ContainsImpliesIntersects(a: Room, b: Room, px: int, py: int)
    requires a.Contains(px, py) && b.Contains(px, py)
    ensures a.Intersects(b)
  {
  }
}
