/*
 * systems/fov.py, FOV._get_line and FOV.has_line_of_sight: the integer
 * Bresenham line between two cells and the line-of-sight test built on it.
 * The shadow-casting field of view (compute, _cast_light, compute_simple)
 * works on floating-point slopes and angles and is not part of this model.
 *
 * The specification of the line is LinePoints, a recursive function over
 * the distance still to cover in each axis, rx and ry, with the error term
 * of the loop as an argument.  Its precondition is the invariant of the
 * Python loop: err = dx - dy + rx * dy - ry * dx.
 */
module Fov {
  import Zone

  function Abs(n: int): (r: nat)
    ensures r == n || r == -n
  {
    if n < 0 then -n else n
  }

  /** The step direction of _get_line: 1 towards a larger target, -1 otherwise (also when equal). */
  function Sign(a: int, b: int): int
  {
    if a < b then 1 else -1
  }

  /** The coordinate `r` steps before target t when moving in direction s. */
  function Back(t: int, s: int, r: int): int
  {
    if s > 0 then t - r else t + r
  }

  /**
   * a * b as repeated addition.  The invariant below is stated with it so
   * that the solver meets a product only where MulIsProduct is called.
   */
  function Mul(a: nat, b: int): int
  {
    if a == 0 then 0 else b + Mul(a - 1, b)
  }

  lemma {:induction false} MulIsProduct(a: nat, b: int)
    ensures Mul(a, b) == a * b
  {
    if a > 0 {
      MulIsProduct(a - 1, b);
    }
  }

  /** The invariant that the loop's error term keeps, in terms of the distance left. */
  predicate ErrInvariant(dx: int, dy: int, rx: nat, ry: nat, err: int)
  {
    0 <= dx && 0 <= dy && rx <= dx && ry <= dy && err == dx - dy + Mul(rx, dy) - Mul(ry, dx)
  }

  /** With y done, the error term rules out another x-step only when x is done too, and conversely. */
  lemma ErrBounds(dx: int, dy: int, rx: nat, ry: nat, err: int)
    requires ErrInvariant(dx, dy, rx, ry, err)
    ensures rx == 0 && ry > 0 ==> !(2 * err > -dy)
    ensures ry == 0 && rx > 0 ==> !(2 * err < dx)
    ensures rx > 0 || ry > 0 ==> (2 * err > -dy || 2 * err < dx)
  {
    MulIsProduct(ry, dx);
    MulIsProduct(rx, dy);
    if ry > 0 {
      assert ry * dx >= dx;
    }
    if rx > 0 {
      assert rx * dy >= dy;
    }
  }

  /** One pass of the loop body: which axes step, and the new error term. */
  function StepErr(dx: int, dy: int, err: int): (r: (bool, bool, int))
    ensures r.2 == err - (if r.0 then dy else 0) + (if r.1 then dx else 0)
  {
    var e2 := 2 * err;
    var stepX := e2 > -dy;
    var stepY := e2 < dx;
    (stepX, stepY, err - (if stepX then dy else 0) + (if stepY then dx else 0))
  }

  /** The distances left and the error term after one pass of the loop. */
  function Next(dx: int, dy: int, rx: nat, ry: nat, err: int): (n: (nat, nat, int))
    requires ErrInvariant(dx, dy, rx, ry, err) && (rx > 0 || ry > 0)
    ensures ErrInvariant(dx, dy, n.0, n.1, n.2)
    ensures n.0 + n.1 < rx + ry
  {
    ErrBounds(dx, dy, rx, ry, err);
    var s := StepErr(dx, dy, err);
    var rx': nat := if s.0 then rx - 1 else rx;
    var ry': nat := if s.1 then ry - 1 else ry;
    (rx', ry', s.2)
  }

  /** The points _get_line appends from the cell rx, ry short of the target onwards. */
  function LinePoints(x2: int, y2: int, dx: int, dy: int, sx: int, sy: int, rx: nat, ry: nat, err: int): (pts: seq<(int, int)>)
    requires ErrInvariant(dx, dy, rx, ry, err)
    decreases rx + ry
  {
    var p := (Back(x2, sx, rx), Back(y2, sy, ry));
    if rx == 0 && ry == 0 then [p]
    else
      var n := Next(dx, dy, rx, ry, err);
      [p] + LinePoints(x2, y2, dx, dy, sx, sy, n.0, n.1, n.2)
  }

  /** The Bresenham line from (x1, y1) to (x2, y2), as _get_line returns it. */
  function Line(x1: int, y1: int, x2: int, y2: int): seq<(int, int)>
  {
    var dx, dy := Abs(x2 - x1), Abs(y2 - y1);
    MulIsProduct(dx, dy);
    MulIsProduct(dy, dx);
    LinePoints(x2, y2, dx, dy, Sign(x1, x2), Sign(y1, y2), dx, dy, dx - dy)
  }

  /** Line is LinePoints from the full distances, whose error term starts at dx - dy. */
  lemma LineStart(x1: int, y1: int, x2: int, y2: int)
    ensures var dx, dy := Abs(x2 - x1), Abs(y2 - y1);
      ErrInvariant(dx, dy, dx, dy, dx - dy) &&
      Line(x1, y1, x2, y2) == LinePoints(x2, y2, dx, dy, Sign(x1, x2), Sign(y1, y2), dx, dy, dx - dy)
  {
    MulIsProduct(Abs(x2 - x1), Abs(y2 - y1));
    MulIsProduct(Abs(y2 - y1), Abs(x2 - x1));
  }

  /**
   * Away from the target, LinePoints is the current point followed by the
   * points after one pass of the loop, which moves to (rx', ry', err').
   */
  lemma LinePointsStep(x2: int, y2: int, dx: int, dy: int, sx: int, sy: int, rx: nat, ry: nat, err: int)
      returns (rx': nat, ry': nat, err': int)
    requires ErrInvariant(dx, dy, rx, ry, err) && (rx > 0 || ry > 0)
    ensures var s := StepErr(dx, dy, err);
      rx' == (if s.0 then rx - 1 else rx) && ry' == (if s.1 then ry - 1 else ry) && err' == s.2
    ensures ErrInvariant(dx, dy, rx', ry', err')
    ensures LinePoints(x2, y2, dx, dy, sx, sy, rx, ry, err) ==
      [(Back(x2, sx, rx), Back(y2, sy, ry))] + LinePoints(x2, y2, dx, dy, sx, sy, rx', ry', err')
  {
    var n := Next(dx, dy, rx, ry, err);
    rx', ry', err' := n.0, n.1, n.2;
  }

  lemma AppendShift<T>(before: seq<T>, p: T, after: seq<T>)
    ensures (before + [p]) + after == before + ([p] + after)
  {
  }

  /** _get_line, with its `while True` loop, appending one cell per pass. */
  method GetLine(x1: int, y1: int, x2: int, y2: int) returns (points: seq<(int, int)>)
    ensures points == Line(x1, y1, x2, y2)
  {
    var dx: int, dy: int := Abs(x2 - x1), Abs(y2 - y1);
    var sx := if x1 < x2 then 1 else -1;
    var sy := if y1 < y2 then 1 else -1;
    var err := dx - dy;
    var x, y := x1, y1;
    ghost var rx: nat, ry: nat := dx, dy;
    LineStart(x1, y1, x2, y2);
    ghost var whole := Line(x1, y1, x2, y2);
    points := [];
    while true
      invariant ErrInvariant(dx, dy, rx, ry, err)
      invariant x == Back(x2, sx, rx) && y == Back(y2, sy, ry)
      invariant points + LinePoints(x2, y2, dx, dy, sx, sy, rx, ry, err) == whole
      decreases rx + ry
    {
      ghost var before := points;
      points := points + [(x, y)];
      if x == x2 && y == y2 {
        break;
      }
      ghost var rx', ry', err' := LinePointsStep(x2, y2, dx, dy, sx, sy, rx, ry, err);
      ghost var after := LinePoints(x2, y2, dx, dy, sx, sy, rx', ry', err');
      AppendShift(before, (x, y), after);
      var step := StepErr(dx, dy, err);
      if step.0 {
        x := x + sx;
      }
      if step.1 {
        y := y + sy;
      }
      err := step.2;
      rx, ry := rx', ry';
    }
  }

  /** Each coordinate stays put or moves one cell towards its target value. */
  predicate Toward(a: int, b: int, t: int)
  {
    b == a || (a < t && b == a + 1) || (a > t && b == a - 1)
  }

  /** The points from rx, ry short of the target start there, end at the target and step towards it. */
  lemma {:induction false} LinePointsShape(x2: int, y2: int, dx: int, dy: int, sx: int, sy: int, rx: nat, ry: nat, err: int)
    requires ErrInvariant(dx, dy, rx, ry, err)
    requires sx == 1 || sx == -1
    requires sy == 1 || sy == -1
    requires dx > 0 ==> (sx > 0 <==> Back(x2, sx, dx) < x2)
    requires dy > 0 ==> (sy > 0 <==> Back(y2, sy, dy) < y2)
    ensures var pts := LinePoints(x2, y2, dx, dy, sx, sy, rx, ry, err);
      |pts| >= 1 && pts[0] == (Back(x2, sx, rx), Back(y2, sy, ry)) && pts[|pts| - 1] == (x2, y2) &&
      forall i | 0 <= i < |pts| - 1 :: Toward(pts[i].0, pts[i + 1].0, x2) && Toward(pts[i].1, pts[i + 1].1, y2)
    decreases rx + ry
  {
    var pts := LinePoints(x2, y2, dx, dy, sx, sy, rx, ry, err);
    if rx == 0 && ry == 0 {
    } else {
      var n := Next(dx, dy, rx, ry, err);
      var rest := LinePoints(x2, y2, dx, dy, sx, sy, n.0, n.1, n.2);
      assert pts == [pts[0]] + rest;
      LinePointsShape(x2, y2, dx, dy, sx, sy, n.0, n.1, n.2);
      assert Toward(pts[0].0, rest[0].0, x2) && Toward(pts[0].1, rest[0].1, y2);
      forall i | 0 <= i < |pts| - 1
        ensures Toward(pts[i].0, pts[i + 1].0, x2) && Toward(pts[i].1, pts[i + 1].1, y2)
      {
        if i > 0 {
          assert pts[i] == rest[i - 1] && pts[i + 1] == rest[i];
        }
      }
    }
  }

  /**
   * The line starts at (x1, y1), ends at (x2, y2), and between successive
   * points each coordinate stays or moves by one towards the target.
   */
  lemma LineShape(x1: int, y1: int, x2: int, y2: int)
    ensures var pts := Line(x1, y1, x2, y2);
      |pts| >= 1 && pts[0] == (x1, y1) && pts[|pts| - 1] == (x2, y2) &&
      forall i | 0 <= i < |pts| - 1 :: Toward(pts[i].0, pts[i + 1].0, x2) && Toward(pts[i].1, pts[i + 1].1, y2)
  {
    var dx: int, dy: int := Abs(x2 - x1), Abs(y2 - y1);
    LineStart(x1, y1, x2, y2);
    LinePointsShape(x2, y2, dx, dy, Sign(x1, x2), Sign(y1, y2), dx, dy, dx - dy);
  }

  /** The interior of a line: Python's points[1:-1], empty for a line of one or two points. */
  function Interior(pts: seq<(int, int)>): seq<(int, int)>
  {
    if |pts| <= 2 then [] else pts[1..|pts| - 1]
  }

  /** has_line_of_sight: false exactly when some interior point of the line is not transparent. */
  method HasLineOfSight(zone: Zone.Zone, x1: int, y1: int, x2: int, y2: int) returns (clear: bool)
    requires zone.Valid()
    ensures clear <==> forall i | 0 <= i < |Interior(Line(x1, y1, x2, y2))| ::
      zone.IsTransparent(Interior(Line(x1, y1, x2, y2))[i].0, Interior(Line(x1, y1, x2, y2))[i].1)
  {
    var points := GetLine(x1, y1, x2, y2);
    var inner := if |points| <= 2 then [] else points[1..|points| - 1];
    assert inner == Interior(Line(x1, y1, x2, y2));
    var i := 0;
    while i < |inner|
      invariant 0 <= i <= |inner|
      invariant forall j | 0 <= j < i :: zone.IsTransparent(inner[j].0, inner[j].1)
    {
      if !zone.IsTransparent(inner[i].0, inner[i].1) {
        return false;
      }
      i := i + 1;
    }
    return true;
  }

  /** At the target LinePoints is the target alone. */
  lemma LastPoint(x2: int, y2: int, dx: int, dy: int, sx: int, sy: int, err: int)
    requires ErrInvariant(dx, dy, 0, 0, err)
    ensures |LinePoints(x2, y2, dx, dy, sx, sy, 0, 0, err)| == 1
  {
  }

  /** From at most one cell away in each axis the loop takes at most one pass. */
  lemma ShortLine(x2: int, y2: int, dx: int, dy: int, sx: int, sy: int)
    requires 0 <= dx <= 1 && 0 <= dy <= 1 && ErrInvariant(dx, dy, dx, dy, dx - dy)
    ensures |LinePoints(x2, y2, dx, dy, sx, sy, dx, dy, dx - dy)| <= 2
  {
    if dx > 0 || dy > 0 {
      var s := StepErr(dx, dy, dx - dy);
      assert s.0 == (dx == 1) && s.1 == (dy == 1);
      var rx', ry', err' := LinePointsStep(x2, y2, dx, dy, sx, sy, dx, dy, dx - dy);
      LastPoint(x2, y2, dx, dy, sx, sy, err');
    }
  }

  /** Cells that are equal or touch (diagonals included) always see each other: the line has no interior. */
  lemma NeighboursSeeEachOther(x1: int, y1: int, x2: int, y2: int)
    requires Abs(x2 - x1) <= 1 && Abs(y2 - y1) <= 1
    ensures Interior(Line(x1, y1, x2, y2)) == []
  {
    LineStart(x1, y1, x2, y2);
    ShortLine(x2, y2, Abs(x2 - x1), Abs(y2 - y1), Sign(x1, x2), Sign(y1, y2));
  }
}
