/** Addressing of the game grid.
    The grid lies in the world's x-y plane, positive z up. A cell is addressed
    by the integer coordinates of its minimum corner, measured in cells, so the
    cell (x, y) covers [x * CellSize, (x + 1) * CellSize) in x and the same
    half-open band in y. Coordinates are exact reals here, not 32-bit floats. */
module Grid {

  /** Side length of one cell, in world units. */
  const CellSize: real := 5.0

  /** A point (or vector) in world space. */
  datatype Point = Point(x: real, y: real, z: real)

  /** A cell address in the 2D game grid. */
  datatype GridPos = GridPos(x: int, y: int)

  /** The cell at the world origin, where the base stands. */
  const Origin: GridPos := GridPos(0, 0)

  /** The x-y projection of `p` lies inside the half-open square of cell `g`. */
  predicate InCell(p: Point, g: GridPos) {
    && g.x as real * CellSize <= p.x < (g.x + 1) as real * CellSize
    && g.y as real * CellSize <= p.y < (g.y + 1) as real * CellSize
  }

  /** The cell containing a world point: each coordinate divided by the cell
      size and floored. */
  function FromWorld(p: Point): (g: GridPos)
    ensures InCell(p, g)
  {
    GridPos((p.x / CellSize).Floor, (p.y / CellSize).Floor)
  }

  /** The minimum corner of a cell, on the ground plane. */
  function ToWorld(g: GridPos): (p: Point)
    ensures InCell(p, g) && p.z == 0.0
    ensures forall q :: InCell(q, g) ==> p.x <= q.x && p.y <= q.y
  {
    Point(g.x as real * CellSize, g.y as real * CellSize, 0.0)
  }

  /** The middle of a cell, on the ground plane. */
  function CellCenter(g: GridPos): (p: Point)
    ensures InCell(p, g) && p.z == 0.0
    ensures p.x == ToWorld(g).x + CellSize / 2.0 && p.y == ToWorld(g).y + CellSize / 2.0
  {
    Point(g.x as real * CellSize + CellSize * 0.5, g.y as real * CellSize + CellSize * 0.5, 0.0)
  }

  /** No point lies in two different cells. */
  lemma CellsDisjoint(p: Point, g1: GridPos, g2: GridPos)
    requires InCell(p, g1) && InCell(p, g2)
    ensures g1 == g2
  {
  }

  /** `FromWorld` picks exactly the cell that contains the point. */
  lemma FromWorldIff(p: Point, g: GridPos)
    ensures FromWorld(p) == g <==> InCell(p, g)
  {
    if InCell(p, g) {
      CellsDisjoint(p, FromWorld(p), g);
    }
  }

  /** A point lies between the minimum corner of its cell and one cell size
      beyond it, in x and in y. */
  lemma FromWorldContains(p: Point)
    ensures ToWorld(FromWorld(p)).x <= p.x < ToWorld(FromWorld(p)).x + CellSize
    ensures ToWorld(FromWorld(p)).y <= p.y < ToWorld(FromWorld(p)).y + CellSize
  {
  }

  /** A cell's minimum corner maps back to the cell. */
  lemma ToWorldRoundTrip(g: GridPos)
    ensures FromWorld(ToWorld(g)) == g
  {
    FromWorldIff(ToWorld(g), g);
  }

  /** A cell's center maps back to the cell. */
  lemma CellCenterRoundTrip(g: GridPos)
    ensures FromWorld(CellCenter(g)) == g
  {
    FromWorldIff(CellCenter(g), g);
  }

  /** Flooring the minimum corner of a point's cell gives that cell again. */
  lemma RefloorIdempotent(p: Point)
    ensures FromWorld(ToWorld(FromWorld(p))) == FromWorld(p)
  {
    ToWorldRoundTrip(FromWorld(p));
  }
}
