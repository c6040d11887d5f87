/**
 * The part of the `grid_2d` crate the wall builder relies on, written down as an
 * assumption rather than modelled: integer coordinates, a rectangular grid stored
 * row by row, a `get` that answers `None` off the grid, and an enumeration of the
 * grid's coordinates in storage (row-major) order.
 */
module Grids {
  import opened Wrappers

  /** A grid coordinate; `x` grows eastwards and `y` grows southwards. */
  datatype Coord = Coord(x: int, y: int) {
    function Add(other: Coord): Coord {
      Coord(x + other.x, y + other.y)
    }
  }

  /** Strictly increasing in row-major order, so in particular without repeats. */
  predicate RowMajor(cs: seq<Coord>) {
    forall i, j | 0 <= i < j < |cs| :: cs[i].y < cs[j].y || (cs[i].y == cs[j].y && cs[i].x < cs[j].x)
  }

  /** A grid stored row by row: the cell at `Coord(x, y)` is `rows[y][x]`. */
  datatype Grid<T> = Grid(rows: seq<seq<T>>) {

    predicate Contains(c: Coord) {
      0 <= c.y < |rows| && 0 <= c.x < |rows[c.y]|
    }

    /** `Grid::get`: the cell at `c`, or `None` when `c` is off the grid. */
    function Get(c: Coord): (r: Option<T>)
      ensures r.Some? <==> Contains(c)
      ensures Contains(c) ==> r.value == rows[c.y][c.x]
    {
      if Contains(c) then Some(rows[c.y][c.x]) else None
    }

    /** The coordinates of row `y`, west to east. */
    function Row(y: nat): (r: seq<Coord>)
      requires y < |rows|
      ensures forall c :: c in r <==> c.y == y && 0 <= c.x < |rows[y]|
      ensures forall i | 0 <= i < |r| :: r[i] == Coord(i, y)
    {
      var r := seq(|rows[y]|, x requires 0 <= x < |rows[y]| => Coord(x, y));
      assert forall c: Coord | c.y == y && 0 <= c.x < |rows[y]| :: r[c.x] == c;
      r
    }

    /** The coordinates of rows `y..`, in row-major order (`Grid::enumerate`). */
    function CoordsFrom(y: nat): (r: seq<Coord>)
      ensures forall c :: c in r <==> y <= c.y && Contains(c)
      ensures RowMajor(r)
      decreases |rows| - y
    {
      if y >= |rows| then []
      else
        var row, rest := Row(y), CoordsFrom(y + 1);
        assert forall j | 0 <= j < |rest| :: y < rest[j].y by {
          forall j | 0 <= j < |rest| ensures y < rest[j].y {
            assert rest[j] in rest;
          }
        }
        row + rest
    }

    /** Every coordinate of the grid exactly once, row by row. */
    function Coords(): (r: seq<Coord>)
      ensures forall c :: c in r <==> Contains(c)
      ensures RowMajor(r)
    {
      CoordsFrom(0)
    }
  }
}
