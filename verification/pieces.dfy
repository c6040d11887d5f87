/**
 * Corner-piece classification: which of four bevel shapes each diagonal quarter
 * of a wall cell needs, decided from the two cardinal neighbours beside that
 * quarter (`Piece::choose`, `Quarter::from_grid`, `CellDetails::from_grid`).
 */
module Pieces {
  import opened Wrappers
  import opened Grids
  import opened Directions

  datatype CellType = Wall | Floor

  datatype Piece = Inner | Outer | Left | Right

  /** One cardinal neighbour of a quarter: what it is and where it lies. */
  datatype Neighbour = Neighbour(cell: CellType, dir: Cardinal)

  /**
   * The four shapes as drawn in the comment at the head of the source, seen in
   * the north-east quarter of a wall cell: `ccw` is the neighbour on the
   * counter-clockwise side (north) and `cw` the one on the clockwise side (east).
   *   Inner  #.   Outer  ..   Left  ..   Right  #.
   *          ##          #.         ##          #.
   */
  function PieceInFrame(ccw: CellType, cw: CellType): Piece {
    match (ccw, cw)
    case (Wall, Wall) => Inner
    case (Floor, Floor) => Outer
    case (Floor, Wall) => Left
    case (Wall, Floor) => Right
  }

  /** The bevel for one wall and one floor neighbour; `None` is `unreachable!()`. */
  function Bevel(wallDir: Cardinal, floorDir: Cardinal): Option<Piece> {
    if wallDir.Right90() == floorDir then Some(Right)
    else if wallDir.Left90() == floorDir then Some(Left)
    else None
  }

  /**
   * `Piece::choose`. `None` stands for the `unreachable!()` panic, which the
   * source reaches only for one wall and one floor neighbour that are not a
   * quarter turn apart.
   */
  function Choose(a: Neighbour, b: Neighbour): (r: Option<Piece>)
    ensures a.cell == Floor && b.cell == Floor ==> r == Some(Outer)
    ensures a.cell == Wall && b.cell == Wall ==> r == Some(Inner)
    ensures a.cell != b.cell ==> (r.None? <==> !Perpendicular(a.dir, b.dir))
    ensures a.cell != b.cell && r.Some? ==> r.value in {Left, Right}
  {
    match (a.cell, b.cell)
    case (Floor, Floor) => Some(Outer)
    case (Wall, Wall) => Some(Inner)
    case (Wall, Floor) => Bevel(a.dir, b.dir)
    case (Floor, Wall) => Bevel(b.dir, a.dir)
  }

  /** The wall and floor roles are read from the cell types, not the argument order. */
  lemma ChooseSymmetric(a: Neighbour, b: Neighbour)
    ensures Choose(a, b) == Choose(b, a)
  {
  }

  /**
   * In the mixed case the piece is `Right` exactly when the floor lies a quarter
   * turn clockwise from the wall, and `Left` exactly when it lies a quarter turn
   * counter-clockwise, whichever argument holds the wall.
   */
  lemma ChooseMixed(wall: Cardinal, floor: Cardinal)
    ensures Choose(Neighbour(Wall, wall), Neighbour(Floor, floor)) == Some(Right) <==> wall.Right90() == floor
    ensures Choose(Neighbour(Wall, wall), Neighbour(Floor, floor)) == Some(Left) <==> wall.Left90() == floor
    ensures Choose(Neighbour(Floor, floor), Neighbour(Wall, wall)) == Some(Right) <==> wall.Right90() == floor
    ensures Choose(Neighbour(Floor, floor), Neighbour(Wall, wall)) == Some(Left) <==> wall.Left90() == floor
  {
  }

  /**
   * For the two sides of any ordinal direction `Choose` never panics, and it
   * picks the shape the diagrams show for that neighbourhood.
   */
  lemma ChooseMatchesDiagrams(o: Ordinal, ccw: CellType, cw: CellType)
    ensures Choose(Neighbour(ccw, o.ToCardinals().0), Neighbour(cw, o.ToCardinals().1)) == Some(PieceInFrame(ccw, cw))
  {
  }

  datatype Quarter = Quarter(piece: Piece)

  /** The cell type at `c`, where anything off the grid counts as floor. */
  function TypeAt(g: Grid<CellType>, c: Coord): (t: CellType)
    ensures !g.Contains(c) ==> t == Floor
    ensures g.Contains(c) ==> t == g.rows[c.y][c.x]
  {
    g.Get(c).GetOr(Floor)
  }

  /** `Quarter::from_grid`: total for every coordinate, on or off the grid. */
  function QuarterFromGrid(g: Grid<CellType>, c: Coord, o: Ordinal): (q: Quarter)
    ensures q.piece == PieceInFrame(TypeAt(g, c.Add(o.ToCardinals().0.Offset())),
                                    TypeAt(g, c.Add(o.ToCardinals().1.Offset())))
  {
    var (cardA, cardB) := o.ToCardinals();
    var typeA := TypeAt(g, c.Add(cardA.Offset()));
    var typeB := TypeAt(g, c.Add(cardB.Offset()));
    ChooseMatchesDiagrams(o, typeA, typeB);
    Quarter(Choose(Neighbour(typeA, cardA), Neighbour(typeB, cardB)).value)
  }

  /** One quarter per ordinal direction, at index `o.Index()`. */
  datatype CellDetails = CellDetails(quarters: seq<Quarter>)

  /** `CellDetails::outer`: four `Outer` quarters. */
  function AllOuter(): (d: CellDetails)
    ensures |d.quarters| == 4
    ensures forall i | 0 <= i < 4 :: d.quarters[i].piece == Outer
  {
    CellDetails([Quarter(Outer), Quarter(Outer), Quarter(Outer), Quarter(Outer)])
  }

  /** The loop of `CellDetails::from_grid`: resolve the quarters of `Ordinals[k..]` into `d`. */
  function FillQuarters(g: Grid<CellType>, c: Coord, d: CellDetails, k: nat): (r: CellDetails)
    requires |d.quarters| == 4 && k <= 4
    ensures |r.quarters| == 4
    ensures forall i | 0 <= i < k :: r.quarters[i] == d.quarters[i]
    ensures forall i | k <= i < 4 :: r.quarters[i] == QuarterFromGrid(g, c, Ordinals[i])
    decreases 4 - k
  {
    if k == 4 then d
    else
      var o := Ordinals[k];
      FillQuarters(g, c, CellDetails(d.quarters[o.Index() := QuarterFromGrid(g, c, o)]), k + 1)
  }

  /**
   * `CellDetails::from_grid`: nothing for a floor cell (or a coordinate off the
   * grid), otherwise the quarter of every ordinal direction.
   */
  function DetailsFromGrid(g: Grid<CellType>, c: Coord): (r: Option<CellDetails>)
    ensures r.None? <==> TypeAt(g, c) == Floor
    ensures r.Some? ==> |r.value.quarters| == 4
    ensures r.Some? ==> forall o: Ordinal :: r.value.quarters[o.Index()] == QuarterFromGrid(g, c, o)
  {
    if TypeAt(g, c) == Floor then None
    else Some(FillQuarters(g, c, AllOuter(), 0))
  }

  /** Every cardinal neighbour of `c` has type `t`. */
  predicate Surrounded(g: Grid<CellType>, c: Coord, t: CellType) {
    forall d: Cardinal :: TypeAt(g, c.Add(d.Offset())) == t
  }

  /** A wall cell's details list the pieces its four quarters resolve to, in ordinal order. */
  lemma DetailsListQuarters(g: Grid<CellType>, c: Coord, ps: seq<Piece>)
    requires TypeAt(g, c) == Wall && |ps| == 4
    requires forall i | 0 <= i < 4 :: QuarterFromGrid(g, c, Ordinals[i]).piece == ps[i]
    ensures DetailsFromGrid(g, c) == Some(CellDetails([Quarter(ps[0]), Quarter(ps[1]), Quarter(ps[2]), Quarter(ps[3])]))
  {
    var d := DetailsFromGrid(g, c).value;
    assert d.quarters[0] == QuarterFromGrid(g, c, NorthEast);
    assert d.quarters[1] == QuarterFromGrid(g, c, SouthEast);
    assert d.quarters[2] == QuarterFromGrid(g, c, SouthWest);
    assert d.quarters[3] == QuarterFromGrid(g, c, NorthWest);
    assert d.quarters == [Quarter(ps[0]), Quarter(ps[1]), Quarter(ps[2]), Quarter(ps[3])];
  }

  /**
   * A wall cell's four quarters, read off its four cardinal neighbours: each
   * quarter takes the shape the diagrams give for the two neighbours beside it.
   */
  lemma QuartersFromNeighbours(g: Grid<CellType>, c: Coord)
    requires TypeAt(g, c) == Wall
    ensures var n, e, s, w := TypeAt(g, c.Add(North.Offset())), TypeAt(g, c.Add(East.Offset())),
                              TypeAt(g, c.Add(South.Offset())), TypeAt(g, c.Add(West.Offset()));
      DetailsFromGrid(g, c) == Some(CellDetails([Quarter(PieceInFrame(n, e)), Quarter(PieceInFrame(e, s)),
                                                 Quarter(PieceInFrame(s, w)), Quarter(PieceInFrame(w, n))]))
  {
    var n, e, s, w := TypeAt(g, c.Add(North.Offset())), TypeAt(g, c.Add(East.Offset())),
                      TypeAt(g, c.Add(South.Offset())), TypeAt(g, c.Add(West.Offset()));
    DetailsListQuarters(g, c, [PieceInFrame(n, e), PieceInFrame(e, s), PieceInFrame(s, w), PieceInFrame(w, n)]);
  }

  /** `QuartersFromNeighbours` with the four neighbour types and coordinates written out. */
  lemma QuartersFromNamedNeighbours(g: Grid<CellType>, c: Coord, n: CellType, e: CellType, s: CellType, w: CellType)
    requires TypeAt(g, c) == Wall
    requires TypeAt(g, Coord(c.x, c.y - 1)) == n && TypeAt(g, Coord(c.x + 1, c.y)) == e
    requires TypeAt(g, Coord(c.x, c.y + 1)) == s && TypeAt(g, Coord(c.x - 1, c.y)) == w
    ensures DetailsFromGrid(g, c) == Some(CellDetails([Quarter(PieceInFrame(n, e)), Quarter(PieceInFrame(e, s)),
                                                       Quarter(PieceInFrame(s, w)), Quarter(PieceInFrame(w, n))]))
  {
    assert c.Add(North.Offset()) == Coord(c.x, c.y - 1);
    assert c.Add(East.Offset()) == Coord(c.x + 1, c.y);
    assert c.Add(South.Offset()) == Coord(c.x, c.y + 1);
    assert c.Add(West.Offset()) == Coord(c.x - 1, c.y);
    QuartersFromNeighbours(g, c);
  }

  /** A wall with walls on all four sides gets four `Inner` quarters. */
  lemma EnclosedWallIsAllInner(g: Grid<CellType>, c: Coord)
    requires TypeAt(g, c) == Wall && Surrounded(g, c, Wall)
    ensures DetailsFromGrid(g, c) == Some(CellDetails([Quarter(Inner), Quarter(Inner), Quarter(Inner), Quarter(Inner)]))
  {
    assert TypeAt(g, c.Add(North.Offset())) == TypeAt(g, c.Add(South.Offset())) == Wall;
    assert TypeAt(g, c.Add(East.Offset())) == TypeAt(g, c.Add(West.Offset())) == Wall;
    QuartersFromNeighbours(g, c);
  }

  /** A wall with floor (or the grid's edge) on all four sides gets four `Outer` quarters. */
  lemma IsolatedWallIsAllOuter(g: Grid<CellType>, c: Coord)
    requires TypeAt(g, c) == Wall && Surrounded(g, c, Floor)
    ensures DetailsFromGrid(g, c) == Some(AllOuter())
  {
    assert TypeAt(g, c.Add(North.Offset())) == TypeAt(g, c.Add(South.Offset())) == Floor;
    assert TypeAt(g, c.Add(East.Offset())) == TypeAt(g, c.Add(West.Offset())) == Floor;
    QuartersFromNeighbours(g, c);
  }
}
