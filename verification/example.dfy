/**
 * A worked example: the grid with rows `##` and `.#`, one floor cell and three
 * walls, resolved and sized end to end.
 */
module WorkedExample {
  import opened Wrappers
  import opened Grids
  import opened Directions
  import opened Pieces
  import opened Mesh

  /** Two rows: `##` above `.#`. */
  const Example: Grid<CellType> := Grid([[Wall, Wall], [Floor, Wall]])

  /**
   * The example grid: the floor cell has no details; the wall at (1, 1) has a
   * wall only to its north, the grid's edge counting as floor, so it resolves to
   * Right, Outer, Outer, Left.
   */
  lemma ExampleDetails()
    ensures DetailsFromGrid(Example, Coord(0, 1)) == None
    ensures DetailsFromGrid(Example, Coord(1, 1)) == Some(CellDetails([Quarter(Right), Quarter(Outer), Quarter(Outer), Quarter(Left)]))
  {
    assert TypeAt(Example, Coord(0, 1)) == Floor;
    ExampleCell11(Example);
  }

  /**
   * Cells visited in the example's order, with the pieces each resolves to:
   * the wall at (0, 0) first, then (1, 0), then the floor at (0, 1), which
   * contributes none, then the wall at (1, 1): their pieces are the three
   * walls' quarters, in that order.
   */
  lemma LayoutPieces(g: Grid<CellType>, c00: Coord, c10: Coord, c01: Coord, c11: Coord)
    requires CellPieces(g, c00) == [Left, Right, Outer, Outer]
    requires CellPieces(g, c10) == [Outer, Left, Inner, Right]
    requires CellPieces(g, c01) == []
    requires CellPieces(g, c11) == [Right, Outer, Outer, Left]
    ensures GridPieces(g, [c00, c10, c01, c11])
         == [Left, Right, Outer, Outer] + ([Outer, Left, Inner, Right] + [Right, Outer, Outer, Left])
  {
    var p00, p10, p11 := [Left, Right, Outer, Outer], [Outer, Left, Inner, Right], [Right, Outer, Outer, Left];
    assert [c11][1..] == [];
    assert GridPieces(g, [c11]) == p11 + [];
    assert [c01, c11][1..] == [c11];
    assert GridPieces(g, [c01, c11]) == [] + p11;
    assert [c10, c01, c11][1..] == [c01, c11];
    assert GridPieces(g, [c10, c01, c11]) == p10 + p11;
    assert [c00, c10, c01, c11][1..] == [c10, c01, c11];
  }

  /** The three walls' quarters, joined, with their index and attribute sums. */
  lemma LayoutTotals(p00: seq<Piece>, p10: seq<Piece>, p11: seq<Piece>)
    requires p00 == [Left, Right, Outer, Outer] && p10 == [Outer, Left, Inner, Right]
    requires p11 == [Right, Outer, Outer, Left]
    ensures p00 + (p10 + p11) == [Left, Right, Outer, Outer, Outer, Left, Inner, Right, Right, Outer, Outer, Left]
    ensures IndexSum(p00 + (p10 + p11)) == 186
    ensures AttributeSum(p00 + (p10 + p11)) == 110
  {
    IndexSumAppend(p10, p11);
    IndexSumAppend(p00, p10 + p11);
    FourSums(p00);
    FourSums(p10);
    FourSums(p11);
  }

  /** The example grid's twelve quarters and the size of its merged mesh. */
  lemma ExamplePieces()
    ensures GridPieces(Example, Example.Coords())
         == [Left, Right, Outer, Outer, Outer, Left, Inner, Right, Right, Outer, Outer, Left]
    ensures IndexSum(GridPieces(Example, Example.Coords())) == 186
    ensures AttributeSum(GridPieces(Example, Example.Coords())) == 110
  {
    ExampleCoords();
    assert TypeAt(Example, Coord(0, 1)) == Floor;
    ExampleCell00(Example);
    ExampleCell10(Example);
    ExampleCell11(Example);
    LayoutPieces(Example, Coord(0, 0), Coord(1, 0), Coord(0, 1), Coord(1, 1));
    LayoutTotals([Left, Right, Outer, Outer], [Outer, Left, Inner, Right], [Right, Outer, Outer, Left]);
  }

  lemma ExampleCoords()
    ensures Example.Coords() == [Coord(0, 0), Coord(1, 0), Coord(0, 1), Coord(1, 1)]
  {
    assert Example.Row(0) == [Coord(0, 0), Coord(1, 0)];
    assert Example.Row(1) == [Coord(0, 1), Coord(1, 1)];
    assert Example.CoordsFrom(2) == [];
  }

  /** The top-left wall: floor to the south, the east wall beside it. */
  lemma ExampleCell00(g: Grid<CellType>)
    requires TypeAt(g, Coord(0, 0)) == Wall
    requires TypeAt(g, Coord(0, -1)) == Floor && TypeAt(g, Coord(1, 0)) == Wall
    requires TypeAt(g, Coord(0, 1)) == Floor && TypeAt(g, Coord(-1, 0)) == Floor
    ensures DetailsFromGrid(g, Coord(0, 0)).Some?
    ensures CellPieces(g, Coord(0, 0)) == [Left, Right, Outer, Outer]
  {
    QuartersFromNamedNeighbours(g, Coord(0, 0), Floor, Wall, Floor, Floor);
  }

  /** The top-right wall: walls to the south and west. */
  lemma ExampleCell10(g: Grid<CellType>)
    requires TypeAt(g, Coord(1, 0)) == Wall
    requires TypeAt(g, Coord(1, -1)) == Floor && TypeAt(g, Coord(2, 0)) == Floor
    requires TypeAt(g, Coord(1, 1)) == Wall && TypeAt(g, Coord(0, 0)) == Wall
    ensures DetailsFromGrid(g, Coord(1, 0)).Some?
    ensures CellPieces(g, Coord(1, 0)) == [Outer, Left, Inner, Right]
  {
    QuartersFromNamedNeighbours(g, Coord(1, 0), Floor, Floor, Wall, Wall);
  }

  /** The bottom-right wall: a wall to the north only, the grid's edge counting as floor. */
  lemma ExampleCell11(g: Grid<CellType>)
    requires TypeAt(g, Coord(1, 1)) == Wall
    requires TypeAt(g, Coord(1, 0)) == Wall && TypeAt(g, Coord(2, 1)) == Floor
    requires TypeAt(g, Coord(1, 2)) == Floor && TypeAt(g, Coord(0, 1)) == Floor
    ensures DetailsFromGrid(g, Coord(1, 1)).Some?
    ensures DetailsFromGrid(g, Coord(1, 1)).value == CellDetails([Quarter(Right), Quarter(Outer), Quarter(Outer), Quarter(Left)])
    ensures CellPieces(g, Coord(1, 1)) == [Right, Outer, Outer, Left]
  {
    QuartersFromNamedNeighbours(g, Coord(1, 1), Wall, Floor, Floor, Floor);
  }
}
