/**
 * Placing and merging the pieces: each wall cell's four quarter meshes are moved
 * to the cell (`CellDetails::make_geometry`), and the meshes of every wall cell,
 * in row-major order, are merged into one buffer with `concat_all`.
 */
module Mesh {
  import opened Wrappers
  import opened Grids
  import opened Directions
  import opened Buffers
  import opened Pieces
  import opened Geometry

  /**
   * Where a quarter's local mesh goes: the source's `move_to_cell_centre(coord)
   * * rotate_to_direction(o)`, applied to a position. The f32 matrix maths is not
   * modelled; the placement is a parameter.
   */
  type Placement = (Coord, Ordinal) -> (Vec3 -> Vec3)

  /** The pieces of a cell's four quarters, in ordinal order. */
  function QuarterPieces(d: CellDetails): seq<Piece>
    requires |d.quarters| == 4
  {
    [d.quarters[0].piece, d.quarters[1].piece, d.quarters[2].piece, d.quarters[3].piece]
  }

  function IndexSum(pieces: seq<Piece>): nat {
    if |pieces| == 0 then 0 else IndexCount(pieces[0]) + IndexSum(pieces[1..])
  }

  function AttributeSum(pieces: seq<Piece>): nat {
    if |pieces| == 0 then 0 else AttributeCount(pieces[0]) + AttributeSum(pieces[1..])
  }

  /**
   * `CellDetails::make_geometry`: the piece mesh of quarter `i` moved by the
   * placement for `Ordinals[i]`; indices and sizes are those of the piece.
   */
  function CellGeometry(d: CellDetails, c: Coord, style: Style, config: Config, place: Placement): (r: seq<RelativeBuffers>)
    requires |d.quarters| == 4
    ensures |r| == 4
    ensures forall i | 0 <= i < 4 ::
              r[i] == Transform(MakeGeometry(d.quarters[i].piece, style, config), place(c, Ordinals[i]))
    ensures AllWellFormed(r)
    ensures IndexTotal(r) == IndexSum(QuarterPieces(d))
    ensures AttributeTotal(r) == AttributeSum(QuarterPieces(d))
  {
    var r := seq(4, i requires 0 <= i < 4 =>
                   Transform(MakeGeometry(d.quarters[i].piece, style, config), place(c, Ordinals[i])));
    PlacedTotals(d, c, style, config, place, r);
    r
  }

  /** Four placed quarter meshes are well formed and hold the pieces' index and attribute counts. */
  lemma {:induction false} PlacedTotals(d: CellDetails, c: Coord, style: Style, config: Config, place: Placement, r: seq<RelativeBuffers>)
    requires |d.quarters| == 4 && |r| == 4
    requires forall i | 0 <= i < 4 ::
               r[i] == Transform(MakeGeometry(d.quarters[i].piece, style, config), place(c, Ordinals[i]))
    ensures AllWellFormed(r)
    ensures IndexTotal(r) == IndexSum(QuarterPieces(d))
    ensures AttributeTotal(r) == AttributeSum(QuarterPieces(d))
  {
    PlacedSizes(d.quarters[0].piece, style, config, place(c, Ordinals[0]));
    PlacedSizes(d.quarters[1].piece, style, config, place(c, Ordinals[1]));
    PlacedSizes(d.quarters[2].piece, style, config, place(c, Ordinals[2]));
    PlacedSizes(d.quarters[3].piece, style, config, place(c, Ordinals[3]));
    FourTotals(r);
    FourSums(QuarterPieces(d));
  }

  /** A placed piece mesh is well formed and keeps the piece's sizes. */
  lemma PlacedSizes(piece: Piece, style: Style, config: Config, m: Vec3 -> Vec3)
    ensures var b := Transform(MakeGeometry(piece, style, config), m);
      && WellFormed(b)
      && |b.indices| == IndexCount(piece)
      && |b.attributes| == AttributeCount(piece)
  {
  }

  /** The sums of a list of four pieces, written out. */
  lemma FourSums(ps: seq<Piece>)
    requires |ps| == 4
    ensures IndexSum(ps) == IndexCount(ps[0]) + IndexCount(ps[1]) + IndexCount(ps[2]) + IndexCount(ps[3])
    ensures AttributeSum(ps) == AttributeCount(ps[0]) + AttributeCount(ps[1]) + AttributeCount(ps[2]) + AttributeCount(ps[3])
  {
    var p1, p2, p3 := ps[1..], ps[2..], ps[3..];
    assert p1[1..] == p2 && p2[1..] == p3 && p3[1..] == [];
    assert p1[0] == ps[1] && p2[0] == ps[2] && p3[0] == ps[3];
  }

  /** The totals of a list of four buffers, written out. */
  lemma FourTotals(r: seq<RelativeBuffers>)
    requires |r| == 4
    ensures IndexTotal(r) == |r[0].indices| + |r[1].indices| + |r[2].indices| + |r[3].indices|
    ensures AttributeTotal(r) == |r[0].attributes| + |r[1].attributes| + |r[2].attributes| + |r[3].attributes|
  {
    assert r[..1][..0] == [];
    assert IndexTotal(r[..1]) == |r[0].indices| && AttributeTotal(r[..1]) == |r[0].attributes|;
    assert r[..2][..1] == r[..1];
    assert IndexTotal(r[..2]) == IndexTotal(r[..1]) + |r[1].indices|;
    assert AttributeTotal(r[..2]) == AttributeTotal(r[..1]) + |r[1].attributes|;
    assert r[..3][..2] == r[..2];
    assert IndexTotal(r[..3]) == IndexTotal(r[..2]) + |r[2].indices|;
    assert AttributeTotal(r[..3]) == AttributeTotal(r[..2]) + |r[2].attributes|;
    assert r[..3] == r[..|r| - 1];
  }

  /** The pieces of one cell: none for a floor, the four quarters' pieces for a wall. */
  function CellPieces(g: Grid<CellType>, c: Coord): seq<Piece> {
    match DetailsFromGrid(g, c)
    case None => []
    case Some(d) => QuarterPieces(d)
  }

  /** The pieces of every wall cell among `cs`, four per cell, in order. */
  function GridPieces(g: Grid<CellType>, cs: seq<Coord>): seq<Piece> {
    if |cs| == 0 then [] else CellPieces(g, cs[0]) + GridPieces(g, cs[1..])
  }

  lemma {:induction false} IndexSumAppend(xs: seq<Piece>, ys: seq<Piece>)
    ensures IndexSum(xs + ys) == IndexSum(xs) + IndexSum(ys)
    ensures AttributeSum(xs + ys) == AttributeSum(xs) + AttributeSum(ys)
  {
    if |xs| > 0 {
      assert (xs + ys)[1..] == xs[1..] + ys;
      IndexSumAppend(xs[1..], ys);
    } else {
      assert xs + ys == ys;
    }
  }

  lemma {:induction false} TotalsAppend(xs: seq<RelativeBuffers>, ys: seq<RelativeBuffers>)
    ensures IndexTotal(xs + ys) == IndexTotal(xs) + IndexTotal(ys)
    ensures AttributeTotal(xs + ys) == AttributeTotal(xs) + AttributeTotal(ys)
    decreases |ys|
  {
    if |ys| == 0 {
      assert xs + ys == xs;
    } else {
      assert (xs + ys)[..|xs + ys| - 1] == xs + ys[..|ys| - 1];
      TotalsAppend(xs, ys[..|ys| - 1]);
    }
  }

  /** Appending two lists of buffers adds their totals, as appending two lists of pieces adds their sums. */
  lemma AppendParts(xs: seq<RelativeBuffers>, ys: seq<RelativeBuffers>, ps: seq<Piece>, qs: seq<Piece>)
    requires AllWellFormed(xs) && AllWellFormed(ys)
    requires IndexTotal(xs) == IndexSum(ps) && AttributeTotal(xs) == AttributeSum(ps)
    requires IndexTotal(ys) == IndexSum(qs) && AttributeTotal(ys) == AttributeSum(qs)
    ensures AllWellFormed(xs + ys)
    ensures IndexTotal(xs + ys) == IndexSum(ps + qs)
    ensures AttributeTotal(xs + ys) == AttributeSum(ps + qs)
  {
    TotalsAppend(xs, ys);
    IndexSumAppend(ps, qs);
    assert forall i | |xs| <= i < |xs + ys| :: (xs + ys)[i] == ys[i - |xs|];
  }

  /**
   * The `filter_map`/`flat_map` of `main`: the placed quarter meshes of every
   * wall cell among `cs`, in order. Each is well formed, and together they hold
   * exactly the indices and attributes of the pieces the cells resolve to.
   */
  function CellsGeometry(g: Grid<CellType>, cs: seq<Coord>, style: Style, config: Config, place: Placement): (r: seq<RelativeBuffers>)
    ensures AllWellFormed(r)
    ensures IndexTotal(r) == IndexSum(GridPieces(g, cs))
    ensures AttributeTotal(r) == AttributeSum(GridPieces(g, cs))
  {
    if |cs| == 0 then []
    else
      var rest := CellsGeometry(g, cs[1..], style, config, place);
      match DetailsFromGrid(g, cs[0])
      case None =>
        assert CellPieces(g, cs[0]) == [];
        assert GridPieces(g, cs) == [] + GridPieces(g, cs[1..]) == GridPieces(g, cs[1..]);
        rest
      case Some(d) =>
        var cell := CellGeometry(d, cs[0], style, config, place);
        AppendParts(cell, rest, QuarterPieces(d), GridPieces(g, cs[1..]));
        cell + rest
  }

  /**
   * The assembly in `main`: every wall cell's placed quarters, merged with
   * `concat_all`. The result has no dangling index, its sizes are the sums of
   * the pieces' fixed sizes, and every triangle corner is the attribute that
   * corner had in its own quarter's mesh.
   */
  method BuildMesh(g: Grid<CellType>, style: Style, config: Config, place: Placement) returns (r: RelativeBuffers)
    ensures WellFormed(r)
    ensures |r.indices| == IndexSum(GridPieces(g, g.Coords()))
    ensures |r.attributes| == AttributeSum(GridPieces(g, g.Coords()))
    ensures Resolve(r) == ResolveAll(CellsGeometry(g, g.Coords(), style, config, place))
    ensures r == FoldConcat(CellsGeometry(g, g.Coords(), style, config, place))
  {
    var parts := CellsGeometry(g, g.Coords(), style, config, place);
    r := ConcatAll(parts);
    FoldConcatResolves(parts);
  }
}
