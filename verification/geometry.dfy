/**
 * The local mesh of one corner piece (`make_edge_base`, `make_faces`,
 * `make_rect_top`, `make_top`, `make_geometry`). A piece is a flat top at the
 * bevel's height plus a vertical face strip hanging from the piece's edge
 * profile. Horizontal points are written `Vec2(x, y)` and lifted to
 * `Vec3(x, height, y)`. Positions and texture coordinates use exact reals.
 */
module Geometry {
  import opened Buffers
  import opened Pieces

  datatype Config = Config(cellSize: real)

  datatype Style = Style(width: real, height: real, faceTexTopLeft: Vec2, topTexTopLeft: Vec2)

  /** A point of the edge profile on the ground, and how far along the face texture it sits. */
  datatype BaseAttribute = BaseAttribute(faceTexOffsetX: real, space: Vec2)

  /** A point of the top outline and its texture offset inside the atlas. */
  datatype TopAttribute = TopAttribute(texOffset: Vec2, space: Vec2)

  /**
   * `TopAttribute::new`: the texture is the piece's atlas region, sampled with
   * `y` flipped. The texture moves with the point in `x` and against it in `y`.
   */
  function NewTopAttribute(pieceTexOffset: Vec2, space: Vec2): (r: TopAttribute)
    ensures r.space == space
    ensures r.texOffset.x - space.x == pieceTexOffset.x
    ensures r.texOffset.y + space.y == pieceTexOffset.y
  {
    TopAttribute(Vec2(pieceTexOffset.x + space.x, pieceTexOffset.y - space.y), space)
  }

  /**
   * The triangles of `n` quads over a strip whose vertices alternate base, top,
   * base, top, ...: quad `k` is the triangles (2k, 2k+1, 2k+2) and (2k+1, 2k+3, 2k+2).
   */
  function QuadStrip(n: nat): (r: seq<nat>)
    ensures |r| == 6 * n
    ensures forall i | 0 <= i < |r| :: r[i] < 2 * n + 2
    ensures n > 0 ==> forall v | 0 <= v < 2 * n + 2 :: v in r
  {
    if n == 0 then []
    else
      var k := 2 * (n - 1);
      var r := QuadStrip(n - 1) + [k, k + 1, k + 2, k + 1, k + 3, k + 2];
      assert forall v | 0 <= v < 2 * n + 2 :: v in r by {
        forall v | 0 <= v < 2 * n + 2 ensures v in r {
          if v == k + 3 {
            assert r[6 * (n - 1) + 4] == v;
          } else if v >= k {
            assert r[6 * (n - 1) + (v - k)] == v;
          } else {
            assert v in QuadStrip(n - 1);
          }
        }
      }
      r
  }

  const BaseTopAlternatingIndices1: seq<nat> := [0, 1, 2, 1, 3, 2]

  const BaseTopAlternatingIndices2: seq<nat> := [0, 1, 2, 1, 3, 2, 2, 3, 4, 3, 5, 4]

  /** The two constant face tables are the strips of one and two quads. */
  lemma AlternatingTablesAreQuadStrips()
    ensures BaseTopAlternatingIndices1 == QuadStrip(1)
    ensures BaseTopAlternatingIndices2 == QuadStrip(2)
  {
  }

  /** Each coordinate of `p` is 0, the bevel width `w` or the cell size `s`. */
  predicate OnBevelLines(p: Vec2, w: real, s: real) {
    && (p.x == 0.0 || p.x == w || p.x == s)
    && (p.y == 0.0 || p.y == w || p.y == s)
  }

  /**
   * `make_edge_base`: the ground profile the face strip hangs from, and the
   * face strip's index table, exactly as the source writes them. In particular
   * `Outer`'s last point is `(0, w)`, the same as its first.
   */
  function MakeEdgeBase(piece: Piece, style: Style, config: Config): (r: (seq<BaseAttribute>, seq<nat>))
    ensures |r.0| == (if piece == Inner || piece == Outer then 3 else 2)
    ensures r.1 == QuadStrip(|r.0| - 1)
    ensures r.0[0].faceTexOffsetX == 0.0
    ensures forall k | 0 <= k < |r.0| :: OnBevelLines(r.0[k].space, style.width, config.cellSize)
  {
    var s := config.cellSize;
    var w := style.width;
    AlternatingTablesAreQuadStrips();
    match piece
    case Inner =>
      ([BaseAttribute(0.0, Vec2(s, w)),
        BaseAttribute(s - w, Vec2(w, w)),
        BaseAttribute(2.0 * (s - w), Vec2(w, s))],
       BaseTopAlternatingIndices2)
    case Outer =>
      ([BaseAttribute(0.0, Vec2(0.0, w)),
        BaseAttribute(w, Vec2(w, w)),
        BaseAttribute(2.0 * w, Vec2(0.0, w))],
       BaseTopAlternatingIndices2)
    case Left =>
      ([BaseAttribute(0.0, Vec2(s, w)),
        BaseAttribute(s, Vec2(0.0, w))],
       BaseTopAlternatingIndices1)
    case Right =>
      ([BaseAttribute(0.0, Vec2(w, 0.0)),
        BaseAttribute(s, Vec2(w, s))],
       BaseTopAlternatingIndices1)
  }

  /**
   * The evidently intended edge profile: `make_edge_base` with `Outer`'s first
   * point `(w, 0)`, so that `Outer`'s profile is the L around its `w × w` top
   * square, walked with the top on the same side as every other piece's
   * (`ProfilesFaceOutward`). Every other piece, and every index table, is unchanged.
   */
  function MakeEdgeBaseIntended(piece: Piece, style: Style, config: Config): (r: (seq<BaseAttribute>, seq<nat>))
    ensures r.1 == MakeEdgeBase(piece, style, config).1
    ensures |r.0| == |MakeEdgeBase(piece, style, config).0|
    ensures forall k | 0 <= k < |r.0| ::
              r.0[k] == MakeEdgeBase(piece, style, config).0[k] || (piece == Outer && k == 0)
  {
    var (profile, indices) := MakeEdgeBase(piece, style, config);
    if piece == Outer then (profile[0 := BaseAttribute(0.0, Vec2(style.width, 0.0))], indices)
    else (profile, indices)
  }

  function Abs(x: real): real {
    if x < 0.0 then -x else x
  }

  /** The profile's ground points, in order. */
  function Points(profile: seq<BaseAttribute>): (r: seq<Vec2>)
    ensures |r| == |profile|
    ensures forall k | 0 <= k < |profile| :: r[k] == profile[k].space
  {
    seq(|profile|, k requires 0 <= k < |profile| => profile[k].space)
  }

  /** `p` reflected in the quarter's diagonal. */
  function Swap(p: Vec2): Vec2 {
    Vec2(p.y, p.x)
  }

  /** A path walked backwards and reflected in the diagonal. */
  function Mirror(path: seq<Vec2>): (r: seq<Vec2>)
    ensures |r| == |path|
    ensures forall k | 0 <= k < |path| :: r[k] == Swap(path[|path| - 1 - k])
  {
    seq(|path|, k requires 0 <= k < |path| => Swap(path[|path| - 1 - k]))
  }

  /**
   * The profiles agree with the neighbourhoods: swapping the two sides of a
   * quarter swaps `Left` and `Right` and fixes `Inner` and `Outer`
   * (`PieceInFrame`), so reflecting a profile in the diagonal should map
   * `Left`'s onto `Right`'s and `Inner`'s and `Outer`'s onto themselves. As
   * written this holds for `Left`, `Right` and `Inner`; with the intended
   * `Outer` point it holds for all four.
   */
  lemma ProfilesMirror(style: Style, config: Config)
    ensures forall a, b :: PieceInFrame(a, b) == Left <==> PieceInFrame(b, a) == Right
    ensures Mirror(Points(MakeEdgeBase(Left, style, config).0)) == Points(MakeEdgeBase(Right, style, config).0)
    ensures Mirror(Points(MakeEdgeBase(Inner, style, config).0)) == Points(MakeEdgeBase(Inner, style, config).0)
    ensures Mirror(Points(MakeEdgeBaseIntended(Left, style, config).0)) == Points(MakeEdgeBaseIntended(Right, style, config).0)
    ensures Mirror(Points(MakeEdgeBaseIntended(Inner, style, config).0)) == Points(MakeEdgeBaseIntended(Inner, style, config).0)
    ensures Mirror(Points(MakeEdgeBaseIntended(Outer, style, config).0)) == Points(MakeEdgeBaseIntended(Outer, style, config).0)
  {
  }

  /**
   * For a bevel strictly narrower than a cell, no intended profile visits a
   * point twice, so no face is drawn twice; as written, this holds for every
   * piece but `Outer`.
   */
  lemma ProfilesSimple(piece: Piece, style: Style, config: Config)
    requires 0.0 < style.width < config.cellSize
    ensures var profile := MakeEdgeBaseIntended(piece, style, config).0;
      forall i, j | 0 <= i < j < |profile| :: profile[i].space != profile[j].space
    ensures piece != Outer ==> var profile := MakeEdgeBase(piece, style, config).0;
      forall i, j | 0 <= i < j < |profile| :: profile[i].space != profile[j].space
  {
  }

  /**
   * The face quad over the step `p` to `q` has triangles `(base p, top p,
   * base q)`, whose normal is horizontal, along `(q.y - p.y, p.x - q.x)` in the
   * ground plane. The face is wound outward when that normal points away from
   * `c` at the step's midpoint.
   */
  predicate FacesOutward(p: Vec2, q: Vec2, c: Vec2) {
    var nx, ny := q.y - p.y, p.x - q.x;
    nx * ((p.x + q.x) / 2.0 - c.x) + ny * ((p.y + q.y) / 2.0 - c.y) > 0.0
  }

  /**
   * With `0 < w < s`, every face of every intended profile is wound away from
   * the middle `(w/2, w/2)` of the corner square, as every face written for
   * `Left`, `Right` and `Inner` already is.
   */
  lemma ProfilesFaceOutward(piece: Piece, style: Style, config: Config)
    requires 0.0 < style.width < config.cellSize
    ensures var c, profile := Vec2(style.width / 2.0, style.width / 2.0), MakeEdgeBaseIntended(piece, style, config).0;
      forall k | 0 < k < |profile| :: FacesOutward(profile[k - 1].space, profile[k].space, c)
    ensures piece != Outer ==>
      var c, profile := Vec2(style.width / 2.0, style.width / 2.0), MakeEdgeBase(piece, style, config).0;
      forall k | 0 < k < |profile| :: FacesOutward(profile[k - 1].space, profile[k].space, c)
  {
    var w, s := style.width, config.cellSize;
    var c := Vec2(w / 2.0, w / 2.0);
    // Every step runs along the line `x = w` or `y = w`, on the far side from `c`.
    match piece {
      case Inner =>
        OutwardAlongY(s, w, w, w);
        OutwardAlongX(w, w, s, w);
      case Outer =>
        OutwardAlongX(w, 0.0, w, w);
        OutwardAlongY(w, 0.0, w, w);
      case Left =>
        OutwardAlongY(s, 0.0, w, w);
      case Right =>
        OutwardAlongX(w, 0.0, s, w);
    }
  }

  /** A step along the line `y` towards smaller `x` faces away from a centre on the smaller-`y` side. */
  lemma OutwardAlongY(x0: real, x1: real, y: real, w: real)
    requires x1 < x0 && w / 2.0 < y
    ensures FacesOutward(Vec2(x0, y), Vec2(x1, y), Vec2(w / 2.0, w / 2.0))
  {
    assert (x0 - x1) * (y - w / 2.0) > 0.0;
  }

  /** A step along the line `x` towards larger `y` faces away from a centre on the smaller-`x` side. */
  lemma OutwardAlongX(x: real, y0: real, y1: real, w: real)
    requires y0 < y1 && w / 2.0 < x
    ensures FacesOutward(Vec2(x, y0), Vec2(x, y1), Vec2(w / 2.0, w / 2.0))
  {
    assert (y1 - y0) * (x - w / 2.0) > 0.0;
  }

  /**
   * The other one-point repair, `(w, 0)` at the end of `Outer`'s profile
   * instead of at its start, winds both faces inward.
   */
  lemma OuterRepairAtEndFacesInward(w: real)
    requires w != 0.0
    ensures !FacesOutward(Vec2(0.0, w), Vec2(w, w), Vec2(w / 2.0, w / 2.0))
    ensures !FacesOutward(Vec2(w, w), Vec2(w, 0.0), Vec2(w / 2.0, w / 2.0))
  {
    assert w * w > 0.0;
  }

  /**
   * As written, `Outer`'s profile returns to its start, so its second face quad
   * retraces the first, the profile is not its own mirror image, and its first
   * face is wound inward.
   */
  lemma OuterProfileRetraces(style: Style, config: Config)
    requires style.width != 0.0
    ensures MakeEdgeBase(Outer, style, config).0[2].space == MakeEdgeBase(Outer, style, config).0[0].space
    ensures Mirror(Points(MakeEdgeBase(Outer, style, config).0)) != Points(MakeEdgeBase(Outer, style, config).0)
    ensures !FacesOutward(MakeEdgeBase(Outer, style, config).0[0].space, MakeEdgeBase(Outer, style, config).0[1].space,
                          Vec2(style.width / 2.0, style.width / 2.0))
  {
    assert style.width * style.width > 0.0;
  }

  /** Consecutive profile points differ in one coordinate only. */
  predicate AxisAligned(p: Vec2, q: Vec2) {
    p.x == q.x || p.y == q.y
  }

  function StepLength(p: Vec2, q: Vec2): real {
    Abs(q.x - p.x) + Abs(q.y - p.y)
  }

  /**
   * The face texture runs continuously along the profile: it starts at 0 and
   * each point's offset is the previous one plus the length of the step between
   * them, provided the bevel is no wider than a cell. This holds both as
   * written and for the intended profile.
   */
  lemma FaceTextureFollowsProfile(piece: Piece, style: Style, config: Config)
    requires 0.0 <= style.width <= config.cellSize
    ensures var profile := MakeEdgeBase(piece, style, config).0;
      forall k | 0 < k < |profile| ::
        && AxisAligned(profile[k - 1].space, profile[k].space)
        && profile[k].faceTexOffsetX - profile[k - 1].faceTexOffsetX == StepLength(profile[k - 1].space, profile[k].space)
    ensures var profile := MakeEdgeBaseIntended(piece, style, config).0;
      forall k | 0 < k < |profile| ::
        && AxisAligned(profile[k - 1].space, profile[k].space)
        && profile[k].faceTexOffsetX - profile[k - 1].faceTexOffsetX == StepLength(profile[k - 1].space, profile[k].space)
  {
  }

  /** The ground copy of a profile point: height 0, bottom row of the face texture. */
  function BaseCopy(style: Style, a: BaseAttribute): Attribute {
    Attribute(Vec3(a.space.x, 0.0, a.space.y),
              Vec2(a.faceTexOffsetX + style.faceTexTopLeft.x, style.height + style.faceTexTopLeft.y))
  }

  /** The raised copy of a profile point: bevel height, top row of the face texture. */
  function TopCopy(style: Style, a: BaseAttribute): Attribute {
    Attribute(Vec3(a.space.x, style.height, a.space.y),
              Vec2(a.faceTexOffsetX + style.faceTexTopLeft.x, style.faceTexTopLeft.y))
  }

  /** The `zip`/`flat_map` of `make_faces`: base and top copy of each point, in turn. */
  function FaceStrip(style: Style, profile: seq<BaseAttribute>): (r: seq<Attribute>)
    ensures |r| == 2 * |profile|
    ensures forall k | 0 <= k < |profile| ::
              r[2 * k] == BaseCopy(style, profile[k]) && r[2 * k + 1] == TopCopy(style, profile[k])
  {
    if |profile| == 0 then []
    else
      var rest := FaceStrip(style, profile[1..]);
      var r := [BaseCopy(style, profile[0]), TopCopy(style, profile[0])] + rest;
      assert forall k | 1 <= k < |profile| ::
               r[2 * k] == BaseCopy(style, profile[k]) && r[2 * k + 1] == TopCopy(style, profile[k]) by {
        forall k | 1 <= k < |profile|
          ensures r[2 * k] == BaseCopy(style, profile[k]) && r[2 * k + 1] == TopCopy(style, profile[k])
        {
          var j := k - 1;
          assert profile[1..][j] == profile[k];
          assert 2 * k == 2 * j + 2;
          assert r[2 * j + 2] == rest[2 * j] && r[2 * j + 3] == rest[2 * j + 1];
        }
      }
      r
  }

  /**
   * `make_faces`: the vertical strip under the profile. Each profile point gives
   * two attributes, one on the ground and one at the bevel's height, at the
   * same horizontal place and texture column, the texture rows `height` apart.
   */
  function MakeFaces(piece: Piece, style: Style, config: Config): (r: RelativeBuffers)
    ensures var profile := MakeEdgeBase(piece, style, config).0;
      && |r.attributes| == 2 * |profile|
      && r.indices == QuadStrip(|profile| - 1)
      && forall k | 0 <= k < |profile| ::
           var base, top := r.attributes[2 * k], r.attributes[2 * k + 1];
           && base.space == Vec3(profile[k].space.x, 0.0, profile[k].space.y)
           && top.space == Vec3(profile[k].space.x, style.height, profile[k].space.y)
           && base.tex.x == top.tex.x == profile[k].faceTexOffsetX + style.faceTexTopLeft.x
           && base.tex.y - top.tex.y == style.height
    ensures WellFormed(r) && Covered(r)
  {
    var (profile, indices) := MakeEdgeBase(piece, style, config);
    RelativeBuffers(FaceStrip(style, profile), indices)
  }

  const RectTopIndices: seq<nat> := [0, 1, 2, 0, 2, 3]

  const InnerTopIndices: seq<nat> := [0, 1, 2, 0, 2, 3, 2, 4, 3, 2, 5, 4]

  /** `make_rect_top`: the four corners of a `size` rectangle at the origin, and two triangles. */
  function MakeRectTop(size: Vec2, pieceTexOffset: Vec2): (r: (seq<TopAttribute>, seq<nat>))
    ensures |r.0| == 4 && r.1 == RectTopIndices
    ensures forall k | 0 <= k < 4 :: r.0[k] == NewTopAttribute(pieceTexOffset, r.0[k].space)
    ensures Corners(r.0) == [Vec2(0.0, 0.0), Vec2(0.0, size.y), Vec2(size.x, size.y), Vec2(size.x, 0.0)]
  {
    ([NewTopAttribute(pieceTexOffset, Vec2(0.0, 0.0)),
      NewTopAttribute(pieceTexOffset, Vec2(0.0, size.y)),
      NewTopAttribute(pieceTexOffset, size),
      NewTopAttribute(pieceTexOffset, Vec2(size.x, 0.0))],
     RectTopIndices)
  }

  /**
   * The outline's points, in order: `Points` for the top outline, whose
   * attributes are `TopAttribute`s rather than the profile's `BaseAttribute`s.
   */
  function Corners(outline: seq<TopAttribute>): (r: seq<Vec2>)
    ensures |r| == |outline|
    ensures forall k | 0 <= k < |outline| :: r[k] == outline[k].space
  {
    seq(|outline|, k requires 0 <= k < |outline| => outline[k].space)
  }

  /** Where each piece's top texture sits in the atlas, in units of the cell size. */
  function AtlasOffset(piece: Piece, s: real): Vec2 {
    match piece
    case Inner => Vec2(s, s)
    case Outer => Vec2(0.0, 2.0 * s)
    case Left => Vec2(s, 2.0 * s)
    case Right => Vec2(0.0, s)
  }

  /**
   * The top outline of a piece, before it is lifted to the bevel's height:
   * `Inner` is the six-point L that covers the cell but its open `(w, w)..(s, s)`
   * corner; `Outer`, `Left` and `Right` are the `w × w`, `s × w` and `w × s`
   * rectangles at the origin. Every vertex samples the piece's atlas region.
   */
  function TopOutline(piece: Piece, style: Style, config: Config): (r: (seq<TopAttribute>, seq<nat>))
    ensures |r.0| == (if piece == Inner then 6 else 4)
    ensures r.1 == (if piece == Inner then InnerTopIndices else RectTopIndices)
    ensures forall k | 0 <= k < |r.0| :: r.0[k] == NewTopAttribute(AtlasOffset(piece, config.cellSize), r.0[k].space)
    ensures piece == Inner ==>
      var s, w := config.cellSize, style.width;
      Corners(r.0) == [Vec2(0.0, s), Vec2(w, s), Vec2(w, w), Vec2(0.0, 0.0), Vec2(s, 0.0), Vec2(s, w)]
    ensures piece == Outer ==> r == MakeRectTop(Vec2(style.width, style.width), AtlasOffset(piece, config.cellSize))
    ensures piece == Left ==> r == MakeRectTop(Vec2(config.cellSize, style.width), AtlasOffset(piece, config.cellSize))
    ensures piece == Right ==> r == MakeRectTop(Vec2(style.width, config.cellSize), AtlasOffset(piece, config.cellSize))
  {
    var s := config.cellSize;
    var w := style.width;
    var offset := AtlasOffset(piece, s);
    match piece
    case Inner =>
      ([NewTopAttribute(offset, Vec2(0.0, s)),
        NewTopAttribute(offset, Vec2(w, s)),
        NewTopAttribute(offset, Vec2(w, w)),
        NewTopAttribute(offset, Vec2(0.0, 0.0)),
        NewTopAttribute(offset, Vec2(s, 0.0)),
        NewTopAttribute(offset, Vec2(s, w))],
       InnerTopIndices)
    case Outer => MakeRectTop(Vec2(w, w), offset)
    case Left => MakeRectTop(Vec2(s, w), offset)
    case Right => MakeRectTop(Vec2(w, s), offset)
  }

  /** A top attribute lifted to the bevel's height, its texture moved to the atlas's top region. */
  function Lift(style: Style, a: TopAttribute): Attribute {
    Attribute(Vec3(a.space.x, style.height, a.space.y),
              Vec2(a.texOffset.x + style.topTexTopLeft.x, a.texOffset.y + style.topTexTopLeft.y))
  }

  /**
   * `make_top`: a flat surface at the bevel's height, every vertex used, its
   * texture a projection of the surface onto the piece's atlas region.
   */
  function MakeTop(piece: Piece, style: Style, config: Config): (r: RelativeBuffers)
    ensures |r.attributes| == (if piece == Inner then 6 else 4)
    ensures |r.indices| == (if piece == Inner then 12 else 6)
    ensures r.indices == TopOutline(piece, style, config).1
    ensures |r.attributes| == |TopOutline(piece, style, config).0|
    ensures forall i | 0 <= i < |r.attributes| ::
              var p := TopOutline(piece, style, config).0[i].space;
              r.attributes[i].space == Vec3(p.x, style.height, p.y)
    ensures WellFormed(r) && Covered(r)
    ensures forall i | 0 <= i < |r.attributes| ::
              var a := r.attributes[i];
              var offset := AtlasOffset(piece, config.cellSize);
              && a.space.y == style.height
              && a.tex.x - a.space.x == offset.x + style.topTexTopLeft.x
              && a.tex.y + a.space.z == offset.y + style.topTexTopLeft.y
  {
    var (outline, indices) := TopOutline(piece, style, config);
    TopTablesCover();
    RelativeBuffers(seq(|outline|, i requires 0 <= i < |outline| => Lift(style, outline[i])), indices)
  }

  /** Each top table uses every vertex of its outline and no other. */
  lemma TopTablesCover()
    ensures forall v: nat :: v in RectTopIndices <==> v < 4
    ensures forall v: nat :: v in InnerTopIndices <==> v < 6
  {
    assert RectTopIndices[0] == 0 && RectTopIndices[1] == 1 && RectTopIndices[2] == 2 && RectTopIndices[5] == 3;
    assert InnerTopIndices[0] == 0 && InnerTopIndices[1] == 1 && InnerTopIndices[2] == 2 && InnerTopIndices[5] == 3;
    assert InnerTopIndices[7] == 4 && InnerTopIndices[10] == 5;
  }

  /** The face strip's raised copies lie on the top's outline, so faces and top meet. */
  lemma FacesHangFromTop(piece: Piece, style: Style, config: Config)
    ensures forall k | 0 <= k < |MakeEdgeBase(piece, style, config).0| ::
              exists i | 0 <= i < |MakeTop(piece, style, config).attributes| ::
                MakeTop(piece, style, config).attributes[i].space == MakeFaces(piece, style, config).attributes[2 * k + 1].space
  {
    var top, faces := MakeTop(piece, style, config), MakeFaces(piece, style, config);
    var outline := TopOutline(piece, style, config).0;
    assert forall i | 0 <= i < |outline| :: top.attributes[i] == Lift(style, outline[i]);
    var profile := MakeEdgeBase(piece, style, config).0;
    // For each profile point, the outline vertex it sits on.
    var at: seq<nat> := match piece
      case Inner => [5, 2, 1]
      case Outer => [1, 2, 1]
      case Left => [2, 1]
      case Right => [3, 2];
    forall k | 0 <= k < |profile|
      ensures exists i | 0 <= i < |top.attributes| :: top.attributes[i].space == faces.attributes[2 * k + 1].space
    {
      assert Corners(outline)[at[k]] == Points(profile)[k];
      assert top.attributes[at[k]].space == faces.attributes[2 * k + 1].space;
    }
  }

  /** Per-piece attribute counts of the whole piece mesh. */
  function AttributeCount(piece: Piece): nat {
    match piece
    case Inner => 12
    case Outer => 10
    case Left => 8
    case Right => 8
  }

  /** Per-piece index counts of the whole piece mesh. */
  function IndexCount(piece: Piece): nat {
    match piece
    case Inner => 24
    case Outer => 18
    case Left => 12
    case Right => 12
  }

  /**
   * `make_geometry`: the top followed by the face strip, merged with `Concat`;
   * well formed, every vertex used, and of the piece's fixed size.
   */
  function MakeGeometry(piece: Piece, style: Style, config: Config): (r: RelativeBuffers)
    ensures WellFormed(r) && Covered(r)
    ensures |r.attributes| == AttributeCount(piece)
    ensures |r.indices| == IndexCount(piece)
    ensures r.attributes[..|MakeTop(piece, style, config).attributes|] == MakeTop(piece, style, config).attributes
    ensures r.attributes[|MakeTop(piece, style, config).attributes|..] == MakeFaces(piece, style, config).attributes
    ensures Resolve(r) == Resolve(MakeTop(piece, style, config)) + Resolve(MakeFaces(piece, style, config))
  {
    var top, faces := MakeTop(piece, style, config), MakeFaces(piece, style, config);
    assert |faces.attributes| == AttributeCount(piece) - |top.attributes|
        && |faces.indices| == IndexCount(piece) - |top.indices| by {
      var n := |MakeEdgeBase(piece, style, config).0|;
      assert |faces.attributes| == 2 * n && |faces.indices| == 6 * (n - 1);
    }
    ConcatResolves(top, faces);
    Concat(top, faces)
  }
}
