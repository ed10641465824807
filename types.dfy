/** Value types of the layout engine: points and frames, the nine anchors of a
    frame and their RTL aliases, the six edges, the alignment policies of the
    relative-positioning operations, the layout direction and padding. */
module Types {

  /** A point in the superview's coordinate space; y grows downwards. */
  datatype Point = Point(x: real, y: real)

  /** A frame: its top-left corner (x, y) and its size. */
  datatype Rect = Rect(x: real, y: real, width: real, height: real)

  // ---------------------------------------------------------------------------
  // Edges
  // ---------------------------------------------------------------------------

  /** The edges along the vertical axis (they fix a y coordinate), top to bottom. */
  datatype VerticalEdge = Top | VCenter | Bottom

  /** The edges along the horizontal axis (they fix an x coordinate), left to right. */
  datatype HorizontalEdge = Left | HCenter | Right

  /** The RTL aliases of the horizontal edges. */
  datatype DirectionalEdge = Start | End

  /** The y coordinate of a vertical edge of a frame. */
  function VerticalEdgeCoordinate(e: VerticalEdge, r: Rect): real
  {
    match e
    case Top => r.y
    case VCenter => r.y + r.height / 2.0
    case Bottom => r.y + r.height
  }

  /** The x coordinate of a horizontal edge of a frame. */
  function HorizontalEdgeCoordinate(e: HorizontalEdge, r: Rect): real
  {
    match e
    case Left => r.x
    case HCenter => r.x + r.width / 2.0
    case Right => r.x + r.width
  }

  /** `start` is the left edge and `end` the right edge under LTR, and the
      other way round under RTL. */
  function ResolveEdge(e: DirectionalEdge, isLTR: bool): (h: HorizontalEdge)
    ensures h != HCenter
    ensures (e == DirectionalEdge.Start) == (isLTR == (h == HorizontalEdge.Left))
  {
    match e
    case Start => if isLTR then HorizontalEdge.Left else HorizontalEdge.Right
    case End => if isLTR then HorizontalEdge.Right else HorizontalEdge.Left
  }

  /** Switching the direction swaps what `start` and `end` stand for. */
  lemma DirectionalEdgeMirror(e: DirectionalEdge, isLTR: bool)
    ensures ResolveEdge(e, !isLTR) == ResolveEdge(if e == DirectionalEdge.Start then DirectionalEdge.End else DirectionalEdge.Start, isLTR)
  {
  }

  // ---------------------------------------------------------------------------
  // Anchors
  // ---------------------------------------------------------------------------

  /** The nine anchors of a frame: its corners, the midpoints of its edges and
      its center.  (The anchor diagram in Types.swift labels the bottom-right
      corner "bottomLeft"; the declared anchor is bottomRight.) */
  datatype Anchor =
    | TopLeft | TopCenter | TopRight
    | CenterLeft | Center | CenterRight
    | BottomLeft | BottomCenter | BottomRight

  /** The RTL aliases of the left and right anchors of each row. */
  datatype DirectionalAnchor =
    | TopStart | TopEnd
    | CenterStart | CenterEnd
    | BottomStart | BottomEnd

  /** The point an anchor designates on a frame, read off the anchor diagram. */
  function AnchorPoint(a: Anchor, r: Rect): Point
  {
    match a
    case TopLeft => Point(r.x, r.y)
    case TopCenter => Point(r.x + r.width / 2.0, r.y)
    case TopRight => Point(r.x + r.width, r.y)
    case CenterLeft => Point(r.x, r.y + r.height / 2.0)
    case Center => Point(r.x + r.width / 2.0, r.y + r.height / 2.0)
    case CenterRight => Point(r.x + r.width, r.y + r.height / 2.0)
    case BottomLeft => Point(r.x, r.y + r.height)
    case BottomCenter => Point(r.x + r.width / 2.0, r.y + r.height)
    case BottomRight => Point(r.x + r.width, r.y + r.height)
  }

  /** The row of the anchor grid an anchor sits on. */
  function Row(a: Anchor): VerticalEdge
  {
    match a
    case TopLeft | TopCenter | TopRight => VerticalEdge.Top
    case CenterLeft | Center | CenterRight => VCenter
    case BottomLeft | BottomCenter | BottomRight => VerticalEdge.Bottom
  }

  /** The column of the anchor grid an anchor sits on. */
  function Column(a: Anchor): HorizontalEdge
  {
    match a
    case TopLeft | CenterLeft | BottomLeft => HorizontalEdge.Left
    case TopCenter | Center | BottomCenter => HCenter
    case TopRight | CenterRight | BottomRight => HorizontalEdge.Right
  }

  /** The anchor where a vertical and a horizontal edge line meet. */
  function AnchorAt(row: VerticalEdge, column: HorizontalEdge): (a: Anchor)
    ensures Row(a) == row && Column(a) == column
  {
    match (row, column)
    case (Top, Left) => TopLeft
    case (Top, HCenter) => TopCenter
    case (Top, Right) => TopRight
    case (VCenter, Left) => CenterLeft
    case (VCenter, HCenter) => Anchor.Center
    case (VCenter, Right) => CenterRight
    case (Bottom, Left) => BottomLeft
    case (Bottom, HCenter) => BottomCenter
    case (Bottom, Right) => BottomRight
  }

  /** The nine anchors are exactly the crossings of the three vertical and the
      three horizontal edges: the grid position determines the anchor. */
  lemma AnchorGrid(a: Anchor)
    ensures AnchorAt(Row(a), Column(a)) == a
  {
  }

  /** Every anchor lies where its row's edge and its column's edge cross. */
  lemma AnchorOnEdges(a: Anchor, r: Rect)
    ensures AnchorPoint(a, r) == Point(HorizontalEdgeCoordinate(Column(a), r), VerticalEdgeCoordinate(Row(a), r))
  {
  }

  /** The center anchors are midpoints: topCenter halfway along the top edge,
      centerLeft halfway down the left edge, center halfway along the diagonal. */
  lemma AnchorMidpoints(r: Rect)
    ensures AnchorPoint(TopCenter, r).y == AnchorPoint(TopLeft, r).y == AnchorPoint(TopRight, r).y
    ensures AnchorPoint(TopCenter, r).x == (AnchorPoint(TopLeft, r).x + AnchorPoint(TopRight, r).x) / 2.0
    ensures AnchorPoint(CenterLeft, r).x == AnchorPoint(TopLeft, r).x == AnchorPoint(BottomLeft, r).x
    ensures AnchorPoint(CenterLeft, r).y == (AnchorPoint(TopLeft, r).y + AnchorPoint(BottomLeft, r).y) / 2.0
    ensures AnchorPoint(Anchor.Center, r).x == (AnchorPoint(TopLeft, r).x + AnchorPoint(BottomRight, r).x) / 2.0
    ensures AnchorPoint(Anchor.Center, r).y == (AnchorPoint(TopLeft, r).y + AnchorPoint(BottomRight, r).y) / 2.0
  {
  }

  /** On a frame of non-negative size every anchor lies inside the frame. */
  lemma AnchorInsideFrame(a: Anchor, r: Rect)
    requires r.width >= 0.0 && r.height >= 0.0
    ensures r.x <= AnchorPoint(a, r).x <= r.x + r.width
    ensures r.y <= AnchorPoint(a, r).y <= r.y + r.height
  {
  }

  /** The row an RTL anchor alias sits on. */
  function DirectionalRow(d: DirectionalAnchor): VerticalEdge
  {
    match d
    case TopStart | TopEnd => VerticalEdge.Top
    case CenterStart | CenterEnd => VCenter
    case BottomStart | BottomEnd => VerticalEdge.Bottom
  }

  /** Whether an RTL anchor alias is a start or an end anchor. */
  function DirectionalSide(d: DirectionalAnchor): DirectionalEdge
  {
    match d
    case TopStart | CenterStart | BottomStart => DirectionalEdge.Start
    case TopEnd | CenterEnd | BottomEnd => DirectionalEdge.End
  }

  /** The anchor an RTL alias stands for under the given direction. */
  function ResolveAnchor(d: DirectionalAnchor, isLTR: bool): Anchor
  {
    match d
    case TopStart => if isLTR then TopLeft else TopRight
    case TopEnd => if isLTR then TopRight else TopLeft
    case CenterStart => if isLTR then CenterLeft else CenterRight
    case CenterEnd => if isLTR then CenterRight else CenterLeft
    case BottomStart => if isLTR then BottomLeft else BottomRight
    case BottomEnd => if isLTR then BottomRight else BottomLeft
  }

  /** An RTL anchor alias keeps its row and takes the column of the edge its
      side resolves to; so it is never a center-column anchor. */
  lemma ResolveAnchorOnGrid(d: DirectionalAnchor, isLTR: bool)
    ensures ResolveAnchor(d, isLTR) == AnchorAt(DirectionalRow(d), ResolveEdge(DirectionalSide(d), isLTR))
    ensures Column(ResolveAnchor(d, isLTR)) != HCenter
  {
  }

  // ---------------------------------------------------------------------------
  // Alignment policies and layout direction
  // ---------------------------------------------------------------------------

  // The relative-positioning operations take `.none` as the default alignment
  // and switch over it, but the enums in Types.swift declare no `none` case;
  // both alignment types here carry an explicit None constructor meaning
  // "write no alignment edge".

  /** Horizontal alignment of above(of:) and below(of:). */
  datatype HorizontalAlign = Left | Center | Right | Start | End | None

  /** Vertical alignment of left(of:), right(of:), before(of:) and after(of:). */
  datatype VerticalAlign = Top | Center | Bottom | None

  /** The layout direction setting. */
  datatype LayoutDirection = Auto | Ltr | Rtl

  /** Whether layout is left-to-right; `auto` defers to the locale's writing
      direction, which is supplied by the caller. */
  function IsLTR(d: LayoutDirection, localeIsLTR: bool): (ltr: bool)
    ensures d == Ltr ==> ltr
    ensures d == Rtl ==> !ltr
    ensures d == Auto ==> ltr == localeIsLTR
  {
    match d
    case Ltr => true
    case Rtl => false
    case Auto => localeIsLTR
  }

  // ---------------------------------------------------------------------------
  // Padding
  // ---------------------------------------------------------------------------

  /** Insets of the four sides; the four-argument initializer is the
      constructor, which takes them in the order top, left, bottom, right. */
  datatype PPadding = PPadding(top: real, left: real, bottom: real, right: real)

  /** The same inset on all four sides. */
  function PaddingAll(all: real): (p: PPadding)
    ensures p.top == all && p.left == all && p.bottom == all && p.right == all
  {
    PPadding(all, all, all, all)
  }

  /** No inset at all. */
  function PaddingZero(): (p: PPadding)
    ensures p.top == 0.0 && p.left == 0.0 && p.bottom == 0.0 && p.right == 0.0
  {
    PaddingAll(0.0)
  }

  /** A horizontal inset for left and right and a vertical one for top and bottom. */
  function PaddingHV(h: real, v: real): (p: PPadding)
    ensures p.top == v && p.bottom == v
    ensures p.left == h && p.right == h
  {
    PPadding(v, h, v, h)
  }

  /** A padding comes from the (h:v:) initializer exactly when it is symmetric:
      equal top and bottom, equal left and right. */
  lemma PaddingHVExactlySymmetric(p: PPadding)
    ensures (exists h, v :: p == PaddingHV(h, v)) <==> p.top == p.bottom && p.left == p.right
  {
    if p.top == p.bottom && p.left == p.right {
      assert p == PaddingHV(p.left, p.top);
    }
  }

  /** A uniform padding is the symmetric padding with equal insets, and the
      zero padding is the uniform padding 0. */
  lemma PaddingAllIsHV(all: real)
    ensures PaddingAll(all) == PaddingHV(all, all)
    ensures PaddingZero() == PaddingHV(0.0, 0.0)
  {
  }
}
