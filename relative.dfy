/** The relative-positioning engine: above, below, left and right of one or
    several reference frames, with an optional alignment on the other axis,
    and the direction-aware aliases before and after.  Each operation
    validates the reference list, picks one anchor per reference, reduces the
    anchor points to one coordinate, pins one edge of the subject and then may
    pin a second, orthogonal edge computed from the same points. */
module Relative {
  import opened Types
  import opened Coordinates

  datatype Option<+T> = None | Some(value: T)

  /** The edges pinned so far on the subject; an edge is unset or pinned to a
      coordinate, and a later write replaces an earlier one. */
  datatype PendingEdges = PendingEdges(
    top: Option<real>,
    bottom: Option<real>,
    left: Option<real>,
    right: Option<real>,
    hCenter: Option<real>,
    vCenter: Option<real>)

  /** No edge pinned. */
  const Unpinned := PendingEdges(Option.None, Option.None, Option.None, Option.None, Option.None, Option.None)

  /** Pins one vertical edge. */
  function PinVertical(e: PendingEdges, v: VerticalEdge, value: real): PendingEdges
  {
    match v
    case Top => e.(top := Some(value))
    case VCenter => e.(vCenter := Some(value))
    case Bottom => e.(bottom := Some(value))
  }

  /** The value a vertical edge is pinned to, if any. */
  function VerticalEdgeValue(e: PendingEdges, v: VerticalEdge): Option<real>
  {
    match v
    case Top => e.top
    case VCenter => e.vCenter
    case Bottom => e.bottom
  }

  /** The value a horizontal edge is pinned to, if any. */
  function HorizontalEdgeValue(e: PendingEdges, h: HorizontalEdge): Option<real>
  {
    match h
    case Left => e.left
    case HCenter => e.hCenter
    case Right => e.right
  }

  /** Pins one horizontal edge. */
  function PinHorizontal(e: PendingEdges, h: HorizontalEdge, value: real): PendingEdges
  {
    match h
    case Left => e.(left := Some(value))
    case HCenter => e.(hCenter := Some(value))
    case Right => e.(right := Some(value))
  }

  // ---------------------------------------------------------------------------
  // Anchor selection
  // ---------------------------------------------------------------------------

  /** The anchor above(of:) takes on each reference: on its top edge, in the
      column the alignment names; none takes the top-left corner. */
  function AboveAnchor(aligned: HorizontalAlign, isLTR: bool): (a: Anchor)
    ensures Row(a) == VerticalEdge.Top
    ensures Column(a) == match HorizontalAlignmentEdge(aligned, isLTR)
      case None => HorizontalEdge.Left
      case Some(h) => h
  {
    match aligned
    case Left => TopLeft
    case Center => TopCenter
    case Right => TopRight
    case Start => if isLTR then TopLeft else TopRight
    case End => if isLTR then TopRight else TopLeft
    case None => TopLeft
  }

  /** The anchor below(of:) takes on each reference: on its bottom edge. */
  function BelowAnchor(aligned: HorizontalAlign, isLTR: bool): (a: Anchor)
    ensures Row(a) == VerticalEdge.Bottom
    ensures Column(a) == match HorizontalAlignmentEdge(aligned, isLTR)
      case None => HorizontalEdge.Left
      case Some(h) => h
  {
    match aligned
    case Left => BottomLeft
    case Center => BottomCenter
    case Right => BottomRight
    case Start => if isLTR then BottomLeft else BottomRight
    case End => if isLTR then BottomRight else BottomLeft
    case None => BottomLeft
  }

  /** The anchor left(of:) takes on each reference: on its left edge, in the
      row the alignment names; none takes the top-left corner. */
  function LeftAnchor(aligned: VerticalAlign): (a: Anchor)
    ensures Column(a) == HorizontalEdge.Left
    ensures Row(a) == match VerticalAlignmentEdge(aligned)
      case None => VerticalEdge.Top
      case Some(v) => v
  {
    match aligned
    case Top => TopLeft
    case Center => CenterLeft
    case Bottom => BottomLeft
    case None => TopLeft
  }

  /** The anchor right(of:) takes on each reference: on its right edge. */
  function RightAnchor(aligned: VerticalAlign): (a: Anchor)
    ensures Column(a) == HorizontalEdge.Right
    ensures Row(a) == match VerticalAlignmentEdge(aligned)
      case None => VerticalEdge.Top
      case Some(v) => v
  {
    match aligned
    case Top => TopRight
    case Center => CenterRight
    case Bottom => BottomRight
    case None => TopRight
  }

  /** The anchor points of the references, in order.  The references are
      already in the subject's superview coordinate space. */
  function AnchorPoints(refs: seq<Rect>, a: Anchor): (pts: seq<Point>)
    ensures |pts| == |refs|
    ensures forall i :: 0 <= i < |refs| ==> pts[i] == AnchorPoint(a, refs[i])
  {
    seq(|refs|, i requires 0 <= i < |refs| => AnchorPoint(a, refs[i]))
  }

  // ---------------------------------------------------------------------------
  // Alignment follow-up
  // ---------------------------------------------------------------------------

  /** The horizontal edge a horizontal alignment pins, if any; start and end
      resolve by direction. */
  function HorizontalAlignmentEdge(aligned: HorizontalAlign, isLTR: bool): (edge: Option<HorizontalEdge>)
    ensures edge.None? <==> aligned == HorizontalAlign.None
    ensures edge == Some(HorizontalEdge.Left) <==>
      aligned == HorizontalAlign.Left || (aligned == HorizontalAlign.Start && isLTR) || (aligned == HorizontalAlign.End && !isLTR)
    ensures edge == Some(HCenter) <==> aligned == HorizontalAlign.Center
    ensures edge == Some(HorizontalEdge.Right) <==>
      aligned == HorizontalAlign.Right || (aligned == HorizontalAlign.End && isLTR) || (aligned == HorizontalAlign.Start && !isLTR)
  {
    match aligned
    case Left => Some(HorizontalEdge.Left)
    case Center => Some(HCenter)
    case Right => Some(HorizontalEdge.Right)
    case Start => Some(ResolveEdge(DirectionalEdge.Start, isLTR))
    case End => Some(ResolveEdge(DirectionalEdge.End, isLTR))
    case None => Option.None
  }

  /** The vertical edge a vertical alignment pins, if any. */
  function VerticalAlignmentEdge(aligned: VerticalAlign): (edge: Option<VerticalEdge>)
    ensures edge.None? <==> aligned == VerticalAlign.None
    ensures edge == Some(VerticalEdge.Top) <==> aligned == VerticalAlign.Top
    ensures edge == Some(VCenter) <==> aligned == VerticalAlign.Center
    ensures edge == Some(VerticalEdge.Bottom) <==> aligned == VerticalAlign.Bottom
  {
    match aligned
    case Top => Some(VerticalEdge.Top)
    case Center => Some(VCenter)
    case Bottom => Some(VerticalEdge.Bottom)
    case None => Option.None
  }

  /** The coordinate an aligned horizontal edge takes from the anchor points:
      the leftmost for left, the average for the center, the rightmost for
      right; in every case within the points' horizontal span. */
  function ReduceHorizontal(h: HorizontalEdge, pts: seq<Point>): (x: real)
    requires |pts| > 0
    ensures LeftMost(pts) <= x <= RightMost(pts)
  {
    match h
    case Left => LeftMost(pts)
    case HCenter => AverageHCenter(pts)
    case Right => RightMost(pts)
  }

  /** The coordinate an aligned vertical edge takes from the anchor points:
      the topmost for top, the average for the center, the bottommost for
      bottom; in every case within the points' vertical span. */
  function ReduceVertical(v: VerticalEdge, pts: seq<Point>): (y: real)
    requires |pts| > 0
    ensures TopMost(pts) <= y <= BottomMost(pts)
  {
    match v
    case Top => TopMost(pts)
    case VCenter => AverageVCenter(pts)
    case Bottom => BottomMost(pts)
  }

  /** applyHorizontalAlignment: pins the edge the alignment names, if any,
      from the anchor points.  The vertical axis is left alone; on the
      horizontal axis only the named edge changes, and it lands within the
      anchors' horizontal span. */
  function HorizontallyAligned(e: PendingEdges, aligned: HorizontalAlign, pts: seq<Point>, isLTR: bool): (r: PendingEdges)
    requires |pts| > 0
    ensures r.top == e.top && r.bottom == e.bottom && r.vCenter == e.vCenter
    ensures match HorizontalAlignmentEdge(aligned, isLTR)
      case None => r == e
      case Some(h) =>
        && HorizontalEdgeValue(r, h).Some?
        && r == PinHorizontal(e, h, HorizontalEdgeValue(r, h).value)
        && LeftMost(pts) <= HorizontalEdgeValue(r, h).value <= RightMost(pts)
  {
    match HorizontalAlignmentEdge(aligned, isLTR)
    case None => e
    case Some(h) => PinHorizontal(e, h, ReduceHorizontal(h, pts))
  }

  /** applyVerticalAlignment: pins the edge the alignment names, if any, from
      the anchor points.  The horizontal axis is left alone; on the vertical
      axis only the named edge changes, and it lands within the anchors'
      vertical span. */
  function VerticallyAligned(e: PendingEdges, aligned: VerticalAlign, pts: seq<Point>): (r: PendingEdges)
    requires |pts| > 0
    ensures r.left == e.left && r.right == e.right && r.hCenter == e.hCenter
    ensures match VerticalAlignmentEdge(aligned)
      case None => r == e
      case Some(v) =>
        && VerticalEdgeValue(r, v).Some?
        && r == PinVertical(e, v, VerticalEdgeValue(r, v).value)
        && TopMost(pts) <= VerticalEdgeValue(r, v).value <= BottomMost(pts)
  {
    match VerticalAlignmentEdge(aligned)
    case None => e
    case Some(v) => PinVertical(e, v, ReduceVertical(v, pts))
  }

  // ---------------------------------------------------------------------------
  // The operations on pinned edges
  // ---------------------------------------------------------------------------

  /** The warnings an operation issues: one when the reference list is empty. */
  function WarningsFor(refs: seq<Rect>): nat
  {
    if |refs| == 0 then 1 else 0
  }

  /** above(of:aligned:): the bottom edge goes to the topmost anchor, then the
      horizontal alignment follows. */
  function AboveEdges(e: PendingEdges, refs: seq<Rect>, aligned: HorizontalAlign, isLTR: bool): PendingEdges
  {
    if |refs| == 0 then e
    else
      var pts := AnchorPoints(refs, AboveAnchor(aligned, isLTR));
      HorizontallyAligned(e.(bottom := Some(TopMost(pts))), aligned, pts, isLTR)
  }

  /** below(of:aligned:): the top edge goes to the bottommost anchor, then the
      horizontal alignment follows. */
  function BelowEdges(e: PendingEdges, refs: seq<Rect>, aligned: HorizontalAlign, isLTR: bool): PendingEdges
  {
    if |refs| == 0 then e
    else
      var pts := AnchorPoints(refs, BelowAnchor(aligned, isLTR));
      HorizontallyAligned(e.(top := Some(BottomMost(pts))), aligned, pts, isLTR)
  }

  /** left(of:aligned:): the right edge goes to the leftmost anchor, then the
      vertical alignment follows. */
  function LeftOfEdges(e: PendingEdges, refs: seq<Rect>, aligned: VerticalAlign): PendingEdges
  {
    if |refs| == 0 then e
    else
      var pts := AnchorPoints(refs, LeftAnchor(aligned));
      VerticallyAligned(e.(right := Some(LeftMost(pts))), aligned, pts)
  }

  /** right(of:aligned:): the left edge goes to the rightmost anchor, then the
      vertical alignment follows. */
  function RightOfEdges(e: PendingEdges, refs: seq<Rect>, aligned: VerticalAlign): PendingEdges
  {
    if |refs| == 0 then e
    else
      var pts := AnchorPoints(refs, RightAnchor(aligned));
      VerticallyAligned(e.(left := Some(RightMost(pts))), aligned, pts)
  }

  /** before(of:aligned:): left(of:) under LTR, right(of:) under RTL. */
  function BeforeEdges(e: PendingEdges, refs: seq<Rect>, aligned: VerticalAlign, isLTR: bool): PendingEdges
  {
    if isLTR then LeftOfEdges(e, refs, aligned) else RightOfEdges(e, refs, aligned)
  }

  /** after(of:aligned:): right(of:) under LTR, left(of:) under RTL. */
  function AfterEdges(e: PendingEdges, refs: seq<Rect>, aligned: VerticalAlign, isLTR: bool): PendingEdges
  {
    if isLTR then RightOfEdges(e, refs, aligned) else LeftOfEdges(e, refs, aligned)
  }

  // ---------------------------------------------------------------------------
  // The layout in progress
  // ---------------------------------------------------------------------------

  /** The layout of one subject in progress: its pinned edges, the warnings
      issued so far, and the layout direction of the pass. */
  class Layout {
    /** The layout direction, resolved once for the whole pass. */
    const isLTR: bool

    var top: Option<real>
    var bottom: Option<real>
    var left: Option<real>
    var right: Option<real>
    var hCenter: Option<real>
    var vCenter: Option<real>

    /** How many "won't be applied" warnings this layout has issued. */
    var warnings: nat

    /** The pinned edges as one value. */
    function Edges(): PendingEdges
      reads this
    {
      PendingEdges(top, bottom, left, right, hCenter, vCenter)
    }

    constructor (isLTR: bool)
      ensures this.isLTR == isLTR
      ensures Edges() == Unpinned && warnings == 0
    {
      this.isLTR := isLTR;
      top, bottom, left, right := Option.None, Option.None, Option.None, Option.None;
      hCenter, vCenter := Option.None, Option.None;
      warnings := 0;
    }

    method SetTop(value: real)
      modifies this
      ensures Edges() == PinVertical(old(Edges()), VerticalEdge.Top, value)
      ensures warnings == old(warnings)
    {
      top := Some(value);
    }

    method SetBottom(value: real)
      modifies this
      ensures Edges() == PinVertical(old(Edges()), VerticalEdge.Bottom, value)
      ensures warnings == old(warnings)
    {
      bottom := Some(value);
    }

    method SetVerticalCenter(value: real)
      modifies this
      ensures Edges() == PinVertical(old(Edges()), VCenter, value)
      ensures warnings == old(warnings)
    {
      vCenter := Some(value);
    }

    method SetLeft(value: real)
      modifies this
      ensures Edges() == PinHorizontal(old(Edges()), HorizontalEdge.Left, value)
      ensures warnings == old(warnings)
    {
      left := Some(value);
    }

    method SetRight(value: real)
      modifies this
      ensures Edges() == PinHorizontal(old(Edges()), HorizontalEdge.Right, value)
      ensures warnings == old(warnings)
    {
      right := Some(value);
    }

    method SetHorizontalCenter(value: real)
      modifies this
      ensures Edges() == PinHorizontal(old(Edges()), HCenter, value)
      ensures warnings == old(warnings)
    {
      hCenter := Some(value);
    }

    /** validateRelativeViews: an empty reference list issues one warning and
        yields nothing; otherwise the list is returned as it is. */
    method ValidateRelativeViews(refs: seq<Rect>) returns (valid: Option<seq<Rect>>)
      modifies this
      ensures valid == if |refs| == 0 then Option.None else Some(refs)
      ensures Edges() == old(Edges())
      ensures warnings == old(warnings) + WarningsFor(refs)
    {
      if |refs| == 0 {
        warnings := warnings + 1;
        return Option.None;
      }
      return Some(refs);
    }

    /** applyHorizontalAlignment */
    method ApplyHorizontalAlignment(aligned: HorizontalAlign, pts: seq<Point>)
      requires |pts| > 0
      modifies this
      ensures Edges() == HorizontallyAligned(old(Edges()), aligned, pts, isLTR)
      ensures warnings == old(warnings)
    {
      if aligned == HorizontalAlign.None {
        return;
      }
      match aligned {
        case Left =>
          var leftMost, _ := ScanLeast(Xs(pts));
          SetLeft(leftMost);
        case Center =>
          var average := ScanMean(Xs(pts));
          SetHorizontalCenter(average);
        case Right =>
          var rightMost, _ := ScanGreatest(Xs(pts));
          SetRight(rightMost);
        case Start =>
          if isLTR {
            var leftMost, _ := ScanLeast(Xs(pts));
            SetLeft(leftMost);
          } else {
            var rightMost, _ := ScanGreatest(Xs(pts));
            SetRight(rightMost);
          }
        case End =>
          if isLTR {
            var rightMost, _ := ScanGreatest(Xs(pts));
            SetRight(rightMost);
          } else {
            var leftMost, _ := ScanLeast(Xs(pts));
            SetLeft(leftMost);
          }
        case None =>
      }
    }

    /** applyVerticalAlignment */
    method ApplyVerticalAlignment(aligned: VerticalAlign, pts: seq<Point>)
      requires |pts| > 0
      modifies this
      ensures Edges() == VerticallyAligned(old(Edges()), aligned, pts)
      ensures warnings == old(warnings)
    {
      if aligned == VerticalAlign.None {
        return;
      }
      match aligned {
        case Top =>
          var topMost, _ := ScanLeast(Ys(pts));
          SetTop(topMost);
        case Center =>
          var average := ScanMean(Ys(pts));
          SetVerticalCenter(average);
        case Bottom =>
          var bottomMost, _ := ScanGreatest(Ys(pts));
          SetBottom(bottomMost);
        case None =>
      }
    }

    /** above(of:aligned:) over a list of references. */
    method AboveOf(refs: seq<Rect>, aligned: HorizontalAlign := HorizontalAlign.None)
      modifies this
      ensures Edges() == AboveEdges(old(Edges()), refs, aligned, isLTR)
      ensures warnings == old(warnings) + WarningsFor(refs)
    {
      var valid := ValidateRelativeViews(refs);
      if valid.None? {
        return;
      }
      var pts := AnchorPoints(valid.value, AboveAnchor(aligned, isLTR));
      var topMost, _ := ScanLeast(Ys(pts));
      SetBottom(topMost);
      ApplyHorizontalAlignment(aligned, pts);
    }

    /** below(of:aligned:) over a list of references. */
    method BelowOf(refs: seq<Rect>, aligned: HorizontalAlign := HorizontalAlign.None)
      modifies this
      ensures Edges() == BelowEdges(old(Edges()), refs, aligned, isLTR)
      ensures warnings == old(warnings) + WarningsFor(refs)
    {
      var valid := ValidateRelativeViews(refs);
      if valid.None? {
        return;
      }
      var pts := AnchorPoints(valid.value, BelowAnchor(aligned, isLTR));
      var bottomMost, _ := ScanGreatest(Ys(pts));
      SetTop(bottomMost);
      ApplyHorizontalAlignment(aligned, pts);
    }

    /** left(of:aligned:) over a list of references. */
    method LeftOf(refs: seq<Rect>, aligned: VerticalAlign := VerticalAlign.None)
      modifies this
      ensures Edges() == LeftOfEdges(old(Edges()), refs, aligned)
      ensures warnings == old(warnings) + WarningsFor(refs)
    {
      var valid := ValidateRelativeViews(refs);
      if valid.None? {
        return;
      }
      var pts := AnchorPoints(valid.value, LeftAnchor(aligned));
      var leftMost, _ := ScanLeast(Xs(pts));
      SetRight(leftMost);
      ApplyVerticalAlignment(aligned, pts);
    }

    /** right(of:aligned:) over a list of references. */
    method RightOf(refs: seq<Rect>, aligned: VerticalAlign := VerticalAlign.None)
      modifies this
      ensures Edges() == RightOfEdges(old(Edges()), refs, aligned)
      ensures warnings == old(warnings) + WarningsFor(refs)
    {
      var valid := ValidateRelativeViews(refs);
      if valid.None? {
        return;
      }
      var pts := AnchorPoints(valid.value, RightAnchor(aligned));
      var rightMost, _ := ScanGreatest(Xs(pts));
      SetLeft(rightMost);
      ApplyVerticalAlignment(aligned, pts);
    }

    /** before(of:aligned:) over a list of references. */
    method BeforeOf(refs: seq<Rect>, aligned: VerticalAlign := VerticalAlign.None)
      modifies this
      ensures Edges() == BeforeEdges(old(Edges()), refs, aligned, isLTR)
      ensures warnings == old(warnings) + WarningsFor(refs)
    {
      if isLTR {
        LeftOf(refs, aligned);
      } else {
        RightOf(refs, aligned);
      }
    }

    /** after(of:aligned:) over a list of references. */
    method AfterOf(refs: seq<Rect>, aligned: VerticalAlign := VerticalAlign.None)
      modifies this
      ensures Edges() == AfterEdges(old(Edges()), refs, aligned, isLTR)
      ensures warnings == old(warnings) + WarningsFor(refs)
    {
      if isLTR {
        RightOf(refs, aligned);
      } else {
        LeftOf(refs, aligned);
      }
    }

    /** above(of:aligned:) with a single reference. */
    method AboveOfView(ref: Rect, aligned: HorizontalAlign := HorizontalAlign.None)
      modifies this
      ensures Edges() == AboveEdges(old(Edges()), [ref], aligned, isLTR)
      ensures warnings == old(warnings)
    {
      AboveOf([ref], aligned);
    }

    /** below(of:aligned:) with a single reference. */
    method BelowOfView(ref: Rect, aligned: HorizontalAlign := HorizontalAlign.None)
      modifies this
      ensures Edges() == BelowEdges(old(Edges()), [ref], aligned, isLTR)
      ensures warnings == old(warnings)
    {
      BelowOf([ref], aligned);
    }

    /** left(of:aligned:) with a single reference. */
    method LeftOfView(ref: Rect, aligned: VerticalAlign := VerticalAlign.None)
      modifies this
      ensures Edges() == LeftOfEdges(old(Edges()), [ref], aligned)
      ensures warnings == old(warnings)
    {
      LeftOf([ref], aligned);
    }

    /** right(of:aligned:) with a single reference. */
    method RightOfView(ref: Rect, aligned: VerticalAlign := VerticalAlign.None)
      modifies this
      ensures Edges() == RightOfEdges(old(Edges()), [ref], aligned)
      ensures warnings == old(warnings)
    {
      RightOf([ref], aligned);
    }

    /** before(of:aligned:) with a single reference. */
    method BeforeOfView(ref: Rect, aligned: VerticalAlign := VerticalAlign.None)
      modifies this
      ensures Edges() == BeforeEdges(old(Edges()), [ref], aligned, isLTR)
      ensures warnings == old(warnings)
    {
      if isLTR {
        LeftOf([ref], aligned);
      } else {
        RightOf([ref], aligned);
      }
    }

    /** after(of:aligned:) with a single reference. */
    method AfterOfView(ref: Rect, aligned: VerticalAlign := VerticalAlign.None)
      modifies this
      ensures Edges() == AfterEdges(old(Edges()), [ref], aligned, isLTR)
      ensures warnings == old(warnings)
    {
      if isLTR {
        RightOf([ref], aligned);
      } else {
        LeftOf([ref], aligned);
      }
    }
  }
}
