/** What the relative-positioning operations promise, stated in terms of the
    reference frames' own edges rather than of anchors: where the subject's
    primary edge goes, which alignment edge is pinned and to what, that
    nothing else changes, how single references, empty lists and the layout
    direction behave. */
module RelativeProperties {
  import opened Types
  import opened Coordinates
  import opened Relative

  /** One vertical edge's coordinate for each reference, in order. */
  function EdgeYs(refs: seq<Rect>, v: VerticalEdge): (ys: seq<real>)
    ensures |ys| == |refs|
    ensures forall i :: 0 <= i < |refs| ==> ys[i] == VerticalEdgeCoordinate(v, refs[i])
  {
    seq(|refs|, i requires 0 <= i < |refs| => VerticalEdgeCoordinate(v, refs[i]))
  }

  /** One horizontal edge's coordinate for each reference, in order. */
  function EdgeXs(refs: seq<Rect>, h: HorizontalEdge): (xs: seq<real>)
    ensures |xs| == |refs|
    ensures forall i :: 0 <= i < |refs| ==> xs[i] == HorizontalEdgeCoordinate(h, refs[i])
  {
    seq(|refs|, i requires 0 <= i < |refs| => HorizontalEdgeCoordinate(h, refs[i]))
  }

  /** The leftmost, average or rightmost of one horizontal edge of the
      references, according to which edge it is. */
  function EdgeReductionX(refs: seq<Rect>, h: HorizontalEdge): real
    requires |refs| > 0
  {
    var xs := EdgeXs(refs, h);
    match h
    case Left => Least(xs)
    case HCenter => Mean(xs)
    case Right => Greatest(xs)
  }

  /** The topmost, average or bottommost of one vertical edge of the
      references, according to which edge it is. */
  function EdgeReductionY(refs: seq<Rect>, v: VerticalEdge): real
    requires |refs| > 0
  {
    var ys := EdgeYs(refs, v);
    match v
    case Top => Least(ys)
    case VCenter => Mean(ys)
    case Bottom => Greatest(ys)
  }

  /** Pins, if an edge is given, that edge of the subject to the leftmost,
      average or rightmost of the same edge of the references. */
  function HorizontallyAlignedTo(e: PendingEdges, refs: seq<Rect>, edge: Option<HorizontalEdge>): PendingEdges
    requires |refs| > 0
  {
    match edge
    case None => e
    case Some(h) => PinHorizontal(e, h, EdgeReductionX(refs, h))
  }

  /** Pins, if an edge is given, that edge of the subject to the topmost,
      average or bottommost of the same edge of the references. */
  function VerticallyAlignedTo(e: PendingEdges, refs: seq<Rect>, edge: Option<VerticalEdge>): PendingEdges
    requires |refs| > 0
  {
    match edge
    case None => e
    case Some(v) => PinVertical(e, v, EdgeReductionY(refs, v))
  }

  // ---------------------------------------------------------------------------
  // Anchors against edges
  // ---------------------------------------------------------------------------

  /** The y values of the anchor points are the coordinates of the edge the
      anchor's row lies on. */
  lemma {:induction false} AnchorYsAreRowEdges(refs: seq<Rect>, a: Anchor)
    ensures Ys(AnchorPoints(refs, a)) == EdgeYs(refs, Row(a))
  {
    var ys, es := Ys(AnchorPoints(refs, a)), EdgeYs(refs, Row(a));
    forall i | 0 <= i < |refs|
      ensures ys[i] == es[i]
    {
      AnchorOnEdges(a, refs[i]);
    }
  }

  /** The x values of the anchor points are the coordinates of the edge the
      anchor's column lies on. */
  lemma {:induction false} AnchorXsAreColumnEdges(refs: seq<Rect>, a: Anchor)
    ensures Xs(AnchorPoints(refs, a)) == EdgeXs(refs, Column(a))
  {
    var xs, es := Xs(AnchorPoints(refs, a)), EdgeXs(refs, Column(a));
    forall i | 0 <= i < |refs|
      ensures xs[i] == es[i]
    {
      AnchorOnEdges(a, refs[i]);
    }
  }

  /** above and below take their anchors on the references' top and bottom
      edges; an alignment other than none pins the subject edge of the very
      column the anchors were taken from, and none takes the left column but
      pins nothing. */
  lemma VerticalNeighbourAnchors(aligned: HorizontalAlign, isLTR: bool)
    ensures Row(AboveAnchor(aligned, isLTR)) == VerticalEdge.Top
    ensures Row(BelowAnchor(aligned, isLTR)) == VerticalEdge.Bottom
    ensures Column(AboveAnchor(aligned, isLTR)) == Column(BelowAnchor(aligned, isLTR))
    ensures aligned != HorizontalAlign.None ==>
      HorizontalAlignmentEdge(aligned, isLTR) == Some(Column(AboveAnchor(aligned, isLTR)))
    ensures aligned == HorizontalAlign.None ==>
      HorizontalAlignmentEdge(aligned, isLTR) == Option.None && Column(AboveAnchor(aligned, isLTR)) == HorizontalEdge.Left
  {
  }

  /** left and right take their anchors on the references' left and right
      edges; an alignment other than none pins the subject edge of the very
      row the anchors were taken from, and none takes the top row but pins
      nothing. */
  lemma SideNeighbourAnchors(aligned: VerticalAlign)
    ensures Column(LeftAnchor(aligned)) == HorizontalEdge.Left
    ensures Column(RightAnchor(aligned)) == HorizontalEdge.Right
    ensures Row(LeftAnchor(aligned)) == Row(RightAnchor(aligned))
    ensures aligned != VerticalAlign.None ==>
      VerticalAlignmentEdge(aligned) == Some(Row(LeftAnchor(aligned)))
    ensures aligned == VerticalAlign.None ==>
      VerticalAlignmentEdge(aligned) == Option.None && Row(LeftAnchor(aligned)) == VerticalEdge.Top
  {
  }

  /** The start and end alignments of above and below pick exactly the anchors
      the RTL anchor aliases stand for. */
  lemma StartEndAnchorsAreAliases(isLTR: bool)
    ensures AboveAnchor(HorizontalAlign.Start, isLTR) == ResolveAnchor(TopStart, isLTR)
    ensures AboveAnchor(HorizontalAlign.End, isLTR) == ResolveAnchor(TopEnd, isLTR)
    ensures BelowAnchor(HorizontalAlign.Start, isLTR) == ResolveAnchor(BottomStart, isLTR)
    ensures BelowAnchor(HorizontalAlign.End, isLTR) == ResolveAnchor(BottomEnd, isLTR)
  {
  }

  // ---------------------------------------------------------------------------
  // The operations in terms of the references' edges
  // ---------------------------------------------------------------------------

  /** above(of:): the subject's bottom goes to the smallest reference top, then
      the aligned edge of the subject goes to the leftmost, average or
      rightmost of the same edge of the references. */
  lemma {:induction false} AboveByReferenceEdges(e: PendingEdges, refs: seq<Rect>, aligned: HorizontalAlign, isLTR: bool)
    requires |refs| > 0
    ensures AboveEdges(e, refs, aligned, isLTR) ==
      HorizontallyAlignedTo(e.(bottom := Some(Least(EdgeYs(refs, VerticalEdge.Top)))), refs, HorizontalAlignmentEdge(aligned, isLTR))
  {
    var a := AboveAnchor(aligned, isLTR);
    VerticalNeighbourAnchors(aligned, isLTR);
    AnchorYsAreRowEdges(refs, a);
    AnchorXsAreColumnEdges(refs, a);
  }

  /** below(of:): the subject's top goes to the greatest reference bottom,
      then the horizontal alignment as for above. */
  lemma {:induction false} BelowByReferenceEdges(e: PendingEdges, refs: seq<Rect>, aligned: HorizontalAlign, isLTR: bool)
    requires |refs| > 0
    ensures BelowEdges(e, refs, aligned, isLTR) ==
      HorizontallyAlignedTo(e.(top := Some(Greatest(EdgeYs(refs, VerticalEdge.Bottom)))), refs, HorizontalAlignmentEdge(aligned, isLTR))
  {
    var a := BelowAnchor(aligned, isLTR);
    VerticalNeighbourAnchors(aligned, isLTR);
    AnchorYsAreRowEdges(refs, a);
    AnchorXsAreColumnEdges(refs, a);
  }

  /** left(of:): the subject's right goes to the smallest reference left, then
      the aligned edge of the subject goes to the topmost, average or
      bottommost of the same edge of the references. */
  lemma {:induction false} LeftOfByReferenceEdges(e: PendingEdges, refs: seq<Rect>, aligned: VerticalAlign)
    requires |refs| > 0
    ensures LeftOfEdges(e, refs, aligned) ==
      VerticallyAlignedTo(e.(right := Some(Least(EdgeXs(refs, HorizontalEdge.Left)))), refs, VerticalAlignmentEdge(aligned))
  {
    var a := LeftAnchor(aligned);
    SideNeighbourAnchors(aligned);
    AnchorYsAreRowEdges(refs, a);
    AnchorXsAreColumnEdges(refs, a);
  }

  /** right(of:): the subject's left goes to the greatest reference right,
      then the vertical alignment as for left. */
  lemma {:induction false} RightOfByReferenceEdges(e: PendingEdges, refs: seq<Rect>, aligned: VerticalAlign)
    requires |refs| > 0
    ensures RightOfEdges(e, refs, aligned) ==
      VerticallyAlignedTo(e.(left := Some(Greatest(EdgeXs(refs, HorizontalEdge.Right)))), refs, VerticalAlignmentEdge(aligned))
  {
    var a := RightAnchor(aligned);
    SideNeighbourAnchors(aligned);
    AnchorYsAreRowEdges(refs, a);
    AnchorXsAreColumnEdges(refs, a);
  }

  // ---------------------------------------------------------------------------
  // Primary edge and "nothing else changes"
  // ---------------------------------------------------------------------------

  /** After above(of:), the subject's bottom lies at the top of the highest
      reference, whatever the alignment: at or above every reference's top,
      and at one reference's top.  Nothing else on the vertical axis changes,
      and with no alignment nothing else at all. */
  lemma AboveSubjectBottom(e: PendingEdges, refs: seq<Rect>, aligned: HorizontalAlign, isLTR: bool)
    requires |refs| > 0
    ensures var r := AboveEdges(e, refs, aligned, isLTR);
      && r.bottom.Some?
      && (forall i :: 0 <= i < |refs| ==> r.bottom.value <= refs[i].y)
      && (exists i :: 0 <= i < |refs| && r.bottom.value == refs[i].y)
      && r.top == e.top && r.vCenter == e.vCenter
      && (aligned == HorizontalAlign.None ==> r == e.(bottom := r.bottom))
  {
    AboveByReferenceEdges(e, refs, aligned, isLTR);
    var ys := EdgeYs(refs, VerticalEdge.Top);
    assert Least(ys) in ys;
  }

  /** After below(of:), the subject's top lies at the bottom of the lowest
      reference: at or below every reference's bottom, and at one reference's
      bottom.  Nothing else on the vertical axis changes, and with no
      alignment nothing else at all. */
  lemma BelowSubjectTop(e: PendingEdges, refs: seq<Rect>, aligned: HorizontalAlign, isLTR: bool)
    requires |refs| > 0
    ensures var r := BelowEdges(e, refs, aligned, isLTR);
      && r.top.Some?
      && (forall i :: 0 <= i < |refs| ==> refs[i].y + refs[i].height <= r.top.value)
      && (exists i :: 0 <= i < |refs| && r.top.value == refs[i].y + refs[i].height)
      && r.bottom == e.bottom && r.vCenter == e.vCenter
      && (aligned == HorizontalAlign.None ==> r == e.(top := r.top))
  {
    BelowByReferenceEdges(e, refs, aligned, isLTR);
    var ys := EdgeYs(refs, VerticalEdge.Bottom);
    assert Greatest(ys) in ys;
  }

  /** After left(of:), the subject's right lies at the left of the leftmost
      reference: at or left of every reference's left, and at one
      reference's left.  Nothing else on the horizontal axis changes, and with
      no alignment nothing else at all. */
  lemma LeftOfSubjectRight(e: PendingEdges, refs: seq<Rect>, aligned: VerticalAlign)
    requires |refs| > 0
    ensures var r := LeftOfEdges(e, refs, aligned);
      && r.right.Some?
      && (forall i :: 0 <= i < |refs| ==> r.right.value <= refs[i].x)
      && (exists i :: 0 <= i < |refs| && r.right.value == refs[i].x)
      && r.left == e.left && r.hCenter == e.hCenter
      && (aligned == VerticalAlign.None ==> r == e.(right := r.right))
  {
    LeftOfByReferenceEdges(e, refs, aligned);
    var xs := EdgeXs(refs, HorizontalEdge.Left);
    assert Least(xs) in xs;
  }

  /** After right(of:), the subject's left lies at the right of the rightmost
      reference: at or right of every reference's right, and at one
      reference's right.  Nothing else on the horizontal axis changes, and
      with no alignment nothing else at all. */
  lemma RightOfSubjectLeft(e: PendingEdges, refs: seq<Rect>, aligned: VerticalAlign)
    requires |refs| > 0
    ensures var r := RightOfEdges(e, refs, aligned);
      && r.left.Some?
      && (forall i :: 0 <= i < |refs| ==> refs[i].x + refs[i].width <= r.left.value)
      && (exists i :: 0 <= i < |refs| && r.left.value == refs[i].x + refs[i].width)
      && r.right == e.right && r.hCenter == e.hCenter
      && (aligned == VerticalAlign.None ==> r == e.(left := r.left))
  {
    RightOfByReferenceEdges(e, refs, aligned);
    var xs := EdgeXs(refs, HorizontalEdge.Right);
    assert Greatest(xs) in xs;
  }

  // ---------------------------------------------------------------------------
  // Single references, empty lists, direction
  // ---------------------------------------------------------------------------

  /** With a single reference nothing is aggregated: the subject's primary edge
      goes to the reference's facing edge and an aligned edge lines up with
      the same edge of the reference. */
  lemma SingleReference(e: PendingEdges, r: Rect, haligned: HorizontalAlign, valigned: VerticalAlign, isLTR: bool)
    ensures AboveEdges(e, [r], haligned, isLTR) == SingleHorizontallyAligned(e.(bottom := Some(r.y)), r, HorizontalAlignmentEdge(haligned, isLTR))
    ensures BelowEdges(e, [r], haligned, isLTR) == SingleHorizontallyAligned(e.(top := Some(r.y + r.height)), r, HorizontalAlignmentEdge(haligned, isLTR))
    ensures LeftOfEdges(e, [r], valigned) == SingleVerticallyAligned(e.(right := Some(r.x)), r, VerticalAlignmentEdge(valigned))
    ensures RightOfEdges(e, [r], valigned) == SingleVerticallyAligned(e.(left := Some(r.x + r.width)), r, VerticalAlignmentEdge(valigned))
  {
    SingleReferenceAboveBelow(e, r, haligned, isLTR);
    SingleReferenceLeftRight(e, r, valigned);
  }

  /** Pins, if an edge is given, that edge of the subject to the same edge of
      one reference. */
  function SingleHorizontallyAligned(e: PendingEdges, r: Rect, edge: Option<HorizontalEdge>): PendingEdges
  {
    match edge
    case None => e
    case Some(h) => PinHorizontal(e, h, HorizontalEdgeCoordinate(h, r))
  }

  /** Pins, if an edge is given, that edge of the subject to the same edge of
      one reference. */
  function SingleVerticallyAligned(e: PendingEdges, r: Rect, edge: Option<VerticalEdge>): PendingEdges
  {
    match edge
    case None => e
    case Some(v) => PinVertical(e, v, VerticalEdgeCoordinate(v, r))
  }

  /** The above/below half of SingleReference. */
  lemma {:induction false} SingleReferenceAboveBelow(e: PendingEdges, r: Rect, aligned: HorizontalAlign, isLTR: bool)
    ensures AboveEdges(e, [r], aligned, isLTR) == SingleHorizontallyAligned(e.(bottom := Some(r.y)), r, HorizontalAlignmentEdge(aligned, isLTR))
    ensures BelowEdges(e, [r], aligned, isLTR) == SingleHorizontallyAligned(e.(top := Some(r.y + r.height)), r, HorizontalAlignmentEdge(aligned, isLTR))
  {
    AboveByReferenceEdges(e, [r], aligned, isLTR);
    BelowByReferenceEdges(e, [r], aligned, isLTR);
    SingleVerticalReduction(VerticalEdge.Top, r);
    SingleVerticalReduction(VerticalEdge.Bottom, r);
    match HorizontalAlignmentEdge(aligned, isLTR)
    case None =>
    case Some(h) => SingleHorizontalReduction(h, r);
  }

  /** The left/right half of SingleReference. */
  lemma {:induction false} SingleReferenceLeftRight(e: PendingEdges, r: Rect, aligned: VerticalAlign)
    ensures LeftOfEdges(e, [r], aligned) == SingleVerticallyAligned(e.(right := Some(r.x)), r, VerticalAlignmentEdge(aligned))
    ensures RightOfEdges(e, [r], aligned) == SingleVerticallyAligned(e.(left := Some(r.x + r.width)), r, VerticalAlignmentEdge(aligned))
  {
    LeftOfByReferenceEdges(e, [r], aligned);
    RightOfByReferenceEdges(e, [r], aligned);
    SingleHorizontalReduction(HorizontalEdge.Left, r);
    SingleHorizontalReduction(HorizontalEdge.Right, r);
    match VerticalAlignmentEdge(aligned)
    case None =>
    case Some(v) => SingleVerticalReduction(v, r);
  }

  /** Every horizontal reduction of one reference's edge is that edge. */
  lemma SingleHorizontalReduction(h: HorizontalEdge, r: Rect)
    ensures EdgeReductionX([r], h) == HorizontalEdgeCoordinate(h, r)
  {
    var xs := EdgeXs([r], h);
    assert xs == [HorizontalEdgeCoordinate(h, r)];
    ExtremesOfSingleton(xs[0]);
    MeanOfSingleton(xs[0]);
  }

  /** Every vertical reduction of one reference's edge is that edge. */
  lemma SingleVerticalReduction(v: VerticalEdge, r: Rect)
    ensures EdgeReductionY([r], v) == VerticalEdgeCoordinate(v, r)
  {
    var ys := EdgeYs([r], v);
    assert ys == [VerticalEdgeCoordinate(v, r)];
    ExtremesOfSingleton(ys[0]);
    MeanOfSingleton(ys[0]);
  }

  /** An empty reference list pins nothing and issues exactly one warning. */
  lemma EmptyReferencesPinNothing(e: PendingEdges, haligned: HorizontalAlign, valigned: VerticalAlign, isLTR: bool)
    ensures AboveEdges(e, [], haligned, isLTR) == e && BelowEdges(e, [], haligned, isLTR) == e
    ensures LeftOfEdges(e, [], valigned) == e && RightOfEdges(e, [], valigned) == e
    ensures BeforeEdges(e, [], valigned, isLTR) == e && AfterEdges(e, [], valigned, isLTR) == e
    ensures WarningsFor([]) == 1
  {
  }

  /** A non-empty reference list issues no warning. */
  lemma ReferencesIssueNoWarning(refs: seq<Rect>)
    requires |refs| > 0
    ensures WarningsFor(refs) == 0
  {
  }

  /** start and end are left and right under LTR and swapped under RTL, for
      both the anchors and the alignment edge. */
  lemma StartEndFollowDirection(e: PendingEdges, refs: seq<Rect>, isLTR: bool)
    ensures AboveEdges(e, refs, HorizontalAlign.Start, isLTR) ==
      AboveEdges(e, refs, if isLTR then HorizontalAlign.Left else HorizontalAlign.Right, isLTR)
    ensures AboveEdges(e, refs, HorizontalAlign.End, isLTR) ==
      AboveEdges(e, refs, if isLTR then HorizontalAlign.Right else HorizontalAlign.Left, isLTR)
    ensures BelowEdges(e, refs, HorizontalAlign.Start, isLTR) ==
      BelowEdges(e, refs, if isLTR then HorizontalAlign.Left else HorizontalAlign.Right, isLTR)
    ensures BelowEdges(e, refs, HorizontalAlign.End, isLTR) ==
      BelowEdges(e, refs, if isLTR then HorizontalAlign.Right else HorizontalAlign.Left, isLTR)
  {
    SameChoicesSameEdges(e, refs, HorizontalAlign.Start, isLTR, if isLTR then HorizontalAlign.Left else HorizontalAlign.Right, isLTR);
    SameChoicesSameEdges(e, refs, HorizontalAlign.End, isLTR, if isLTR then HorizontalAlign.Right else HorizontalAlign.Left, isLTR);
  }

  /** Alignments that do not depend on the direction give the same result
      under LTR and RTL; start under one direction is end under the other. */
  lemma DirectionMirror(e: PendingEdges, refs: seq<Rect>, aligned: HorizontalAlign, isLTR: bool)
    ensures aligned !in {HorizontalAlign.Start, HorizontalAlign.End} ==>
      AboveEdges(e, refs, aligned, isLTR) == AboveEdges(e, refs, aligned, !isLTR) &&
      BelowEdges(e, refs, aligned, isLTR) == BelowEdges(e, refs, aligned, !isLTR)
    ensures AboveEdges(e, refs, HorizontalAlign.Start, !isLTR) == AboveEdges(e, refs, HorizontalAlign.End, isLTR)
    ensures BelowEdges(e, refs, HorizontalAlign.Start, !isLTR) == BelowEdges(e, refs, HorizontalAlign.End, isLTR)
  {
    if aligned !in {HorizontalAlign.Start, HorizontalAlign.End} {
      SameChoicesSameEdges(e, refs, aligned, isLTR, aligned, !isLTR);
    }
    SameChoicesSameEdges(e, refs, HorizontalAlign.Start, !isLTR, HorizontalAlign.End, isLTR);
  }

  /** above(of:) and below(of:) depend on the alignment and the direction only
      through the anchors they pick and the edge the alignment pins. */
  lemma SameChoicesSameEdges(e: PendingEdges, refs: seq<Rect>, a1: HorizontalAlign, ltr1: bool, a2: HorizontalAlign, ltr2: bool)
    requires AboveAnchor(a1, ltr1) == AboveAnchor(a2, ltr2)
    requires BelowAnchor(a1, ltr1) == BelowAnchor(a2, ltr2)
    requires HorizontalAlignmentEdge(a1, ltr1) == HorizontalAlignmentEdge(a2, ltr2)
    ensures AboveEdges(e, refs, a1, ltr1) == AboveEdges(e, refs, a2, ltr2)
    ensures BelowEdges(e, refs, a1, ltr1) == BelowEdges(e, refs, a2, ltr2)
  {
  }

  /** before is left(of:) under LTR and right(of:) under RTL, after the other
      way round; so before under one direction is after under the other.  The
      vertical alignment passes through unchanged. */
  lemma BeforeAfterFollowDirection(e: PendingEdges, refs: seq<Rect>, aligned: VerticalAlign, isLTR: bool)
    ensures BeforeEdges(e, refs, aligned, true) == LeftOfEdges(e, refs, aligned)
    ensures BeforeEdges(e, refs, aligned, false) == RightOfEdges(e, refs, aligned)
    ensures AfterEdges(e, refs, aligned, true) == RightOfEdges(e, refs, aligned)
    ensures AfterEdges(e, refs, aligned, false) == LeftOfEdges(e, refs, aligned)
    ensures BeforeEdges(e, refs, aligned, !isLTR) == AfterEdges(e, refs, aligned, isLTR)
  {
  }

  // ---------------------------------------------------------------------------
  // Worked examples
  // ---------------------------------------------------------------------------

  /** Three references whose tops are 30, 10 and 20, in that order: above(of:)
      puts the subject's bottom at 10. */
  lemma TopmostOfThree(e: PendingEdges, isLTR: bool)
    ensures AboveEdges(e, [Rect(0.0, 30.0, 10.0, 10.0), Rect(0.0, 10.0, 10.0, 10.0), Rect(0.0, 20.0, 10.0, 10.0)],
                       HorizontalAlign.None, isLTR)
         == e.(bottom := Some(10.0))
  {
    var refs := [Rect(0.0, 30.0, 10.0, 10.0), Rect(0.0, 10.0, 10.0, 10.0), Rect(0.0, 20.0, 10.0, 10.0)];
    AboveSubjectBottom(e, refs, HorizontalAlign.None, isLTR);
  }

  /** Two references with the same left edge 5, one spanning y 0 to 20 and one
      spanning y 40 to 80: left(of:, aligned: .center) puts the subject's right
      at 5 and its vertical center at the average of the references' centers,
      (10 + 60) / 2 = 35. */
  lemma TiedLeftEdgesCentered(e: PendingEdges)
    ensures LeftOfEdges(e, [Rect(5.0, 0.0, 10.0, 20.0), Rect(5.0, 40.0, 10.0, 40.0)], VerticalAlign.Center)
         == e.(right := Some(5.0), vCenter := Some(35.0))
  {
    var refs := [Rect(5.0, 0.0, 10.0, 20.0), Rect(5.0, 40.0, 10.0, 40.0)];
    LeftOfByReferenceEdges(e, refs, VerticalAlign.Center);
    TiedLeftEdgesValues(refs);
  }

  /** The two reductions TiedLeftEdgesCentered needs: the least left edge and
      the mean vertical center of its references. */
  lemma TiedLeftEdgesValues(refs: seq<Rect>)
    requires refs == [Rect(5.0, 0.0, 10.0, 20.0), Rect(5.0, 40.0, 10.0, 40.0)]
    ensures Least(EdgeXs(refs, HorizontalEdge.Left)) == 5.0
    ensures EdgeReductionY(refs, VCenter) == 35.0
  {
    var xs := EdgeXs(refs, HorizontalEdge.Left);
    assert xs == [5.0, 5.0];
    var ys := EdgeYs(refs, VCenter);
    assert ys == [10.0, 60.0];
    var tail := ys[1..];
    assert tail == [60.0] && tail[1..] == [];
    assert Sum(tail) == 60.0;
    assert Sum(ys) == 10.0 + Sum(tail);
  }
}
