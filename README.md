# PinLayout relative positioning, modelled in Dafny

This project models the relative-positioning engine of PinLayout, a fluent
layout library for UIKit/AppKit views, together with the value types it uses.

A layout call such as `view.pin.below(of: [a, b], aligned: .center)` works on
the subject view's *pending edges* (top, bottom, left, right, horizontal
center, vertical center). `above`, `below`, `left` and `right` each work in
five steps:

1. They validate the list of reference views. An empty list issues one
   "won't be applied" warning and leaves the subject alone.
2. They pick one anchor per reference according to the alignment.
3. They reduce the anchor points to one coordinate: the topmost, bottommost,
   leftmost or rightmost one, or the average for a center alignment.
4. They pin one edge of the subject: the bottom for `above`, the top for
   `below`, the right for `left`, the left for `right`.
5. Unless the alignment is `none`, they pin a second, orthogonal edge
   computed from the same anchor points.

`before` and `after` are `left` and `right` under a left-to-right layout
direction, and the other way round under right-to-left.

Files:

- `types.dfy` (module `Types`): points and frames, the nine anchors and their
  RTL aliases, the six edges, the alignment enums, the layout direction and
  the padding struct.
- `coordinates.dfy` (module `Coordinates`): the six reducers as folds, a
  reference definition of each (least, greatest, sum), and loop versions
  proved equal to the folds.
- `relative.dfy` (module `Relative`): the class `Layout`, whose methods mutate
  the pending edges and the warning count, and the pure functions that
  specify each operation's new state.
- `relative_properties.dfy` (module `RelativeProperties`): what the operations
  promise, stated in terms of the reference frames' own edges.

Modelling decisions:

- References are frames (`Rect`) already in the subject's superview
  coordinate space. Coordinates are `real`, so averages are exact.
- Each pending edge is an `Option<real>`, and the setters are plain
  last-write-wins field updates.
- The layout direction is resolved once per pass and held in the `Layout`
  object as `isLTR`.
- Both alignment enums carry an explicit `None` constructor. The relative
  code uses `.none` as the default argument, as a switch case and in guards,
  but `Sources/Types.swift:107-126` declares no such case. The model follows
  the code.
- The four-argument `PPadding` initializer is the datatype constructor
  `PPadding(top, left, bottom, right)`, which takes its fields in that order.
- The anchor diagram labels the bottom-right corner "bottomLeft". The model
  uses the declared name `bottomRight`.
- Ties in the extremal reducers: the code compares strictly, so the first
  point that reaches the extreme is kept. Over the model's reals the kept
  value does not depend on the order of tied values (`ExtremesIgnoreOrder`). The position of the kept
  point is reported by `ScanLeast` and `ScanGreatest`.

## Model

| member | source | states |
|---|---|---|
| Types.ResolveEdge | Sources/Types.swift:97-99 | `start` and `end` are never the center edge; `start` is the left edge exactly under LTR, and `end` is the other side |
| Types.DirectionalEdgeMirror | Sources/Types.swift:97-99 | switching the direction swaps what `start` and `end` resolve to |
| Types.AnchorAt | Sources/Types.swift:23-45 | the anchor at a given vertical/horizontal edge crossing has exactly that row and column |
| Types.AnchorPoint | Sources/Types.swift:23-45 | no ensures of its own; `AnchorOnEdges`, `AnchorMidpoints` and `AnchorInsideFrame` state where each of the nine anchors sits on a frame |
| Types.AnchorGrid | Sources/Types.swift:53-61 | the nine anchors are exactly the nine crossings of three vertical and three horizontal edges |
| Types.AnchorOnEdges | Sources/Types.swift:23-45 | each anchor's point is the crossing of its row's edge coordinate and its column's edge coordinate |
| Types.AnchorMidpoints | Sources/Types.swift:23-45 | topCenter is halfway between topLeft and topRight on the top edge; centerLeft is halfway down the left edge; center is the midpoint of the diagonal |
| Types.AnchorInsideFrame | Sources/Types.swift:23-45 | on a frame of non-negative size every anchor lies inside the frame |
| Types.ResolveAnchorOnGrid | Sources/Types.swift:63-69 | each RTL anchor alias is the anchor of its own row in the column its start/end side resolves to, never the center column |
| Types.ResolveAnchor | Sources/Types.swift:63-69 | no ensures of its own; `ResolveAnchorOnGrid` states that each alias keeps its row and takes the column its start/end side resolves to |
| Types.IsLTR | Sources/Types.swift:213-217 | `ltr` is left-to-right, `rtl` is not, and `auto` follows the locale |
| Types.PaddingAll | Sources/Types.swift:191-196 | `PPadding(all)` has all four sides equal to `all` |
| Types.PaddingZero | Sources/Types.swift:187-189 | `PPadding.zero` has all four sides equal to 0 |
| Types.PaddingHV | Sources/Types.swift:205-210 | `PPadding(h:v:)` has top = bottom = v and left = right = h |
| Types.PaddingHVExactlySymmetric | Sources/Types.swift:205-210 | a padding comes from `(h:v:)` if and only if top = bottom and left = right |
| Types.PaddingAllIsHV | Sources/Types.swift:187-196 | a uniform padding is `(h:v:)` with h = v = all, and zero is `(h: 0, v: 0)` |
| Coordinates.FoldLeast | Sources/PinLayout+Relative.swift:242-244 | the strict-less fold returns a value no greater than the seed and every element, and it is the seed or one of the elements |
| Coordinates.FoldGreatest | Sources/PinLayout+Relative.swift:250-252 | the strict-greater fold returns a value no smaller than the seed and every element, and it is the seed or one of the elements |
| Coordinates.Least | Sources/PinLayout+Relative.swift:239-245 | the fold seeded by the first value returns the least element of the sequence |
| Coordinates.Greatest | Sources/PinLayout+Relative.swift:247-253 | the fold seeded by the first value returns the greatest element of the sequence |
| Coordinates.TopMost | Sources/PinLayout+Relative.swift:239-245 | getTopMostCoordinate returns a y that is at most every point's y and is the y of one of the points |
| Coordinates.BottomMost | Sources/PinLayout+Relative.swift:247-253 | getBottomMostCoordinate returns a y that is at least every point's y and is the y of one of the points |
| Coordinates.LeftMost | Sources/PinLayout+Relative.swift:255-261 | getLeftMostCoordinate returns an x that is at most every point's x and is the x of one of the points |
| Coordinates.RightMost | Sources/PinLayout+Relative.swift:263-269 | getRightMostCoordinate returns an x that is at least every point's x and is the x of one of the points |
| Coordinates.ExtremesOfSingleton | Sources/PinLayout+Relative.swift:239-269 | a one-element list reduces to its own value |
| Coordinates.ExtremesIgnoreOrder | Sources/PinLayout+Relative.swift:239-269 | reordering the list, and so the order of tied values, does not change the topmost/leftmost or bottommost/rightmost value |
| Coordinates.ExtremesOfConcat | Sources/PinLayout+Relative.swift:239-269 | the extreme of a concatenation is the more extreme of the two parts' extremes |
| Coordinates.SumFold | Sources/PinLayout+Relative.swift:273-275 | no ensures of its own; `SumFoldIsSum` states that this `reduce(0, +)` fold equals the independently defined sum |
| Coordinates.SumFoldIsSum | Sources/PinLayout+Relative.swift:273-275 | the `reduce(0, +)` fold computes the sum of the values |
| Coordinates.SumBounds | Sources/PinLayout+Relative.swift:271-285 | n values between lo and hi sum to between n·lo and n·hi |
| Coordinates.MeanBounds | Sources/PinLayout+Relative.swift:271-285 | the sum of values between lo and hi, divided by their count, lies between lo and hi |
| Coordinates.Mean | Sources/PinLayout+Relative.swift:271-285 | the averaging fold returns sum / count and lies between the least and the greatest value |
| Coordinates.AverageHCenter | Sources/PinLayout+Relative.swift:271-277 | getAverageHCenterCoordinate returns sum(x) / count, between the leftmost and the rightmost x |
| Coordinates.AverageVCenter | Sources/PinLayout+Relative.swift:279-285 | getAverageVCenterCoordinate returns sum(y) / count, between the topmost and the bottommost y |
| Coordinates.MeanOfSingleton | Sources/PinLayout+Relative.swift:271-285 | the average of a single value is that value |
| Coordinates.MeanOfConstant | Sources/PinLayout+Relative.swift:271-285 | the average of equal values is that value |
| Coordinates.ScanLeast | Sources/PinLayout+Relative.swift:239-245 | the loop form of the strict-less fold returns the same value, and the point it keeps is the first one holding the least value |
| Coordinates.ScanGreatest | Sources/PinLayout+Relative.swift:247-253 | the loop form of the strict-greater fold returns the same value, and the point it keeps is the first one holding the greatest value |
| Coordinates.ScanMean | Sources/PinLayout+Relative.swift:271-277 | the loop form of the averaging fold returns the mean, between the least and the greatest value |
| Relative.AboveAnchor | Sources/PinLayout+Relative.swift:141-148 | the anchor is on the top row, in the column of the edge the alignment pins (start/end resolved by direction), and in the left column for none |
| Relative.BelowAnchor | Sources/PinLayout+Relative.swift:161-168 | the anchor is on the bottom row, in the column of the edge the alignment pins, and in the left column for none |
| Relative.LeftAnchor | Sources/PinLayout+Relative.swift:181-186 | the anchor is in the left column, on the row of the edge the alignment pins, and on the top row for none |
| Relative.RightAnchor | Sources/PinLayout+Relative.swift:199-204 | the anchor is in the right column, on the row of the edge the alignment pins, and on the top row for none |
| Relative.HorizontalAlignmentEdge | Sources/PinLayout+Relative.swift:214-225 | none pins no edge; left is pinned exactly for left, start under LTR and end under RTL; right exactly for right, end under LTR and start under RTL; hCenter exactly for center |
| Relative.VerticalAlignmentEdge | Sources/PinLayout+Relative.swift:230-235 | none pins no edge; top, center and bottom pin top, vCenter and bottom, and only those alignments do |
| Relative.ReduceHorizontal | Sources/PinLayout+Relative.swift:216-224 | the value an aligned horizontal edge takes (leftmost, average or rightmost x) lies between the leftmost and the rightmost x |
| Relative.ReduceVertical | Sources/PinLayout+Relative.swift:232-234 | the value an aligned vertical edge takes (topmost, average or bottommost y) lies between the topmost and the bottommost y |
| Relative.HorizontallyAligned | Sources/PinLayout+Relative.swift:213-227 | top, bottom and vCenter are untouched; none changes nothing; otherwise only the edge the alignment names changes, and it is pinned within the anchors' horizontal span |
| Relative.VerticallyAligned | Sources/PinLayout+Relative.swift:229-237 | left, right and hCenter are untouched; none changes nothing; otherwise only the edge the alignment names changes, and it is pinned within the anchors' vertical span |
| Relative.WarningsFor | Sources/PinLayout+Relative.swift:289-291 | no ensures of its own; `EmptyReferencesPinNothing` and `ReferencesIssueNoWarning` state one warning for an empty list and none otherwise |
| Relative.AboveEdges | Sources/PinLayout+Relative.swift:137-155 | no ensures of its own; the new state of `Layout.AboveOf`, characterized by `AboveByReferenceEdges` and `AboveSubjectBottom` |
| Relative.BelowEdges | Sources/PinLayout+Relative.swift:157-175 | no ensures of its own; the new state of `Layout.BelowOf`, characterized by `BelowByReferenceEdges` and `BelowSubjectTop` |
| Relative.LeftOfEdges | Sources/PinLayout+Relative.swift:177-193 | no ensures of its own; the new state of `Layout.LeftOf`, characterized by `LeftOfByReferenceEdges` and `LeftOfSubjectRight` |
| Relative.RightOfEdges | Sources/PinLayout+Relative.swift:195-211 | no ensures of its own; the new state of `Layout.RightOf`, characterized by `RightOfByReferenceEdges` and `RightOfSubjectLeft` |
| Relative.BeforeEdges | Sources/PinLayout+Relative.swift:102-109 | no ensures of its own; the new state of `Layout.BeforeOf`, related to left/right by `BeforeAfterFollowDirection` |
| Relative.AfterEdges | Sources/PinLayout+Relative.swift:125-132 | no ensures of its own; the new state of `Layout.AfterOf`, related to right/left by `BeforeAfterFollowDirection` |
| Relative.AnchorPoints | Sources/PinLayout+Relative.swift:150 | one anchor point per reference, in order, each the chosen anchor of that reference's frame |
| Relative.Layout.constructor | Sources/PinLayout+Relative.swift:104-108 | a fresh layout has no edge pinned and no warning, and keeps for the whole pass the direction that `isLTR()` is consulted for (the PinLayout initializer itself is not part of this model) |
| Relative.Layout.SetTop | Sources/PinLayout+Relative.swift:232 | top is pinned to the value (last write wins); no other edge and no warning changes |
| Relative.Layout.SetBottom | Sources/PinLayout+Relative.swift:151 | bottom is pinned to the value (last write wins); no other edge and no warning changes |
| Relative.Layout.SetVerticalCenter | Sources/PinLayout+Relative.swift:233 | vCenter is pinned to the value (last write wins); no other edge and no warning changes |
| Relative.Layout.SetLeft | Sources/PinLayout+Relative.swift:207 | left is pinned to the value (last write wins); no other edge and no warning changes |
| Relative.Layout.SetRight | Sources/PinLayout+Relative.swift:189 | right is pinned to the value (last write wins); no other edge and no warning changes |
| Relative.Layout.SetHorizontalCenter | Sources/PinLayout+Relative.swift:217 | hCenter is pinned to the value (last write wins); no other edge and no warning changes |
| Relative.Layout.ValidateRelativeViews | Sources/PinLayout+Relative.swift:287-295 | an empty list yields nothing and issues exactly one warning; a non-empty list is returned unchanged with no warning; no edge changes |
| Relative.Layout.ApplyHorizontalAlignment | Sources/PinLayout+Relative.swift:213-227 | left pins left to the leftmost x, center pins hCenter to the average x, right pins right to the rightmost x, start/end resolve by direction, none pins nothing; no other edge changes |
| Relative.Layout.ApplyVerticalAlignment | Sources/PinLayout+Relative.swift:229-237 | top pins top to the topmost y, center pins vCenter to the average y, bottom pins bottom to the bottommost y, none pins nothing; no other edge changes |
| Relative.Layout.AboveOf | Sources/PinLayout+Relative.swift:137-155 | the new pending edges are the old ones with bottom pinned to the topmost anchor y and then the horizontal alignment applied; an empty list changes nothing and adds one warning |
| Relative.Layout.BelowOf | Sources/PinLayout+Relative.swift:157-175 | the new pending edges are the old ones with top pinned to the bottommost anchor y and then the horizontal alignment applied; an empty list changes nothing and adds one warning |
| Relative.Layout.LeftOf | Sources/PinLayout+Relative.swift:177-193 | the new pending edges are the old ones with right pinned to the leftmost anchor x and then the vertical alignment applied; an empty list changes nothing and adds one warning |
| Relative.Layout.RightOf | Sources/PinLayout+Relative.swift:195-211 | the new pending edges are the old ones with left pinned to the rightmost anchor x and then the vertical alignment applied; an empty list changes nothing and adds one warning |
| Relative.Layout.BeforeOf | Sources/PinLayout+Relative.swift:102-109 | the new state is that of left(of:) under LTR and of right(of:) under RTL, with the alignment passed through |
| Relative.Layout.AfterOf | Sources/PinLayout+Relative.swift:125-132 | the new state is that of right(of:) under LTR and of left(of:) under RTL, with the alignment passed through |
| Relative.Layout.AboveOfView | Sources/PinLayout+Relative.swift:32-35 | the single-view overload has the effect of the list version on `[view]` and issues no warning |
| Relative.Layout.BelowOfView | Sources/PinLayout+Relative.swift:47-50 | the single-view overload has the effect of the list version on `[view]` and issues no warning |
| Relative.Layout.LeftOfView | Sources/PinLayout+Relative.swift:62-65 | the single-view overload has the effect of the list version on `[view]` and issues no warning |
| Relative.Layout.RightOfView | Sources/PinLayout+Relative.swift:77-80 | the single-view overload has the effect of the list version on `[view]` and issues no warning |
| Relative.Layout.BeforeOfView | Sources/PinLayout+Relative.swift:92-99 | the single-view overload has the effect of before(of:) on `[view]` and issues no warning |
| Relative.Layout.AfterOfView | Sources/PinLayout+Relative.swift:115-122 | the single-view overload has the effect of after(of:) on `[view]` and issues no warning |
| RelativeProperties.AnchorYsAreRowEdges | Sources/PinLayout+Relative.swift:150 | the anchor points' y values are the references' coordinates of the edge the anchor's row lies on |
| RelativeProperties.AnchorXsAreColumnEdges | Sources/PinLayout+Relative.swift:150 | the anchor points' x values are the references' coordinates of the edge the anchor's column lies on |
| RelativeProperties.VerticalNeighbourAnchors | Sources/PinLayout+Relative.swift:141-148 | above picks top-row anchors and below bottom-row anchors in the same column; a non-none alignment pins the subject edge of that very column; none picks the left column and pins nothing |
| RelativeProperties.SideNeighbourAnchors | Sources/PinLayout+Relative.swift:181-186 | left picks left-column anchors and right right-column anchors in the same row; a non-none alignment pins the subject edge of that very row; none picks the top row and pins nothing |
| RelativeProperties.StartEndAnchorsAreAliases | Sources/PinLayout+Relative.swift:145-146 | the start/end cases of above and below pick the anchors that topStart/topEnd/bottomStart/bottomEnd stand for |
| RelativeProperties.SameChoicesSameEdges | Sources/PinLayout+Relative.swift:141-168 | above(of:) and below(of:) depend on the alignment and the direction only through the anchor they pick and the edge the alignment pins |
| RelativeProperties.AboveByReferenceEdges | Sources/PinLayout+Relative.swift:137-155 | above(of:) pins bottom to the least reference top, then pins the aligned edge to the leftmost, average or rightmost of the references' same edge |
| RelativeProperties.BelowByReferenceEdges | Sources/PinLayout+Relative.swift:157-175 | below(of:) pins top to the greatest reference bottom, then pins the aligned edge to the leftmost, average or rightmost of the references' same edge |
| RelativeProperties.LeftOfByReferenceEdges | Sources/PinLayout+Relative.swift:177-193 | left(of:) pins right to the least reference left, then pins the aligned edge to the topmost, average or bottommost of the references' same edge |
| RelativeProperties.RightOfByReferenceEdges | Sources/PinLayout+Relative.swift:195-211 | right(of:) pins left to the greatest reference right, then pins the aligned edge to the topmost, average or bottommost of the references' same edge |
| RelativeProperties.AboveSubjectBottom | Sources/PinLayout+Relative.swift:150-152 | after above(of:) the bottom is at or above every reference top and equal to one of them; top and vCenter are untouched; with none nothing but bottom changes |
| RelativeProperties.BelowSubjectTop | Sources/PinLayout+Relative.swift:170-172 | after below(of:) the top is at or below every reference bottom and equal to one of them; bottom and vCenter are untouched; with none nothing but top changes |
| RelativeProperties.LeftOfSubjectRight | Sources/PinLayout+Relative.swift:188-190 | after left(of:) the right is at or left of every reference left and equal to one of them; left and hCenter are untouched; with none nothing but right changes |
| RelativeProperties.RightOfSubjectLeft | Sources/PinLayout+Relative.swift:206-208 | after right(of:) the left is at or right of every reference right and equal to one of them; right and hCenter are untouched; with none nothing but left changes |
| RelativeProperties.SingleReference | Sources/PinLayout+Relative.swift:32-35 | with one reference the primary edge goes to the reference's facing edge and an aligned edge lines up with the same edge of the reference |
| RelativeProperties.SingleReferenceAboveBelow | Sources/PinLayout+Relative.swift:32-50 | with one reference, above pins bottom to its top and below pins top to its bottom; an aligned horizontal edge goes to the same edge of the reference |
| RelativeProperties.SingleReferenceLeftRight | Sources/PinLayout+Relative.swift:62-80 | with one reference, left pins right to its left and right pins left to its right; an aligned vertical edge goes to the same edge of the reference |
| RelativeProperties.SingleHorizontalReduction | Sources/PinLayout+Relative.swift:255-277 | the leftmost, average and rightmost of one reference's horizontal edge are that edge |
| RelativeProperties.SingleVerticalReduction | Sources/PinLayout+Relative.swift:239-253 | the topmost, average and bottommost of one reference's vertical edge are that edge |
| RelativeProperties.EmptyReferencesPinNothing | Sources/PinLayout+Relative.swift:287-295 | an empty reference list leaves every pending edge as it was for all six operations and counts one warning |
| RelativeProperties.ReferencesIssueNoWarning | Sources/PinLayout+Relative.swift:289-294 | a non-empty reference list issues no warning |
| RelativeProperties.StartEndFollowDirection | Sources/PinLayout+Relative.swift:219-224 | for above and below, start behaves as left under LTR and as right under RTL, and end the other way round |
| RelativeProperties.DirectionMirror | Sources/PinLayout+Relative.swift:141-148 | alignments other than start/end give the same result in both directions; start under one direction is end under the other |
| RelativeProperties.BeforeAfterFollowDirection | Sources/PinLayout+Relative.swift:91-131 | before is left(of:) under LTR and right(of:) under RTL, after the reverse, so before in one direction is after in the other |
| RelativeProperties.TopmostOfThree | Sources/PinLayout+Relative.swift:239-245 | references with tops 30, 10, 20: above(of:) pins the bottom to 10 and nothing else |
| RelativeProperties.TiedLeftEdgesCentered | Sources/PinLayout+Relative.swift:177-193 | two references with the same left edge 5: left(of:, aligned: .center) pins right to 5 and vCenter to the average of their vertical centers |

## Left out

- UIKit/AppKit views: references are frames already in the subject's superview coordinate space.
- `layoutSuperview` (Sources/PinLayout+Relative.swift:288): it returns the subject's superview or nil, in code that is not part of this model. It is treated as always returning a superview. When it returns nil the call ends before the warning at :290, so that path issues no warning from this file and pins nothing; the model does not represent it.
- `computeCoordinates` (Sources/PinLayout+Relative.swift:150): it turns the chosen anchors into points, in code that is not part of this model. It is treated as always succeeding, with the references' frames already in the subject's superview coordinate space, so its failure path (no edge pinned) is not modelled.
- The bodies of `setTop`, `setBottom`, `setLeft`, `setRight`, `setHorizontalCenter` and `setVerticalCenter` are not part of this model. Their conflict warnings and width/height derivation are unknown, so they are plain last-write-wins updates of the pending edges.
- How `isLTR()` resolves `.auto`: the locale's direction is a parameter of `IsLTR`, and a layout carries the resolved direction.
- CGFloat arithmetic: coordinates are exact reals, so rounding, NaN and signed zero are not modelled. In particular `ExtremesIgnoreOrder` is a statement about the model: with CGFloat, `-0.0` and `+0.0` tie under the strict comparisons at Sources/PinLayout+Relative.swift:243, 251, 259 and 267, so the order decides which sign is kept, and a NaN seed is never replaced.
- Diagnostic text: the `warnWontBeApplied` message and the `relativeContext` strings (Sources/PinLayout+Relative.swift:297-319). The model counts warnings instead.
- The optional alignment parameter of `applyHorizontalAlignment`/`applyVerticalAlignment`: every caller passes a value, and nil would behave like `none`.
- The `@objc` protocol identity of `Anchor`, `HorizontalEdge` and `VerticalEdge`. They are closed datatypes here.
- `FitType`, `WrapType` and `PinSafeAreaInsetsDidChangeMode` (Sources/Types.swift:136-179, 219-229). They belong to the sizing and safe-area code.
- The fluent `@discardableResult` return value: the methods mutate the same `Layout` object.
