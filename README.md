# Seam picker: a Dafny model

The repository holds two components with real logic. `CombinedSVGView`
shows two pattern diagrams side by side and pairs one click on each
into a seam line, which it hands to its parent through `onAddLine`.
`ThreeDPreview` draws a given list of such lines in 3-D, between two
parallel planes. The src/App.jsx in the repository mounts neither
component; it renders only `SVGUploader`. This project models the two
components:

- `CombinedSvgView` (src/components/CombinedSVGView.jsx):
  - the layout rule: a fixed gap of 40 and two equal panes;
  - the mapping from surface x to a pane and a pane-local x, and the
    render-time mapping back;
  - the two-click pairing machine in `handleClick`, as the class
    `CombinedSvgView.View`. Its `lines` field stands for the parent's
    line store, which `onAddLine` appends to.

  The pairing step is also written as a pure function, `Apply`, over a
  `PickerState` (anchor and store). `View.HandleClick` keeps the source's
  branches and is proved equal to `Apply`. `Replay` folds `Apply` over a
  sequence of clicks. The lemmas about `Replay` state what holds after any
  sequence of clicks.
- `ThreeDPreview` (src/components/ThreeDPreview.jsx): the scale factor,
  the per-endpoint projection, the colour mapping and the empty-input
  guard, as pure functions over a sequence of lines.

All coordinates are `real`. Two JavaScript results that are not finite
numbers are modelled as `None`:
- a pane-1 x drawn while the pane width is still `undefined`;
- a division by a zero scale factor.

Behaviours of the code that the model keeps exactly as written:
- A click in the gap while an anchor is pending does not cancel it
  (CombinedSVGView.jsx:61 returns before line 76 clears the anchor).
- Pane boundaries are strict. With a width of 840 the panes are 400 wide,
  so x = 440 lands in the gap, not at local x 0 of pane 1 (`EdgeOfGap`).
- The 3-D projection uses the stored pane-local x with no pane offset
  (ThreeDPreview.jsx:30, 34; `NoPaneOffset`), so points of the two
  panes share one x range on the two planes, whatever `width` the
  caller passes (the caller is not part of this model).
- A same-pane second click is rejected and the anchor cleared.
- There is no preview cursor, pointer-leave cancel, undo or reset in the
  code, so the model has none of them.

## Model

| member | source | states |
|---|---|---|
| CombinedSvgView.PaneWidth | src/components/CombinedSVGView.jsx:8-45 | two panes plus the gap of 40 fill the width exactly; the pane width is negative exactly when the width is below the gap (no clamping) |
| CombinedSvgView.Measure | src/components/CombinedSVGView.jsx:40-46 | measuring records the rectangle's width and height and sets a pane width with 2*svgWidth + gap == width |
| CombinedSvgView.Classify | src/components/CombinedSVGView.jsx:58-59 | pane 0 iff x < svgWidth, pane 1 iff x > svgWidth + gap, gap (-1) iff the width is unmeasured or x lies in the closed band between, both boundaries included |
| CombinedSvgView.RenderX | src/components/CombinedSVGView.jsx:115-121 | pane 0 draws at its stored x; pane 1 draws at stored x + svgWidth + gap, and is not a finite number while the width is unmeasured |
| CombinedSvgView.Locate | src/components/CombinedSVGView.jsx:53-63 | a click captures nothing exactly when it is in the gap; otherwise it captures its pane, keeps y, keeps x on pane 0 (below svgWidth), gives a strictly positive x on pane 1, and drawing the captured point gives back the clicked x |
| CombinedSvgView.LocateRendered | src/components/CombinedSVGView.jsx:115-121 | conversely, a point inside its pane is captured again, unchanged, by a click where it is drawn |
| CombinedSvgView.RenderLine | src/components/CombinedSVGView.jsx:113-134 | when the width is measured and both ends lie inside their panes, each end is drawn where a click classifies it into its own pane, so a cross-pane line is drawn with its ends in different panes; y values and colour are kept |
| CombinedSvgView.RenderLines | src/components/CombinedSVGView.jsx:113 | exactly one drawn line per stored line, in store order |
| CombinedSvgView.DrawnWhereClicked | src/components/CombinedSVGView.jsx:63-74 | a line completed by two clicks from idle is drawn from the first click's surface position to the second's, coloured by the second click's button |
| CombinedSvgView.ColorFor | src/components/CombinedSVGView.jsx:73 | the line is red exactly for button 0, otherwise blue |
| CombinedSvgView.Apply | src/components/CombinedSVGView.jsx:61-78 | a gap click and a click with a button other than 0 or 2 change nothing, even when anchored; an idle click anchors the captured point; an anchored click appends exactly one line (anchor to new point, colour by button) iff it is on the other pane, never changes earlier lines, and clears the anchor either way |
| CombinedSvgView.ApplyKeepsWellFormed | src/components/CombinedSVGView.jsx:69-76 | one click keeps the anchor in a pane and every stored line joining the two panes |
| CombinedSvgView.ReplayKeepsWellFormed | src/components/CombinedSVGView.jsx:65-78 | after any sequence of clicks every stored line has start and end on different panes |
| CombinedSvgView.ReplayExtendsStore | src/components/CombinedSVGView.jsx:70-74 | clicks only append: the store before is a prefix of the store after |
| CombinedSvgView.ReplayTwoClicksPerLine | src/components/CombinedSVGView.jsx:65-78 | each line takes two clicks: twice the lines added plus a pending anchor is at most the clicks made plus an anchor pending before |
| CombinedSvgView.UnmeasuredIgnoresClicks | src/components/CombinedSVGView.jsx:5-9 | before the layout is measured no click changes the anchor or the store |
| CombinedSvgView.EdgeOfGap | src/components/CombinedSVGView.jsx:58-63 | at width 840 the panes are 400 wide; a second click at x = 440 is in the gap and leaves the anchor pending, one at x = 441 completes a red line ending at local x 1 on pane 1 |
| CombinedSvgView.View.constructor | src/components/CombinedSVGView.jsx:5-11 | the view starts unmeasured, with no anchor and an empty store |
| CombinedSvgView.View.FilesChanged | src/components/CombinedSVGView.jsx:13-48 | with exactly two files the layout is measured, otherwise nothing changes; anchor and store are untouched |
| CombinedSvgView.View.HandleClick | src/components/CombinedSVGView.jsx:50-79 | the new anchor and store are those of `Apply` on the old ones; a gap click changes nothing; the layout is unchanged and the cross-pane invariant is kept |
| CombinedSvgView.View.Rendered | src/components/CombinedSVGView.jsx:107-135 | the overlay draws one line per stored line, in order, at surface coordinates |
| ThreeDPreview.HexColor | src/components/ThreeDPreview.jsx:26 | "red" maps to 0xff0000 and every other colour to 0x0000ff |
| ThreeDPreview.ScaleFactor | src/components/ThreeDPreview.jsx:22 | the scale is half the larger of width and height, and positive when either is positive |
| ThreeDPreview.Div | src/components/ThreeDPreview.jsx:30-31 | a quotient is finite exactly when the divisor is nonzero, and then times the divisor gives the dividend |
| ThreeDPreview.ProjectPoint | src/components/ThreeDPreview.jsx:30-32 | z is -1 exactly for pane 0 and +1 otherwise; x and y are finite exactly when the scale is nonzero, and then x = width/2 + x3*scale and y = height/2 - y3*scale |
| ThreeDPreview.ProjectLine | src/components/ThreeDPreview.jsx:25-36 | a segment projects both endpoints, maps the colour, and puts the ends of a cross-pane line on opposite planes |
| ThreeDPreview.ProjectAll | src/components/ThreeDPreview.jsx:25-46 | exactly one segment per line, in input order |
| ThreeDPreview.Preview | src/components/ThreeDPreview.jsx:9-46 | missing or empty lines give no segment; otherwise one segment per line, in order |
| ThreeDPreview.PreviewJoinsPlanes | src/components/ThreeDPreview.jsx:32-36 | for a store of cross-pane lines every segment has one end on z = -1 and the other on z = +1 |
| ThreeDPreview.ViewPreviewJoinsPlanes | src/components/ThreeDPreview.jsx:25-36 | for any valid view, the preview of its store has one segment per line and every segment has one end on z = -1 and the other on z = +1 |
| ThreeDPreview.CentreToAxis | src/components/ThreeDPreview.jsx:30-31 | when width or height is positive (so the scale is positive), the point (width/2, height/2) projects to x3 = y3 = 0 |
| ThreeDPreview.VerticalFlip | src/components/ThreeDPreview.jsx:31 | with a positive scale a larger y gives a smaller y3 |
| ThreeDPreview.HorizontalOrder | src/components/ThreeDPreview.jsx:30 | with a positive scale a larger x gives a larger x3 |
| ThreeDPreview.NoPaneOffset | src/components/ThreeDPreview.jsx:30-32 | no pane offset is added: equal stored coordinates on the two panes give equal x3 and y3, at z = -1 and z = +1 |
| ThreeDPreview.ProjectExample | src/components/ThreeDPreview.jsx:22-32 | at 840 by 600 the pane-0 point (100, 300) projects to (-320/420, 0, -1) |

## Left out

- SVG normalisation (src/components/CombinedSVGView.jsx:16-36) uses `DOMParser` and DOM attribute changes, which are foreign calls. In that code `width` and `height` are removed (lines 23-24) before they are read (lines 28-29), so the fallback viewBox is always `0 0 100% 100%`.
- `getBoundingClientRect` and the subtraction of `rect.left`/`rect.top` (lines 53-55) are browser geometry. Clicks enter the model already relative to the surface, and the measured width and height are plain inputs.
- The `containerRef.current` null guards in `handleClick` (line 51) and in the measuring effect (line 14) are left out. They concern only whether the DOM node is mounted; `View.FilesChanged` tests only the file count.
- Both `onClick` and `onMouseDown` call `handleClick` (lines 88, 90), and React applies state updates asynchronously. Each `handleClick` call is modelled as one atomic step; the event ordering and stale-closure effects are not modelled.
- `preventDefault` on the context menu (lines 81-83) and the JSX layout are rendering.
- The parent that owns `lines` and `onAddLine` is not part of this model. Its store is modelled as a sequence that starts empty and that clicks append to.
- The three.js scene, camera, renderer, axes helper, animation loop and DOM cleanup (src/components/ThreeDPreview.jsx:11-19, 38-60) are foreign rendering calls. The `!container` part of the guard at line 9 is left out with them.
- src/components/SVGUploader.jsx (file reading, type check, markup injection) and src/App.jsx (static layout) are I/O and presentation, with nothing to state.
- JavaScript numbers are modelled as exact reals. The arithmetic is only addition, subtraction, halving and division, and only non-finite results are modelled (as `None`); rounding is not.
