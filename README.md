# Mind-map navigation engine

This project models the navigation and view-state engine of the radial
"AI Safety" mind map (`AI-Safety/mindmap.js`) and proves properties of it
in Dafny.

The page shows one level of a content tree at a time:
- the current topic sits in the centre;
- its parent (below the root) and its children sit on a circle around it;
- an info panel on the right shows one node's title, description, breadcrumb
  trail, sites and papers.

Clicking a child with children descends into it. Clicking a leaf selects it
for inspection. The parent marker and the breadcrumb links climb back up.
Hovering previews a node in the panel, and dragging the background pans the
view.

The model is split into modules that follow the program's parts:

- `Tree`: the content tree. Nodes are values, `IsLeaf`, the marker key
  `id || name`, and the chain invariant `IsPath`: the ancestor stack followed
  by the current node is a real root-to-current path. Lemmas cover descending,
  ascending, and the fact that an ancestor is never the current node.
- `Layout`: `layoutChildren`. The trigonometry is a function parameter
  (`Ring`). `Math.round` is written out, and the layout loop is a method.
- `Viewport`: the transform targets of `smoothZoomTo`, the post-zoom snap,
  and the pan arithmetic, on reals.
- `Panel`: what `updateInfoPanel` shows (field fallbacks, section
  visibility, entries) and the breadcrumb parts of `renderBreadcrumbs`.
- `Render`: the scene `renderLevel` draws. It has the item list, markers
  with their role and depth classes, edges, and the highlight-by-name rule.
- `MindMap`: class `MindMapView`, holding the page's module-level state:
  - navigation: `current`, `parentStack`;
  - selection: `selectedFinalNodeData`, `selectedFinalNodeEl`;
  - panel: `currentInfoNode`;
  - view: `tx`/`ty`/`scale`, `isPanning`/`panStart`;
  - what is on the canvas.

  Each event handler is a method. The invariant `Valid()` says three things.
  The stack plus `current` is a root-to-current path. A selection is a leaf,
  and at most the remembered element carries the `selected-final` class. The
  canvas and panel show the current state.

Each canvas element is identified by `ElementRef(render number, index)`. An
element from an earlier render can therefore still be referenced after it
left the page, as `selectedFinalNodeEl` is.

Every navigation is one atomic step: state update, then transform, then
render. `window.innerWidth`/`innerHeight` are a `Screen` parameter. The
loaded tree is given to the constructor.

Some observations about the code, which the contracts state as written.
Those that say something "never" happens hold in the atomic model, where no
event arrives between a navigation's state update and its render; the page
itself has no such lock (see "## Left out").

- Every navigation clears `selectedFinalNodeData` before it calls
  `renderLevel`. So, in the atomic model, `renderLevel` never runs with a
  selection, and its `selected-final`-by-name branch (line 306) and its
  "panel shows the selection" branch (line 322) never fire. `RenderLevel` is
  still proved for both cases. `Redraw` is the form every atomic caller
  reaches.
- `renderLevel` always sets `currentInfoNode = current` (line 252), even
  when the panel shows a selection.
- `goToNodeFromBreadcrumb` truncates the stack before it tests
  `newCurrent === current`. While the path invariant holds, that early
  return cannot fire, because an ancestor is never the current node
  (`Tree.AncestorIsNotCurrent`). The
  model keeps the test as an unreachable branch.
- `childX || worldCenter.x` would treat a click position of 0 as absent.
  Laid-out positions are at least 1199.5 and 699.5
  (`Viewport.SlotIsNeverZero`), so this never matters for a real click.
- The parent marker and breadcrumb handlers remove the highlight from
  `selectedFinalNodeEl` but do not null it, unlike `enterChild`. The model
  keeps the stale reference (`selectedEl == old(selectedEl)`).
- The hover listeners are attached by marker key (`id !== 'current'`). A
  child whose key is the string `current` gets no hover listener
  (`HoverMarker`).

## Model

| member | source | states |
|---|---|---|
| Tree.ChildIsLower | AI-Safety/mindmap.js:340-341 | proof step for `AncestorsAreHigher`: the child that a descent makes `current` is strictly lower than the node pushed above it |
| Tree.PathDescend | AI-Safety/mindmap.js:340-341 | pushing `current` and moving to one of its children keeps stack + current a root-to-current path |
| Tree.PathAscend | AI-Safety/mindmap.js:210-213 | making stack entry i current and cutting the stack to its first i entries keeps a root-to-current path |
| Tree.AncestorsAreHigher | AI-Safety/mindmap.js:206-217 | on a root-to-current path every ancestor is strictly higher than, and so different from, the current node |
| Tree.AncestorIsNotCurrent | AI-Safety/mindmap.js:215 | the breadcrumb handler's target `parentStack[i]` is never `current`, so its early return is unreachable |
| Layout.Round | AI-Safety/mindmap.js:84-85 | `Math.round` returns the integer within half a unit of its argument, halves rounded up |
| Layout.Slot | AI-Safety/mindmap.js:83-85 | each rounded slot coordinate is within half a pixel of the exact point on the circle |
| Layout.LayoutChildren | AI-Safety/mindmap.js:78-89 | `layoutChildren` returns one entry per input, in input order, entry i at slot i of n; empty for n = 0 |
| Viewport.ZoomTarget | AI-Safety/mindmap.js:377-385 | the `smoothZoomTo` target has the requested scale and puts the world centre (recenter) or (wx, wy) on the centre of the screen left of the info panel |
| Viewport.ZoomTargetUnique | AI-Safety/mindmap.js:366-389 | that target is the only transform of the requested scale that centres the chosen point |
| Viewport.SlotIsNeverZero | AI-Safety/mindmap.js:345-346 | a laid-out position is at least 1199.5 / 699.5, so `childX \|\| worldCenter.x` (and the same for y) returns the clicked child's own coordinate |
| Viewport.Panned | AI-Safety/mindmap.js:406-413 | a pan shifts every world point's screen position by exactly the pointer displacement and keeps the scale |
| Viewport.DragFollowsPointer | AI-Safety/mindmap.js:404-411 | the world point under the pointer at the press stays under the pointer throughout the drag |
| Panel.Or | AI-Safety/mindmap.js:127-128 | `s \|\| fallback` on strings: `s` when it is non-empty, otherwise the fallback |
| Panel.SiteItem | AI-Safety/mindmap.js:139-148 | a site entry links to `url` or '#', is titled `title` or 'Untitled', and shows the summary |
| Panel.PaperItem | AI-Safety/mindmap.js:163-175 | a paper entry has `title` or 'Untitled', the authors followed by " (year)" only when there is a year, the summary, a link to `url` or '#', and link text exactly when there is a URL |
| Panel.SitesSection | AI-Safety/mindmap.js:133-154 | the sites section is hidden exactly when there are no sites; otherwise it has one entry per site, in order, with link `url \|\| '#'` and text `title \|\| 'Untitled'` |
| Panel.PapersSection | AI-Safety/mindmap.js:157-181 | the papers section is hidden exactly when there are no papers; otherwise it has one entry per paper, in order |
| Panel.Breadcrumbs | AI-Safety/mindmap.js:188-199 | the trail has `parentStack.length + 1` parts; part i links to ancestor i with its name; the last part is the current node's name |
| Panel.BreadcrumbsFollowPath | AI-Safety/mindmap.js:188-199 | the trail's labels are the names along stack + current, and every link targets a valid stack index with that ancestor's name |
| Panel.Present | AI-Safety/mindmap.js:124-182 | title is the name, or 'Untitled' when it is empty; description is the description, or 'No description provided.'; the breadcrumb is rebuilt; the sites and papers sections are exactly those of the node's lists (hidden iff empty, else one entry per record) |
| Render.LayoutItemsOrder | AI-Safety/mindmap.js:254-265 | the item list has `children.length + (stack non-empty ? 1 : 0)` entries: the parent first, then the children in tree order |
| Render.BuildLayoutItems | AI-Safety/mindmap.js:255-265 | the `push`/`forEach` loop builds exactly that item list |
| Render.ArrangedByLayout | AI-Safety/mindmap.js:268-269 | what `layoutChildren` returns for the item list is the level's arrangement around the world centre at radius 300 |
| Render.SceneShape | AI-Safety/mindmap.js:238-319 | the canvas holds the centre marker (`current`, depth d), then the parent marker (key `prev`, depth d-1, top of the stack) below the root, then one marker per child in order (key `id \|\| name`, depth d+1), and one edge from the centre per non-centre marker |
| Render.SceneMarkerAt | AI-Safety/mindmap.js:246-317 | marker k is the centre for k = 0, the parent for k = 1 below the root, and child k-1-(stack non-empty ? 1 : 0) otherwise |
| Render.HighlightByName | AI-Safety/mindmap.js:306-308 | with no selection no marker is highlighted; with a selected child j and distinct child names exactly child j's marker is |
| MindMap.MindMapView.AtMostOneHighlight | AI-Safety/mindmap.js:108-121 | under the invariant at most one element carries `selected-final`, and only while a leaf is selected |
| MindMap.MindMapView.Init | AI-Safety/mindmap.js:433-451 | after a successful load: current = root, empty stack, no selection, panel on the root, transform = the recentring target at scale 1, first level drawn, invariant established |
| MindMap.MindMapView.UpdateInfoPanel | AI-Safety/mindmap.js:124-182 | the panel becomes the presentation of the node under the current breadcrumb |
| MindMap.MindMapView.DrawEntries | AI-Safety/mindmap.js:271-318 | the `arranged.forEach` loop appends one marker and one edge per entry, in order |
| MindMap.MindMapView.DrawLevel | AI-Safety/mindmap.js:239-319 | after clearing, the canvas holds exactly the scene and edges of the current level |
| MindMap.MindMapView.RenderLevel | AI-Safety/mindmap.js:238-326 | draws the level; markers named like the selection join the highlight; `currentInfoNode` becomes `current`; the panel shows the selection if set, else `current`; the invariant is restored when there is no selection |
| MindMap.MindMapView.Redraw | AI-Safety/mindmap.js:238-326 | `renderLevel` with no selection (how every caller reaches it) establishes the invariant and leaves the panel on `current` |
| MindMap.MindMapView.Hover | AI-Safety/mindmap.js:92-98 | no change while a leaf is selected; otherwise the panel's node becomes `node`; hovering the node already shown changes nothing |
| MindMap.MindMapView.HoverTwice | AI-Safety/mindmap.js:92-98 | a repeated hover is a no-op: two hovers end where one does |
| MindMap.MindMapView.Leave | AI-Safety/mindmap.js:100-106 | no change while a leaf is selected; otherwise the panel returns to `current` |
| MindMap.MindMapView.FinalNodeClick | AI-Safety/mindmap.js:108-121 | the leaf becomes the selection and the panel's node; `el` (if given) becomes the only highlighted and the remembered element; navigation, canvas and transform are untouched |
| MindMap.MindMapView.Unmark | AI-Safety/mindmap.js:109-111 | removing the class from the remembered element leaves nothing highlighted |
| MindMap.MindMapView.Inspect | AI-Safety/mindmap.js:113-115 | the leaf becomes selection and panel node |
| MindMap.MindMapView.Mark | AI-Safety/mindmap.js:117-120 | `el` becomes the one highlighted element and is remembered |
| MindMap.MindMapView.DropSelection | AI-Safety/mindmap.js:334-338 | the highlight is removed and the selection cleared; the element is forgotten only on descent |
| MindMap.MindMapView.MoveTo | AI-Safety/mindmap.js:340-341 | `current` and `parentStack` become the given path |
| MindMap.MindMapView.Relocate | AI-Safety/mindmap.js:283-288 | drop the selection, then move to the given path, keeping the invariant |
| MindMap.MindMapView.SmoothZoomTo | AI-Safety/mindmap.js:366-396 | the transform becomes the zoom target |
| MindMap.MindMapView.Recenter | AI-Safety/mindmap.js:291-295 | recentre at scale 1, then draw the level |
| MindMap.MindMapView.EnterChild | AI-Safety/mindmap.js:328-364 | a leaf is selected with navigation, canvas and transform unchanged; any other child is pushed-into (stack + [old current]), the selection and its element are cleared, and the view ends recentred at scale 1 with the new level drawn |
| MindMap.MindMapView.Descend | AI-Safety/mindmap.js:334-364 | the non-leaf branch: push, clear selection, zoom, snap, draw; the path invariant is kept |
| MindMap.MindMapView.ZoomIn | AI-Safety/mindmap.js:348-363 | zoom onto the click point, then the snap puts the world centre on the free screen centre at scale 1, then draw |
| MindMap.MindMapView.AscendToParent | AI-Safety/mindmap.js:283-296 | the parent marker: current becomes the stack top, the stack is popped, the selection is cleared but its element stays remembered, view recentred, level drawn |
| MindMap.MindMapView.GoToBreadcrumb | AI-Safety/mindmap.js:206-232 | ancestor i becomes current and the stack is cut to length i; selection cleared, element remembered, view recentred, level drawn, invariant kept |
| MindMap.MindMapView.ClickMarker | AI-Safety/mindmap.js:247-315 | clicking the centre changes nothing at all; the parent marker ascends (stack top becomes current, stack popped, selection cleared, element still remembered, view recentred, level redrawn); a leaf child becomes the selection with this very element the only highlighted and remembered one, while navigation, view and canvas stay unchanged; a non-leaf child is entered (stack + [old current], selection and element cleared, view recentred, level redrawn) |
| MindMap.MindMapView.DescendThenAscend | AI-Safety/mindmap.js:283-341 | descending into a non-leaf child and clicking the new parent marker restores current, stack, markers and edges, with no selection |
| MindMap.MindMapView.HoverMarker | AI-Safety/mindmap.js:61-63 | a marker whose key is not `current` previews its node on hover (unless a leaf is selected); the centre marker does nothing |
| MindMap.MindMapView.MouseDown | AI-Safety/mindmap.js:401-405 | a press off the chrome starts a pan from the pointer and the current translation; one on the chrome changes nothing |
| MindMap.MindMapView.TouchStart | AI-Safety/mindmap.js:417-422 | a pan starts only for exactly one touch off the chrome |
| MindMap.MindMapView.PointerMove | AI-Safety/mindmap.js:406-413 | while panning, the transform is the pan start moved by the pointer's displacement; otherwise it is unchanged |
| MindMap.MindMapView.DragTwice | AI-Safety/mindmap.js:406-413 | two moves in one drag end where the second move alone ends: each move recomputes the translation from the pan start |
| MindMap.MindMapView.TouchMove | AI-Safety/mindmap.js:423-429 | the same for the first touch; no change when not panning or with no touch |
| MindMap.MindMapView.PointerUp | AI-Safety/mindmap.js:414-430 | the `mouseup` and `touchend` listeners end the pan |

## Left out

- `AI-Safety/data.js` (fetching and parsing the YAML content) is not part of
  this model. The parsed tree is the constructor's argument.
- `script.js` (page menu, hash routing, accordions) is not part of this
  model.
- MindMap.MindMapView.Init: `init`'s error path is not modelled. The
  constructor requires a root with a non-empty name, which is the case
  `init` accepts; a load failure or a nameless root only writes an error
  message into the page.
- DOM construction and styling are not modelled: element creation, CSS
  classes other than roles and depths, SVG path attributes, `innerHTML`
  markup, `applyTransform`, and the `' › '` join of the breadcrumb parts.
  Markers, edges, panel sections and breadcrumb parts are values instead.
- Timing is not modelled: `setTimeout`, the Promise returned by
  `smoothZoomTo`, `TRANS_MS` and the CSS transition. Each navigation is one
  atomic step, and `SmoothZoomTo` jumps straight to its target.
- Clicks during a navigation's animation are not modelled. The page has no
  navigation lock: after the state update (lines 217, 287-288, 340-341) the
  old level stays on the canvas and clickable until `renderLevel` clears it
  (line 239), about 530 ms later (lines 392-394). Such clicks can break
  the path invariant. A double click on a non-leaf child pushes that child
  onto the stack while it is also `current`. The old parent marker pops a
  node that is not its own. A leaf click in that window makes `renderLevel`
  run with a selection. A stale breadcrumb link can carry an index that is
  out of range. `Valid()` and the navigation contracts hold only for events
  that arrive after the previous render.
- Floating point is not modelled: coordinates and the transform are reals.
  `Math.cos`/`Math.sin` are the uninterpreted `Ring` parameter, so only
  count, order and rounding of the layout are proved.
- Hit-testing is not modelled: `closest('.node')`, `.info-panel`,
  `#backButton` and `.breadcrumb` become the `onChrome` argument.
- `renderLevel`'s centre parameters are always the world centre (every call
  in the file passes it), so the model fixes them there.
- MindMap.MindMapView.GoToBreadcrumb: requires `i < parentStack.length`. For
  an index out of range the source sets `current` to `undefined` and fails
  later. The breadcrumb links only produce valid indices
  (`Panel.BreadcrumbsFollowPath`).
- MindMap.MindMapView.EnterChild: requires `child` to be a child of
  `current`. Its only caller, a child marker's click handler, guarantees
  this (`ClickMarker`).
- MindMap.MindMapView.AscendToParent: requires `parent` to be the top of the
  stack. That holds for the parent marker's node, which is the only caller
  (`ClickMarker`).
- MindMap.MindMapView.FinalNodeClick: requires a leaf. Its only caller,
  `enterChild`, calls it only for a leaf.
- `updateInfoPanel(null)`'s early return is not modelled, because every call
  passes a node.
- Sites and papers: a field the content omits is the empty string. A numeric
  paper year is taken as its text, and a year of 0 as "".
- Render.HighlightByName: proved only for pairwise-distinct child names.
  With duplicate names the `selected-final` class may go to several
  children; `RenderLevel` states the general set.
