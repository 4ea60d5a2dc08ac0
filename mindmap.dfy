/** The navigation state machine of AI-Safety/mindmap.js: the module-level
    variables `current`, `parentStack`, `selectedFinalNodeData`,
    `selectedFinalNodeEl`, `currentInfoNode`, `tx`/`ty`/`scale`,
    `isPanning`/`panStart` and what is on the canvas, with the event
    handlers that change them. Every navigation is taken as one atomic step:
    state update, then transform, then render. */
module MindMap {
  import opened Wrappers
  import opened Tree
  import opened Layout
  import opened Viewport
  import opened Panel
  import opened Render

  /** `panStart`: pointer position and translation when the drag began. */
  datatype PanStart = PanStart(x: real, y: real, tx: real, ty: real)

  class MindMapView {
    /** The loaded tree's root (`root`). */
    const root: Node
    /** The trigonometry the layout uses. */
    const ring: Ring

    var current: Node
    var parentStack: seq<Node>
    /** `selectedFinalNodeData`: the leaf clicked for inspection. */
    var selectedData: Option<Node>
    /** `selectedFinalNodeEl`: the element last marked `selected-final`. */
    var selectedEl: Option<ElementRef>
    /** `currentInfoNode`: the node the panel was last updated with. */
    var infoNode: Node
    var panel: Panel
    var tx: real
    var ty: real
    var scale: real
    var isPanning: bool
    var panStart: Option<PanStart>
    /** The markers and edges of the last render, and which render that was. */
    var canvas: seq<Marker>
    var lines: seq<Line>
    var gen: nat
    /** The elements (of any render) that carry the `selected-final` class. */
    var highlight: set<ElementRef>

    /** The invariants every handler keeps, apart from the canvas: the stack
        plus `current` is a root-to-current path; a selection is a leaf and
        is what the panel follows; at most the remembered element carries the
        highlight, and none does without a selection; a pan is in progress
        exactly when its start is recorded. */
    ghost predicate StateValid()
      reads this`current, this`parentStack, this`selectedData, this`selectedEl
      reads this`infoNode, this`highlight, this`isPanning, this`panStart
    {
      && IsPath(root, parentStack, current)
      && (selectedData.Some? ==> IsLeaf(selectedData.value) && infoNode == selectedData.value)
      && highlight <= Remembered()
      && (selectedData.None? ==> highlight == {})
      && (isPanning <==> panStart.Some?)
    }

    /** The full invariant: the state invariants, the canvas shows the
        current level and the panel shows `currentInfoNode` under the
        current breadcrumb. */
    ghost predicate Valid()
      reads this`current, this`parentStack, this`selectedData, this`selectedEl
      reads this`infoNode, this`highlight, this`isPanning, this`panStart
      reads this`canvas, this`lines, this`panel
    {
      StateValid() && Drawn() && PanelShown()
    }

    /** The markers and edges on the canvas are those of the current level. */
    ghost predicate Drawn()
      reads this`current, this`parentStack, this`canvas, this`lines
    {
      && canvas == Scene(current, parentStack, ring)
      && lines == Lines(current, parentStack, ring)
    }

    /** The panel shows `currentInfoNode` under the current breadcrumb. */
    ghost predicate PanelShown()
      reads this`current, this`parentStack, this`infoNode, this`panel
    {
      panel == Present(infoNode, parentStack, current)
    }

    /** The element `selectedFinalNodeEl` refers to, as a set. */
    function Remembered(): set<ElementRef>
      reads this`selectedEl
    {
      if selectedEl.Some? then {selectedEl.value} else {}
    }

    /** The transform as one value. */
    function View(): Transform
      reads this`tx, this`ty, this`scale
    {
      Transform(tx, ty, scale)
    }

    /** At most one element is highlighted, and only while a leaf is selected. */
    lemma AtMostOneHighlight()
      requires StateValid()
      ensures |highlight| <= 1
      ensures |highlight| == 1 ==> selectedData.Some?
    {
      if highlight != {} {
        var e :| e in highlight;
        assert highlight == {e};
      }
    }

    /** `init` after a successful load: current = root, the transform
        puts the world centre on the free screen centre at scale 1 (the
        transform a recentring zoom to scale 1 sets), and the first level is
        drawn. */
    constructor Init(root: Node, ring: Ring, screen: Screen)
      requires root.name != ""
      ensures Valid()
      ensures this.root == root && this.ring == ring
      ensures current == root && parentStack == [] && selectedData.None? && infoNode == root
      ensures View() == ZoomTarget(WORLD_CENTER_X, WORLD_CENTER_Y, 1.0, true, screen)
      ensures !isPanning
      ensures gen == 1 && highlight == {}
    {
      this.root := root;
      this.ring := ring;
      current := root;
      parentStack := [];
      selectedData := None;
      selectedEl := None;
      infoNode := root;
      panel := Present(root, [], root);
      tx := (screen.innerWidth - INFO_PANEL_WIDTH) / 2.0 - WORLD_CENTER_X;
      ty := screen.innerHeight / 2.0 - WORLD_CENTER_Y + VERTICAL_OFFSET;
      scale := 1.0;
      isPanning := false;
      panStart := None;
      canvas := [];
      lines := [];
      gen := 0;
      highlight := {};
      new;
      Redraw();
    }

    /** `updateInfoPanel(node)`. */
    method UpdateInfoPanel(node: Node)
      modifies this`panel
      ensures panel == Present(node, parentStack, current)
    {
      panel := Present(node, parentStack, current);
    }

    /** The `arranged.forEach` loop of `renderLevel`: one marker and one
        edge per laid-out entry, appended in order. */
    method DrawEntries(arranged: seq<Placed<Item>>, depth: int)
      modifies this`canvas, this`lines
      ensures canvas == old(canvas) + EntryMarkers(arranged, depth)
      ensures lines == old(lines) + Edges(arranged)
    {
      var k := 0;
      while k < |arranged|
        invariant 0 <= k <= |arranged|
        invariant canvas == old(canvas) + EntryMarkers(arranged[..k], depth)
        invariant lines == old(lines) + Edges(arranged[..k])
      {
        assert EntryMarkers(arranged[..k + 1], depth) == EntryMarkers(arranged[..k], depth) + [EntryMarker(arranged[k], depth)];
        assert Edges(arranged[..k + 1]) == Edges(arranged[..k]) + [Line(WORLD_CENTER, arranged[k].at)];
        canvas := canvas + [EntryMarker(arranged[k], depth)];
        lines := lines + [Line(WORLD_CENTER, arranged[k].at)];
        k := k + 1;
      }
      assert arranged[..k] == arranged;
    }

    /** The drawing half of `renderLevel`: `clearView()`, the centre marker,
        the item list, `layoutChildren` and the markers and edges. */
    method DrawLevel()
      modifies this`canvas, this`lines, this`gen
      ensures canvas == Scene(current, parentStack, ring)
      ensures lines == Lines(current, parentStack, ring)
      ensures gen == old(gen) + 1
    {
      canvas := [];
      lines := [];
      gen := gen + 1;
      var depth := |parentStack|;
      canvas := [CenterMarker(current, depth)];
      var items := BuildLayoutItems(current, parentStack);
      if |items| > 0 {
        var arranged := LayoutChildren(WORLD_CENTER_X, WORLD_CENTER_Y, items, RADIUS, ring);
        ArrangedByLayout(current, parentStack, ring, arranged);
        DrawEntries(arranged, depth);
      } else {
        assert Arranged(current, parentStack, ring) == [];
      }
    }

    /** `renderLevel()`: clears the canvas and draws the current level (the
        centre, then the laid-out parent and children, each with its edge);
        a child named like the selection gets the highlight class;
        `currentInfoNode` becomes `current`; the panel shows the selection
        if there is one, otherwise `current`. */
    method RenderLevel()
      modifies this`canvas, this`lines, this`gen, this`infoNode, this`highlight, this`panel
      ensures canvas == Scene(current, parentStack, ring)
      ensures lines == Lines(current, parentStack, ring)
      ensures gen == old(gen) + 1
      ensures highlight == old(highlight) + HighlightedElements(gen, canvas, selectedData)
      ensures infoNode == current
      ensures panel == Present(if selectedData.Some? then selectedData.value else current, parentStack, current)
      ensures old(StateValid()) && selectedData.None? ==> Valid()
    {
      DrawLevel();
      infoNode := current;
      // the `selected-final` class given to child markers named like the selection
      highlight := highlight + HighlightedElements(gen, canvas, selectedData);
      var shown := if selectedData.Some? then selectedData.value else current;
      UpdateInfoPanel(shown);
    }

    /** `renderLevel()` as every navigation reaches it: with no selection. */
    method Redraw()
      requires StateValid() && selectedData.None?
      modifies this`canvas, this`lines, this`gen, this`infoNode, this`highlight, this`panel
      ensures Valid()
      ensures gen == old(gen) + 1 && infoNode == current && highlight == old(highlight)
    {
      RenderLevel();
    }

    /** `handleNodeHover(node)`: nothing happens while a leaf is selected;
        otherwise the panel switches to `node` unless it already shows it. */
    method Hover(node: Node)
      requires Valid()
      modifies this`infoNode, this`panel
      ensures Valid()
      ensures old(selectedData).Some? ==> infoNode == old(infoNode) && panel == old(panel)
      ensures old(selectedData).None? ==> infoNode == node
      ensures old(selectedData).None? ==> panel == Present(node, parentStack, current)
      ensures old(infoNode) == node ==> panel == old(panel)
    {
      if selectedData.Some? {
        return;
      }
      if infoNode != node {
        UpdateInfoPanel(node);
        infoNode := node;
      }
    }

    /** Hovering the same node twice in a row has the effect of hovering it
        once: the second call changes nothing. */
    method HoverTwice(node: Node)
      requires Valid()
      modifies this`infoNode, this`panel
      ensures Valid()
      ensures old(selectedData).Some? ==> infoNode == old(infoNode) && panel == old(panel)
      ensures old(selectedData).None? ==> infoNode == node && panel == Present(node, parentStack, current)
    {
      Hover(node);
      ghost var afterFirst := (infoNode, panel);
      Hover(node);
      assert (infoNode, panel) == afterFirst;
    }

    /** `handleNodeLeave()`: nothing happens while a leaf is selected;
        otherwise the panel reverts to `current`. */
    method Leave()
      requires Valid()
      modifies this`infoNode, this`panel
      ensures Valid()
      ensures old(selectedData).Some? ==> infoNode == old(infoNode) && panel == old(panel)
      ensures old(selectedData).None? ==> infoNode == current
      ensures old(selectedData).None? ==> panel == Present(current, parentStack, current)
    {
      if selectedData.Some? {
        return;
      }
      if infoNode != current {
        UpdateInfoPanel(current);
        infoNode := current;
      }
    }

    /** `handleFinalNodeClick(node, el)`: the previously remembered element
        loses the highlight, the leaf becomes the selection and the panel's
        node, and `el` (when given) becomes the one highlighted element.
        Navigation state, canvas and transform are untouched. */
    method FinalNodeClick(node: Node, el: Option<ElementRef>)
      requires Valid() && IsLeaf(node)
      modifies this`selectedEl, this`highlight, this`infoNode, this`selectedData, this`panel
      ensures Valid()
      ensures selectedData == Some(node) && infoNode == node
      ensures panel == Present(node, parentStack, current)
      ensures highlight == (if el.Some? then {el.value} else {})
      ensures selectedEl == (if el.Some? then el else old(selectedEl))
    {
      Unmark();
      Inspect(node);
      if el.Some? {
        Mark(el.value);
      }
    }

    /** `selectedFinalNodeEl.classList.remove('selected-final')`: no element
        keeps the highlight. */
    method Unmark()
      requires StateValid()
      modifies this`highlight
      ensures StateValid() && highlight == {}
    {
      if selectedEl.Some? {
        highlight := highlight - {selectedEl.value};
      }
    }

    /** The leaf becomes the selection and the panel's node. */
    method Inspect(node: Node)
      requires StateValid() && IsLeaf(node) && highlight == {}
      modifies this`infoNode, this`selectedData, this`panel
      ensures StateValid() && PanelShown()
      ensures selectedData == Some(node) && infoNode == node && panel == Present(node, parentStack, current)
    {
      infoNode := node;
      selectedData := Some(node);
      UpdateInfoPanel(node);
    }

    /** `el.classList.add('selected-final')` and `selectedFinalNodeEl = el`
        while a leaf is selected and nothing is highlighted. */
    method Mark(e: ElementRef)
      requires StateValid() && selectedData.Some? && highlight == {}
      modifies this`highlight, this`selectedEl
      ensures StateValid() && highlight == {e} && selectedEl == Some(e)
    {
      highlight := highlight + {e};
      selectedEl := Some(e);
    }

    /** The first step of every navigation: the remembered element (if any)
        loses the `selected-final` class and the selection is dropped;
        `forget` also nulls `selectedFinalNodeEl`. */
    method DropSelection(forget: bool)
      requires StateValid()
      modifies this`highlight, this`selectedData, this`selectedEl
      ensures StateValid()
      ensures selectedData.None? && highlight == {}
      ensures selectedEl == (if forget then None else old(selectedEl))
    {
      Unmark();
      if forget {
        selectedEl := None;
      }
      selectedData := None;
    }

    /** Moves the navigation to `node` below `stack`, which must again be a
        root-to-node path. */
    method MoveTo(node: Node, stack: seq<Node>)
      requires StateValid() && selectedData.None? && IsPath(root, stack, node)
      modifies this`current, this`parentStack
      ensures StateValid()
      ensures current == node && parentStack == stack
    {
      current := node;
      parentStack := stack;
    }

    /** The state half of every navigation: drop the selection, then move
        to `node` below `stack`. */
    method Relocate(node: Node, stack: seq<Node>, forget: bool)
      requires StateValid() && IsPath(root, stack, node)
      modifies this`current, this`parentStack, this`selectedData, this`selectedEl, this`highlight
      ensures StateValid()
      ensures current == node && parentStack == stack
      ensures selectedData.None? && highlight == {}
      ensures selectedEl == (if forget then None else old(selectedEl))
    {
      DropSelection(forget);
      MoveTo(node, stack);
    }

    /** `smoothZoomTo(wx, wy, targetScale, recenter)` without the animation:
        the transform jumps to its target. */
    method SmoothZoomTo(wx: real, wy: real, targetScale: real, recenter: bool, screen: Screen)
      modifies this`tx, this`ty, this`scale
      ensures View() == ZoomTarget(wx, wy, targetScale, recenter, screen)
    {
      var target := ZoomTarget(wx, wy, targetScale, recenter, screen);
      tx, ty, scale := target.tx, target.ty, target.scale;
    }

    /** The tail of the upward navigations: `smoothZoomTo` recentring at
        scale 1, then `renderLevel()`. */
    method Recenter(screen: Screen)
      requires StateValid() && selectedData.None?
      modifies this`tx, this`ty, this`scale, this`canvas, this`lines, this`gen, this`infoNode, this`highlight, this`panel
      ensures Valid()
      ensures View() == ZoomTarget(WORLD_CENTER_X, WORLD_CENTER_Y, 1.0, true, screen)
      ensures gen == old(gen) + 1 && infoNode == current && highlight == old(highlight)
    {
      SmoothZoomTo(WORLD_CENTER_X, WORLD_CENTER_Y, 1.0, true, screen);
      Redraw();
    }

    /** `enterChild(childNode, childX, childY, childEl)`. A leaf is handed to
        `handleFinalNodeClick` and nothing else changes; any other child is
        descended into. */
    method EnterChild(child: Node, childX: Option<real>, childY: Option<real>, el: Option<ElementRef>, screen: Screen)
      requires Valid() && child in current.children
      modifies this`current, this`parentStack, this`selectedData, this`selectedEl, this`infoNode
      modifies this`highlight, this`panel, this`canvas, this`lines, this`gen, this`tx, this`ty, this`scale
      ensures Valid()
      ensures IsLeaf(child) ==>
        && current == old(current) && parentStack == old(parentStack)
        && tx == old(tx) && ty == old(ty) && scale == old(scale) && canvas == old(canvas) && lines == old(lines)
        && gen == old(gen) && selectedData == Some(child) && infoNode == child
        && highlight == (if el.Some? then {el.value} else {})
        && selectedEl == (if el.Some? then el else old(selectedEl))
      ensures !IsLeaf(child) ==>
        && current == child && parentStack == old(parentStack) + [old(current)]
        && selectedData.None? && selectedEl.None? && highlight == {}
        && View() == ZoomTarget(WORLD_CENTER_X, WORLD_CENTER_Y, 1.0, true, screen)
        && gen == old(gen) + 1 && infoNode == child
    {
      if IsLeaf(child) {
        FinalNodeClick(child, el);
        return;
      }
      Descend(child, childX, childY, screen);
    }

    /** The non-leaf branch of `enterChild`: the selection is dropped and
        its element forgotten, `current` is pushed and the child becomes
        `current`; the view zooms to the clicked position, then snaps so the
        world centre sits on the free screen centre at scale 1, and the new
        level is drawn. */
    method Descend(child: Node, childX: Option<real>, childY: Option<real>, screen: Screen)
      requires Valid() && child in current.children
      modifies this`current, this`parentStack, this`selectedData, this`selectedEl, this`infoNode
      modifies this`highlight, this`panel, this`canvas, this`lines, this`gen, this`tx, this`ty, this`scale
      ensures Valid()
      ensures current == child && parentStack == old(parentStack) + [old(current)]
      ensures selectedData.None? && selectedEl.None? && highlight == {}
      ensures View() == ZoomTarget(WORLD_CENTER_X, WORLD_CENTER_Y, 1.0, true, screen)
      ensures gen == old(gen) + 1 && infoNode == child
    {
      PathDescend(root, parentStack, current, child);
      Relocate(child, parentStack + [current], true);
      var oldNodeX := ZoomOrigin(childX, WORLD_CENTER_X);
      var oldNodeY := ZoomOrigin(childY, WORLD_CENTER_Y);
      ZoomIn(oldNodeX, oldNodeY, screen);
    }

    /** The tail of `enterChild`: `smoothZoomTo` onto the clicked point at
        scale 1, the post-zoom snap that puts the world centre on the free
        screen centre, then `renderLevel()`. */
    method ZoomIn(wx: real, wy: real, screen: Screen)
      requires StateValid() && selectedData.None?
      modifies this`tx, this`ty, this`scale, this`canvas, this`lines, this`gen, this`infoNode, this`highlight, this`panel
      ensures Valid()
      ensures View() == ZoomTarget(WORLD_CENTER_X, WORLD_CENTER_Y, 1.0, true, screen)
      ensures gen == old(gen) + 1 && infoNode == current && highlight == old(highlight)
    {
      var targetScale := 1.0;
      SmoothZoomTo(wx, wy, targetScale, false, screen);
      // the post-zoom snap: the same translation as a recentring zoom
      var snap := ZoomTarget(WORLD_CENTER_X, WORLD_CENTER_Y, targetScale, true, screen);
      tx, ty := snap.tx, snap.ty;
      Redraw();
    }

    /** The parent marker's click handler: the selection is dropped (its
        element loses the highlight but stays remembered), the parent
        becomes `current` and is popped, the view recentres at scale 1 and
        the level is drawn. */
    method AscendToParent(parent: Node, screen: Screen)
      requires Valid() && |parentStack| > 0 && parent == parentStack[|parentStack| - 1]
      modifies this`current, this`parentStack, this`selectedData, this`selectedEl, this`infoNode
      modifies this`highlight, this`panel, this`canvas, this`lines, this`gen, this`tx, this`ty, this`scale
      ensures Valid()
      ensures current == old(parentStack)[|old(parentStack)| - 1]
      ensures parentStack == old(parentStack)[..|old(parentStack)| - 1]
      ensures selectedData.None? && selectedEl == old(selectedEl) && highlight == {}
      ensures View() == ZoomTarget(WORLD_CENTER_X, WORLD_CENTER_Y, 1.0, true, screen)
      ensures gen == old(gen) + 1 && infoNode == current
    {
      var n := |parentStack| - 1;
      PathAscend(root, parentStack, current, n);
      Relocate(parent, parentStack[..n], false);
      Recenter(screen);
    }

    /** `goToNodeFromBreadcrumb(targetIndex)`: ancestor `i` becomes
        `current` and the stack is cut to the `i` entries above it; the
        selection is dropped, the view recentres at scale 1 and the level is
        drawn. (The source's early return when the ancestor is `current`
        cannot fire: an ancestor is never the current node.) */
    method GoToBreadcrumb(i: nat, screen: Screen)
      requires Valid() && i < |parentStack|
      modifies this`current, this`parentStack, this`selectedData, this`selectedEl, this`infoNode
      modifies this`highlight, this`panel, this`canvas, this`lines, this`gen, this`tx, this`ty, this`scale
      ensures Valid()
      ensures current == old(parentStack)[i] && parentStack == old(parentStack)[..i]
      ensures selectedData.None? && selectedEl == old(selectedEl) && highlight == {}
      ensures View() == ZoomTarget(WORLD_CENTER_X, WORLD_CENTER_Y, 1.0, true, screen)
      ensures gen == old(gen) + 1 && infoNode == current
    {
      AncestorIsNotCurrent(root, parentStack, current, i);
      PathAscend(root, parentStack, current, i);
      var newCurrent := parentStack[i];
      if newCurrent == current {
        assert false;
        return;
      }
      Relocate(newCurrent, parentStack[..i], false);
      Recenter(screen);
    }

    /** A click on marker `k` of the canvas: the centre's handler does
        nothing, the parent marker's ascends, and a child marker's calls
        `enterChild` with the child, the marker's position and the marker
        itself. */
    method ClickMarker(k: nat, screen: Screen)
      requires Valid() && k < |canvas|
      modifies this`current, this`parentStack, this`selectedData, this`selectedEl, this`infoNode
      modifies this`highlight, this`panel, this`canvas, this`lines, this`gen, this`tx, this`ty, this`scale
      ensures Valid()
      ensures old(canvas)[k].role == Active ==>
        && current == old(current) && parentStack == old(parentStack) && gen == old(gen) && View() == old(View())
        && selectedData == old(selectedData) && selectedEl == old(selectedEl) && highlight == old(highlight)
        && infoNode == old(infoNode) && panel == old(panel) && canvas == old(canvas) && lines == old(lines)
      ensures old(canvas)[k].role == PrevLevel ==>
        && |old(parentStack)| > 0 && current == old(parentStack)[|old(parentStack)| - 1]
        && parentStack == old(parentStack)[..|old(parentStack)| - 1]
        && selectedData.None? && selectedEl == old(selectedEl) && highlight == {}
        && View() == ZoomTarget(WORLD_CENTER_X, WORLD_CENTER_Y, 1.0, true, screen)
        && gen == old(gen) + 1 && infoNode == current
      ensures old(canvas)[k].role == ChildLevel ==>
        old(canvas)[k].node in old(current).children
      ensures old(canvas)[k].role == ChildLevel && IsLeaf(old(canvas)[k].node) ==>
        && current == old(current) && parentStack == old(parentStack)
        && View() == old(View()) && canvas == old(canvas) && lines == old(lines) && gen == old(gen)
        && selectedData == Some(old(canvas)[k].node) && infoNode == old(canvas)[k].node
        && highlight == {ElementRef(old(gen), k)} && selectedEl == Some(ElementRef(old(gen), k))
      ensures old(canvas)[k].role == ChildLevel && !IsLeaf(old(canvas)[k].node) ==>
        && current == old(canvas)[k].node && parentStack == old(parentStack) + [old(current)]
        && selectedData.None? && selectedEl.None? && highlight == {}
        && View() == ZoomTarget(WORLD_CENTER_X, WORLD_CENTER_Y, 1.0, true, screen)
        && gen == old(gen) + 1 && infoNode == current
    {
      SceneMarkerAt(current, parentStack, ring, k);
      var m := canvas[k];
      match m.role
      case Active =>
      case PrevLevel =>
        AscendToParent(m.node, screen);
      case ChildLevel =>
        EnterChild(m.node, Some(m.at.x), Some(m.at.y), Some(ElementRef(gen, k)), screen);
    }

    /** Entering child `j` (not a leaf) and then taking the parent marker of
        the new level back up brings back the same level: the same current
        node, stack, markers and edges, with no selection and the view
        recentred. */
    method DescendThenAscend(j: nat, screen: Screen)
      requires Valid() && j < |current.children| && !IsLeaf(current.children[j])
      modifies this`current, this`parentStack, this`selectedData, this`selectedEl, this`infoNode
      modifies this`highlight, this`panel, this`canvas, this`lines, this`gen, this`tx, this`ty, this`scale
      ensures Valid()
      ensures current == old(current) && parentStack == old(parentStack)
      ensures canvas == old(canvas) && lines == old(lines)
      ensures selectedData.None? && highlight == {} && gen == old(gen) + 2
      ensures View() == ZoomTarget(WORLD_CENTER_X, WORLD_CENTER_Y, 1.0, true, screen)
    {
      ghost var level := (current, parentStack);
      Descend(current.children[j], None, None, screen);
      AscendToParent(parentStack[|parentStack| - 1], screen);
      assert parentStack == level.1;
    }

    /** The `mouseenter` listener `createNodeElement` attaches to every
        marker with a node whose key is not `current` (so not to the centre
        marker): hover with the marker's node. */
    method HoverMarker(k: nat)
      requires Valid() && k < |canvas|
      modifies this`infoNode, this`panel
      ensures Valid()
      ensures canvas[k].key == "current" || selectedData.Some? ==> infoNode == old(infoNode) && panel == old(panel)
      ensures canvas[k].key != "current" && selectedData.None? ==>
        infoNode == canvas[k].node && panel == Present(canvas[k].node, parentStack, current)
    {
      if canvas[k].key != "current" {
        Hover(canvas[k].node);
      }
    }

    /** The stage's `mousedown` listener: a press on a node, the info panel,
        the back button or the breadcrumb (`onChrome`) is ignored; any
        other starts a pan from the pointer position and the current
        translation. */
    method MouseDown(onChrome: bool, x: real, y: real)
      requires Valid()
      modifies this`isPanning, this`panStart
      ensures Valid()
      ensures onChrome ==> isPanning == old(isPanning) && panStart == old(panStart)
      ensures !onChrome ==> isPanning && panStart == Some(PanStart(x, y, tx, ty))
    {
      if onChrome {
        return;
      }
      isPanning := true;
      panStart := Some(PanStart(x, y, tx, ty));
    }

    /** The stage's `touchstart` listener: a pan starts only for exactly one
        touch that is not on the chrome, from that touch's position. */
    method TouchStart(touches: seq<Point>, onChrome: bool)
      requires Valid()
      modifies this`isPanning, this`panStart
      ensures Valid()
      ensures |touches| == 1 && !onChrome ==>
        isPanning && panStart == Some(PanStart(touches[0].x, touches[0].y, tx, ty))
      ensures |touches| != 1 || onChrome ==> isPanning == old(isPanning) && panStart == old(panStart)
    {
      if |touches| == 1 && !onChrome {
        var t := touches[0];
        isPanning := true;
        panStart := Some(PanStart(t.x, t.y, tx, ty));
      }
    }

    /** The `mousemove` listener (and `touchmove` with its first touch):
        while panning, the translation becomes the start translation plus
        the pointer's displacement since the press; the scale is kept. */
    method PointerMove(x: real, y: real)
      requires Valid()
      modifies this`tx, this`ty
      ensures Valid()
      ensures !isPanning ==> tx == old(tx) && ty == old(ty)
      ensures isPanning ==>
        View() == Panned(Transform(panStart.value.tx, panStart.value.ty, scale), x - panStart.value.x, y - panStart.value.y)
    {
      if !isPanning {
        return;
      }
      var start := panStart.value;
      var moved := Panned(Transform(start.tx, start.ty, scale), x - start.x, y - start.y);
      tx, ty := moved.tx, moved.ty;
    }

    /** Two pointer moves in one drag end where the second move alone would
        end: each move recomputes the translation from the pan start, so the
        first leaves no trace. */
    method DragTwice(x1: real, y1: real, x2: real, y2: real)
      requires Valid()
      modifies this`tx, this`ty
      ensures Valid()
      ensures !isPanning ==> tx == old(tx) && ty == old(ty)
      ensures isPanning ==>
        View() == Panned(Transform(panStart.value.tx, panStart.value.ty, scale), x2 - panStart.value.x, y2 - panStart.value.y)
    {
      PointerMove(x1, y1);
      PointerMove(x2, y2);
    }

    /** The `touchmove` listener: `ev.touches[0]` with no touch left throws
        before anything is assigned. */
    method TouchMove(touches: seq<Point>)
      requires Valid()
      modifies this`tx, this`ty
      ensures Valid()
      ensures !isPanning || |touches| == 0 ==> tx == old(tx) && ty == old(ty)
      ensures isPanning && |touches| > 0 ==>
        View() == Panned(Transform(panStart.value.tx, panStart.value.ty, scale),
                         touches[0].x - panStart.value.x, touches[0].y - panStart.value.y)
    {
      if !isPanning || |touches| == 0 {
        return;
      }
      PointerMove(touches[0].x, touches[0].y);
    }

    /** The `mouseup` and `touchend` listeners: the pan ends. */
    method PointerUp()
      requires Valid()
      modifies this`isPanning, this`panStart
      ensures Valid()
      ensures !isPanning && panStart.None?
    {
      isPanning := false;
      panStart := None;
    }
  }
}
