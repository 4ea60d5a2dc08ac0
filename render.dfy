/** The render pass of AI-Safety/mindmap.js (`renderLevel`) as the scene it
    draws: the centre marker, then one marker per laid-out item (the parent
    first when there is one, then the children in tree order), each joined
    to the centre by a straight line. */
module Render {
  import opened Wrappers
  import opened Tree
  import opened Layout
  import opened Viewport

  /** What a marker stands for: the centre (`active`), the parent
      (`prev-level`) or a child. */
  datatype Role = Active | PrevLevel | ChildLevel

  /** An entry of `itemsToLayout`: `{node, type}`. */
  datatype Item = Item(node: Node, role: Role)

  /** A node marker as `createNodeElement` builds it: its `nodeId`, its
      text, its world position, its role class and the number in its
      `depth-N` class, and the node its click and hover handlers act on. */
  datatype Marker = Marker(key: string, text: string, at: Point, role: Role, depth: int, node: Node)

  /** A canvas element: the `index`-th marker created by the `gen`-th render.
      Elements of an earlier render are detached from the page but may
      still be referenced. */
  datatype ElementRef = ElementRef(gen: nat, index: nat)

  /** An edge drawn by `drawLine` from the centre to a marker. */
  datatype Line = Line(from: Point, to: Point)

  /** The items to lay out: the parent (top of the stack) when there is
      one, then every child of `cur` in order. */
  function LayoutItems(cur: Node, stack: seq<Node>): seq<Item>
  {
    (if |stack| > 0 then [Item(stack[|stack| - 1], PrevLevel)] else [])
      + seq(|cur.children|, j requires 0 <= j < |cur.children| => Item(cur.children[j], ChildLevel))
  }

  /** Number of parent slots: 1 below the root, 0 at the root. */
  function ParentSlots(stack: seq<Node>): nat
  {
    if |stack| > 0 then 1 else 0
  }

  /** The item list has one entry per child plus one for the parent; the
      parent comes first and the children follow in tree order. */
  lemma LayoutItemsOrder(cur: Node, stack: seq<Node>)
    ensures |LayoutItems(cur, stack)| == |cur.children| + ParentSlots(stack)
    ensures |stack| > 0 ==> LayoutItems(cur, stack)[0] == Item(stack[|stack| - 1], PrevLevel)
    ensures forall j :: 0 <= j < |cur.children| ==>
      LayoutItems(cur, stack)[ParentSlots(stack) + j] == Item(cur.children[j], ChildLevel)
  {
  }

  /** The loop that builds `itemsToLayout` with `push` and `forEach`. */
  method BuildLayoutItems(cur: Node, stack: seq<Node>) returns (items: seq<Item>)
    ensures items == LayoutItems(cur, stack)
  {
    items := [];
    if |stack| > 0 {
      var parent := stack[|stack| - 1];
      items := items + [Item(parent, PrevLevel)];
    }
    var off := |items|;
    var j := 0;
    while j < |cur.children|
      invariant 0 <= j <= |cur.children|
      invariant |items| == off + j
      invariant items[..off] == LayoutItems(cur, stack)[..off]
      invariant forall k :: 0 <= k < j ==> items[off + k] == Item(cur.children[k], ChildLevel)
    {
      items := items + [Item(cur.children[j], ChildLevel)];
      j := j + 1;
    }
    LayoutItemsOrder(cur, stack);
  }

  /** The laid-out items: item k at slot k of the circle of radius 300
      around the world centre. */
  function Arranged(cur: Node, stack: seq<Node>, ring: Ring): seq<Placed<Item>>
  {
    var items := LayoutItems(cur, stack);
    seq(|items|, k requires 0 <= k < |items| =>
      Placed(items[k], Slot(WORLD_CENTER_X, WORLD_CENTER_Y, RADIUS, k, |items|, ring)))
  }

  /** What `layoutChildren` returns for the item list is the arrangement. */
  lemma ArrangedByLayout(cur: Node, stack: seq<Node>, ring: Ring, arranged: seq<Placed<Item>>)
    requires |arranged| == |LayoutItems(cur, stack)|
    requires forall i :: 0 <= i < |arranged| ==>
      arranged[i].item == LayoutItems(cur, stack)[i]
      && arranged[i].at == Slot(WORLD_CENTER_X, WORLD_CENTER_Y, RADIUS, i, |arranged|, ring)
    ensures arranged == Arranged(cur, stack, ring)
  {
  }

  /** The centre marker: labelled with the current node, class
      `active depth-d`. */
  function CenterMarker(cur: Node, depth: int): Marker
  {
    Marker("current", cur.name, WORLD_CENTER, Active, depth, cur)
  }

  /** The marker for a laid-out entry at current depth `depth`: the parent
      gets key `prev` and class `depth-(d-1)`, a child its `id || name` key
      and class `depth-(d+1)`. */
  function EntryMarker(entry: Placed<Item>, depth: int): Marker
  {
    if entry.item.role == PrevLevel then
      Marker("prev", entry.item.node.name, entry.at, PrevLevel, depth - 1, entry.item.node)
    else
      Marker(Key(entry.item.node), entry.item.node.name, entry.at, ChildLevel, depth + 1, entry.item.node)
  }

  /** The markers for a list of laid-out entries, one each, in order. */
  function EntryMarkers(arranged: seq<Placed<Item>>, depth: int): seq<Marker>
  {
    seq(|arranged|, k requires 0 <= k < |arranged| => EntryMarker(arranged[k], depth))
  }

  /** The edges from the centre to each laid-out entry, in order. */
  function Edges(arranged: seq<Placed<Item>>): seq<Line>
  {
    seq(|arranged|, k requires 0 <= k < |arranged| => Line(WORLD_CENTER, arranged[k].at))
  }

  /** The markers `renderLevel` leaves on the canvas, in creation order. */
  function Scene(cur: Node, stack: seq<Node>, ring: Ring): seq<Marker>
  {
    [CenterMarker(cur, |stack|)] + EntryMarkers(Arranged(cur, stack, ring), |stack|)
  }

  /** The edges `renderLevel` leaves on the canvas, one per laid-out item. */
  function Lines(cur: Node, stack: seq<Node>, ring: Ring): seq<Line>
  {
    Edges(Arranged(cur, stack, ring))
  }

  /** The scene of a level at depth d = |stack|: the centre marker (depth d,
      labelled with the current node) first; then, below the root, the
      parent marker (depth d - 1, the top of the stack); then one marker per
      child in tree order (depth d + 1); and one edge per non-centre marker. */
  lemma SceneShape(cur: Node, stack: seq<Node>, ring: Ring)
    ensures |Scene(cur, stack, ring)| == 1 + ParentSlots(stack) + |cur.children|
    ensures |Lines(cur, stack, ring)| == ParentSlots(stack) + |cur.children|
    ensures Scene(cur, stack, ring)[0] == Marker("current", cur.name, WORLD_CENTER, Active, |stack|, cur)
    ensures |stack| > 0 ==>
      var m := Scene(cur, stack, ring)[1];
      m.role == PrevLevel && m.key == "prev" && m.node == stack[|stack| - 1] && m.depth == |stack| - 1 && m.text == m.node.name
    ensures forall j :: 0 <= j < |cur.children| ==>
      var m := Scene(cur, stack, ring)[1 + ParentSlots(stack) + j];
      m.role == ChildLevel && m.node == cur.children[j] && m.depth == |stack| + 1
      && m.text == cur.children[j].name && m.key == Key(cur.children[j])
    ensures forall k :: 0 < k < |Scene(cur, stack, ring)| ==>
      Lines(cur, stack, ring)[k - 1] == Line(WORLD_CENTER, Scene(cur, stack, ring)[k].at)
  {
    LayoutItemsOrder(cur, stack);
    var scene := Scene(cur, stack, ring);
    var arranged := Arranged(cur, stack, ring);
    forall j | 0 <= j < |cur.children|
      ensures scene[1 + ParentSlots(stack) + j].node == cur.children[j]
    {
      assert scene[1 + ParentSlots(stack) + j] == EntryMarker(arranged[ParentSlots(stack) + j], |stack|);
    }
  }

  /** `selectedFinalNodeData.name === node.name`: a child marker is drawn
      with the `selected-final` class when its node has the selected node's
      name. */
  predicate MarkedByName(m: Marker, selected: Option<Node>)
  {
    m.role == ChildLevel && selected.Some? && m.node.name == selected.value.name
  }

  /** The indices of the markers of `scene` drawn highlighted. */
  function Highlighted(scene: seq<Marker>, selected: Option<Node>): set<nat>
  {
    set k: nat | k < |scene| && MarkedByName(scene[k], selected)
  }

  /** Marker k of a scene is the centre for k = 0, the parent for k = 1
      below the root, and child k - 1 - ParentSlots(stack) otherwise. */
  lemma SceneMarkerAt(cur: Node, stack: seq<Node>, ring: Ring, k: nat)
    requires k < |Scene(cur, stack, ring)|
    ensures k == 0 ==> Scene(cur, stack, ring)[k].role == Active
    ensures 0 < k < 1 + ParentSlots(stack) ==>
      k == 1 && |stack| > 0
      && Scene(cur, stack, ring)[k].role == PrevLevel
      && Scene(cur, stack, ring)[k].node == stack[|stack| - 1]
    ensures 1 + ParentSlots(stack) <= k ==>
      && k - 1 - ParentSlots(stack) < |cur.children|
      && Scene(cur, stack, ring)[k].role == ChildLevel
      && Scene(cur, stack, ring)[k].node == cur.children[k - 1 - ParentSlots(stack)]
  {
    LayoutItemsOrder(cur, stack);
    if k > 0 {
      var arranged := Arranged(cur, stack, ring);
      assert Scene(cur, stack, ring)[k] == EntryMarker(arranged[k - 1], |stack|);
    }
  }

  /** The canvas elements of render `g` drawn highlighted. */
  function HighlightedElements(g: nat, scene: seq<Marker>, selected: Option<Node>): set<ElementRef>
  {
    set k | k in Highlighted(scene, selected) :: ElementRef(g, k)
  }

  /** With no selection nothing is highlighted; when the children's names
      are pairwise distinct, a selected child j is the only highlighted
      marker. With duplicate names several markers may carry the class. */
  lemma HighlightByName(cur: Node, stack: seq<Node>, ring: Ring, selected: Option<Node>, j: nat)
    requires forall a, b :: 0 <= a < b < |cur.children| ==> cur.children[a].name != cur.children[b].name
    requires j < |cur.children| && selected == Some(cur.children[j])
    ensures Highlighted(Scene(cur, stack, ring), None) == {}
    ensures Highlighted(Scene(cur, stack, ring), selected) == {1 + ParentSlots(stack) + j}
  {
    var scene := Scene(cur, stack, ring);
    var off := 1 + ParentSlots(stack);
    LayoutItemsOrder(cur, stack);
    assert |scene| == off + |cur.children|;
    forall k: nat
      ensures k in Highlighted(scene, selected) <==> k == off + j
    {
      if k < |scene| {
        SceneMarkerAt(cur, stack, ring, k);
      }
    }
  }

}
