/** The content tree the mind map navigates: a strict tree of topic nodes,
    loaded once and never changed afterwards (AI-Safety/mindmap.js, the
    objects `loadContent` returns). */
module Tree {

  /** A link record shown in the "sites" section of the info panel.
      A field the content leaves out is the empty string: every text field
      is read with a JavaScript `||` fallback, so absent and "" behave alike. */
  datatype Site = Site(title: string, url: string, summary: string)

  /** A bibliographic record shown in the "papers" section. `year` is the
      year's text; a missing year (or the number 0, which JavaScript treats
      as false) is "". */
  datatype Paper = Paper(title: string, authors: string, year: string, summary: string, url: string)

  /** One topic. `children` in display order; an absent list is []. `id` is
      the optional explicit identifier ("" when absent). */
  datatype Node = Node(
    name: string,
    id: string,
    description: string,
    children: seq<Node>,
    sites: seq<Site>,
    papers: seq<Paper>)

  /** A terminal node: `!node.children || node.children.length === 0`. */
  predicate IsLeaf(n: Node)
  {
    |n.children| == 0
  }

  /** The key a child marker is tagged with: `node.id || node.name`. */
  function Key(n: Node): string
  {
    if n.id != "" then n.id else n.name
  }

  /** The largest element of a sequence of naturals (0 for the empty one). */
  function MaxOf(s: seq<nat>): (m: nat)
    ensures forall i :: 0 <= i < |s| ==> s[i] <= m
  {
    if |s| == 0 then 0
    else
      var rest := MaxOf(s[1..]);
      assert forall i :: 1 <= i < |s| ==> s[i] == s[1..][i - 1];
      if s[0] < rest then rest else s[0]
  }

  /** Height of a node: 1 for a leaf, one more than its tallest child otherwise.
      Used only to show that a node is never its own ancestor. */
  function Height(n: Node): nat
    decreases n
  {
    1 + MaxOf(seq(|n.children|, i requires 0 <= i < |n.children| => Height(n.children[i])))
  }

  /** A child sits strictly lower than its parent. */
  lemma ChildIsLower(n: Node, c: Node)
    requires c in n.children
    ensures Height(c) < Height(n)
  {
    var hs := seq(|n.children|, i requires 0 <= i < |n.children| => Height(n.children[i]));
    var k :| 0 <= k < |n.children| && n.children[k] == c;
    assert hs[k] == Height(c);
  }

  /** `stack` followed by `cur` is a real root-to-`cur` path in the tree:
      the stack starts at the root, each entry is a child of the one before,
      and `cur` is a child of the last entry; an empty stack means `cur` is
      the root. */
  predicate IsPath(root: Node, stack: seq<Node>, cur: Node)
  {
    if |stack| == 0 then cur == root
    else
      && stack[0] == root
      && (forall i :: 0 < i < |stack| ==> stack[i] in stack[i - 1].children)
      && cur in stack[|stack| - 1].children
  }

  /** Descending: pushing `cur` and moving to one of its children keeps a path. */
  lemma PathDescend(root: Node, stack: seq<Node>, cur: Node, child: Node)
    requires IsPath(root, stack, cur)
    requires child in cur.children
    ensures IsPath(root, stack + [cur], child)
  {
    var s := stack + [cur];
    forall i | 0 < i < |s|
      ensures s[i] in s[i - 1].children
    {
      if i == |stack| {
        if |stack| > 0 {
          assert s[i - 1] == stack[|stack| - 1];
        }
      } else {
        assert s[i] == stack[i] && s[i - 1] == stack[i - 1];
      }
    }
  }

  /** Ascending to ancestor `i`: entry `i` becomes the current node and the
      stack keeps only the entries above it; the result is still a path. */
  lemma PathAscend(root: Node, stack: seq<Node>, cur: Node, i: nat)
    requires IsPath(root, stack, cur)
    requires i < |stack|
    ensures IsPath(root, stack[..i], stack[i])
  {
    if i > 0 {
      assert stack[..i][i - 1] == stack[i - 1];
    }
  }

  /** Every ancestor on a path stands strictly higher than the current node,
      so no ancestor is the current node itself. */
  lemma {:induction false} AncestorsAreHigher(root: Node, stack: seq<Node>, cur: Node)
    requires IsPath(root, stack, cur)
    ensures forall i :: 0 <= i < |stack| ==> Height(cur) < Height(stack[i])
    ensures forall i :: 0 <= i < |stack| ==> stack[i] != cur
    decreases |stack|
  {
    if |stack| > 0 {
      var n := |stack| - 1;
      var parent := stack[n];
      ChildIsLower(parent, cur);
      PathAscend(root, stack, cur, n);
      AncestorsAreHigher(root, stack[..n], parent);
      forall i | 0 <= i < |stack|
        ensures Height(cur) < Height(stack[i])
      {
        if i < n {
          assert stack[..n][i] == stack[i];
        }
      }
    }
  }

  /** Entry `i` of the stack is an ancestor, so it is never the current node. */
  lemma AncestorIsNotCurrent(root: Node, stack: seq<Node>, cur: Node, i: nat)
    requires IsPath(root, stack, cur) && i < |stack|
    ensures stack[i] != cur
  {
    AncestorsAreHigher(root, stack, cur);
  }
}
