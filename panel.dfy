/** The info panel of AI-Safety/mindmap.js (`updateInfoPanel`) and its
    breadcrumb trail (`renderBreadcrumbs`), as the values they display. */
module Panel {
  import opened Tree

  /** One entry of the sites list: link target, link text, summary line. */
  datatype SiteEntry = SiteEntry(href: string, title: string, summary: string)

  /** One entry of the papers list: heading, author/year line, summary,
      link target and link text ("" when the paper has no URL). */
  datatype PaperEntry = PaperEntry(title: string, byline: string, summary: string, href: string, linkText: string)

  /** A record-list section: hidden (`display: none`) or shown with its entries. */
  datatype Section<E> = Hidden | Shown(entries: seq<E>)

  /** One breadcrumb part: a link that calls `goToNodeFromBreadcrumb(target)`,
      or the current node's name in bold. */
  datatype Crumb = Link(target: nat, text: string) | Here(text: string)

  /** Everything `updateInfoPanel(node)` writes. */
  datatype Panel = Panel(
    title: string,
    description: string,
    crumbs: seq<Crumb>,
    sites: Section<SiteEntry>,
    papers: Section<PaperEntry>)

  /** JavaScript's `s || fallback` on a string. */
  function Or(s: string, fallback: string): (r: string)
    ensures r == s || r == fallback
    ensures r == "" <==> s == "" && fallback == ""
    ensures s != "" ==> r == s
  {
    if s != "" then s else fallback
  }

  const UNTITLED: string := "Untitled"
  const NO_DESCRIPTION: string := "No description provided."

  /** A site entry links to the URL (or "#") under the title (or
      "Untitled") and shows the summary. */
  function SiteItem(s: Site): (e: SiteEntry)
    ensures e.href == (if s.url != "" then s.url else "#")
    ensures e.title == (if s.title != "" then s.title else UNTITLED)
    ensures e.summary == s.summary
  {
    SiteEntry(Or(s.url, "#"), Or(s.title, UNTITLED), s.summary)
  }

  /** A paper entry: the title (or "Untitled"), the authors followed by
      " (year)" when there is a year, the summary, and a link to the URL
      (or "#") whose text is "Open paper" exactly when there is a URL. */
  function PaperItem(p: Paper): (e: PaperEntry)
    ensures e.title == (if p.title != "" then p.title else UNTITLED)
    ensures p.authors <= e.byline
    ensures p.year == "" ==> e.byline == p.authors
    ensures p.year != "" ==> e.byline[|p.authors|..] == " (" + p.year + ")"
    ensures e.summary == p.summary
    ensures e.href == (if p.url != "" then p.url else "#")
    ensures e.linkText != "" <==> p.url != ""
  {
    PaperEntry(
      Or(p.title, UNTITLED),
      p.authors + (if p.year != "" then " (" + p.year + ")" else ""),
      p.summary,
      Or(p.url, "#"),
      if p.url != "" then "Open paper" else "")
  }

  /** The sites section: hidden exactly when there are no sites,
      otherwise one entry per site, in order. */
  function SitesSection(sites: seq<Site>): (sec: Section<SiteEntry>)
    ensures sec.Hidden? <==> |sites| == 0
    ensures sec.Shown? ==> |sec.entries| == |sites|
    ensures sec.Shown? ==> forall i :: 0 <= i < |sites| ==> sec.entries[i] == SiteItem(sites[i])
  {
    if |sites| > 0 then Shown(seq(|sites|, i requires 0 <= i < |sites| => SiteItem(sites[i])))
    else Hidden
  }

  /** The papers section: hidden exactly when there are no papers,
      otherwise one entry per paper, in order. */
  function PapersSection(papers: seq<Paper>): (sec: Section<PaperEntry>)
    ensures sec.Hidden? <==> |papers| == 0
    ensures sec.Shown? ==> |sec.entries| == |papers|
    ensures sec.Shown? ==> forall i :: 0 <= i < |papers| ==> sec.entries[i] == PaperItem(papers[i])
  {
    if |papers| > 0 then Shown(seq(|papers|, i requires 0 <= i < |papers| => PaperItem(papers[i])))
    else Hidden
  }

  /** `renderBreadcrumbs()`: one link per ancestor, labelled with its name
      and jumping to its stack index, then the current node's name. */
  function Breadcrumbs(stack: seq<Node>, cur: Node): (parts: seq<Crumb>)
    ensures |parts| == |stack| + 1
    ensures forall i :: 0 <= i < |stack| ==> parts[i] == Link(i, stack[i].name)
    ensures parts[|stack|] == Here(cur.name)
  {
    seq(|stack|, i requires 0 <= i < |stack| => Link(i, stack[i].name)) + [Here(cur.name)]
  }

  /** The trail reads the names along the path root .. current, and every
      link targets a valid index of the stack. */
  lemma BreadcrumbsFollowPath(stack: seq<Node>, cur: Node)
    ensures forall i :: 0 <= i < |stack| + 1 ==> Breadcrumbs(stack, cur)[i].text == (stack + [cur])[i].name
    ensures forall c :: c in Breadcrumbs(stack, cur) && c.Link? ==> c.target < |stack| && c.text == stack[c.target].name
    ensures forall c :: c in Breadcrumbs(stack, cur) && c.Here? ==> c == Breadcrumbs(stack, cur)[|stack|]
  {
    var parts := Breadcrumbs(stack, cur);
    forall c | c in parts
      ensures c.Link? ==> c.target < |stack| && c.text == stack[c.target].name
      ensures c.Here? ==> c == parts[|stack|]
    {
      var k :| 0 <= k < |parts| && parts[k] == c;
    }
  }

  /** `updateInfoPanel(node)`: the title is the name or "Untitled", the
      description the description or the placeholder, the breadcrumb is
      rebuilt from the navigation state, and each record list gets a section
      that is hidden exactly when the list is empty. */
  function Present(node: Node, stack: seq<Node>, cur: Node): (p: Panel)
    ensures p.title != "" && p.description != ""
    ensures p.title == (if node.name != "" then node.name else UNTITLED)
    ensures p.description == (if node.description != "" then node.description else NO_DESCRIPTION)
    ensures p.crumbs == Breadcrumbs(stack, cur)
    ensures p.sites == SitesSection(node.sites) && p.papers == PapersSection(node.papers)
    ensures p.sites.Hidden? <==> |node.sites| == 0
    ensures p.papers.Hidden? <==> |node.papers| == 0
    ensures p.sites.Shown? ==> |p.sites.entries| == |node.sites|
    ensures p.papers.Shown? ==> |p.papers.entries| == |node.papers|
  {
    Panel(
      Or(node.name, UNTITLED),
      Or(node.description, NO_DESCRIPTION),
      Breadcrumbs(stack, cur),
      SitesSection(node.sites),
      PapersSection(node.papers))
  }
}
