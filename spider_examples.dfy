/**
 Small crawls over fixed sites, worked out from the contracts of `Spider`
 alone: how many URLs each level queues, and which.
 */
module SpiderExamples {
  import opened Spider

  /** The root "a" links to "b", to "c" and to "b" again; those two pages have
      no links. */
  function TwoLeaves(u: Url): Option<Response>
  {
    if u == "a" then Some(Response("a", ["b", "c", "b"]))
    else if u == "b" || u == "c" then Some(Response(u, []))
    else None
  }

  /** The root "a" and the page "b" link to each other. */
  function Cycle(u: Url): Option<Response>
  {
    if u == "a" then Some(Response("a", ["b"]))
    else if u == "b" then Some(Response("b", ["a"]))
    else None
  }

  /** Every request raises. */
  function Unreachable(u: Url): Option<Response>
  {
    None
  }

  /** The links found on the first level of TwoLeaves. */
  lemma TwoLeavesFirstLinks()
    ensures LevelLinks(TwoLeaves, {"a"}) == {"b", "c"}
  {
    LevelLinksAdd(TwoLeaves, {}, "a");
    assert Elems(["b", "c", "b"]) == {"b", "c"};
  }

  /** The pages of the second level of TwoLeaves have no links. */
  lemma TwoLeavesSecondLinks()
    ensures LevelLinks(TwoLeaves, {"b", "c"}) == {}
  {
    LevelLinksAdd(TwoLeaves, {}, "b");
    LevelLinksAdd(TwoLeaves, {"b"}, "c");
    assert {"b"} + {"c"} == {"b", "c"};
  }

  /** The links found on the first level of Cycle. */
  lemma CycleFirstLinks()
    ensures LevelLinks(Cycle, {"a"}) == {"b"}
  {
    LevelLinksAdd(Cycle, {}, "a");
    assert Elems(["b"]) == {"b"};
  }

  /** The links found on the second level of Cycle: back to the root. */
  lemma CycleSecondLinks()
    ensures LevelLinks(Cycle, {"b"}) == {"a"}
  {
    LevelLinksAdd(Cycle, {}, "b");
    assert Elems(["a"]) == {"a"};
  }

  /** The only page fetched on the first level of TwoLeaves is the root's. */
  lemma TwoLeavesFirstPages()
    ensures Pages(TwoLeaves, {"a"}) == {Response("a", ["b", "c", "b"])}
  {
    PagesAdd(TwoLeaves, {}, "a");
    assert Pages(TwoLeaves, {}) == {};
  }

  /** The first level queues the root's two distinct links, once each. */
  method CrawlTwoLeaves() returns (count: nat, queued: set<Url>)
    ensures count == 2 && queued == {"b", "c"}
  {
    TwoLeavesFirstLinks();
    var spider := new Spider("a");
    count := spider.Crawl(TwoLeaves);
    queued := spider.nextUrls.Keys;
  }

  /** After the first level, "b" is queued against the node of the root's
      page, and that node has no children yet: "b" and "c" are attached to it
      only when they are fetched, on the next level. */
  method CrawlTwoLeavesRootNode() returns (discoverer: Url, rootChildren: nat)
    ensures discoverer == "a" && rootChildren == 0
  {
    TwoLeavesFirstLinks();
    TwoLeavesFirstPages();
    var spider := new Spider("a");
    var _ := spider.Crawl(TwoLeaves);
    assert "b" in spider.nextUrls;
    var rootNode := spider.nextUrls["b"];
    discoverer := rootNode.page.url;
    rootChildren := |rootNode.children|;
  }

  /** On the next level the leaves are fetched and attached to the root's
      node, one `ProcessUrl` call each. */
  method AttachLeaves() returns (children: set<Url>)
    ensures children == {"b", "c"}
  {
    var spider := new Spider("a");
    var rootNode := new PageNode(Response("a", ["b", "c", "b"]));
    var _ := spider.ProcessUrl("b", rootNode, TwoLeaves);
    var _ := spider.ProcessUrl("c", rootNode, TwoLeaves);
    children := rootNode.children.Keys;
  }

  /** The level after that finds nothing new, and the index is unchanged. */
  method CrawlTwoLeavesAgain(spider: Spider) returns (count: nat)
    requires spider.Valid()
    requires spider.discoveredUrls.Keys == spider.nextUrls.Keys == {"b", "c"}
    modifies spider, Parents(spider.nextUrls)
    ensures count == 0 && spider.discoveredUrls.Keys == {"b", "c"}
  {
    TwoLeavesSecondLinks();
    count := spider.Crawl(TwoLeaves);
  }

  /** The first level of Cycle queues "b". */
  method CrawlCycle() returns (count: nat, queued: set<Url>)
    ensures count == 1 && queued == {"b"}
  {
    CycleFirstLinks();
    var spider := new Spider("a");
    count := spider.Crawl(Cycle);
    queued := spider.nextUrls.Keys;
  }

  /** The root is not in the index at the start, so "b", linking back to it,
      indexes it and queues it a second time: the root is the one URL two
      levels share. */
  method CrawlCycleAgain(spider: Spider) returns (count: nat)
    requires spider.Valid() && spider.root == "a" && spider.history == [{"a"}]
    requires spider.discoveredUrls.Keys == spider.nextUrls.Keys == {"b"}
    modifies spider, Parents(spider.nextUrls)
    ensures count == 1 && spider.nextUrls.Keys == {"a"}
    ensures spider.discoveredUrls.Keys == {"a", "b"}
    ensures spider.history + [spider.nextUrls.Keys] == [{"a"}, {"b"}, {"a"}]
  {
    CycleSecondLinks();
    count := spider.Crawl(Cycle);
  }

  /** Once indexed, the root is not queued again: the third level of Cycle
      fetches "a" once more, finds "b" already indexed and queues nothing. */
  method CrawlCycleThird(spider: Spider) returns (count: nat)
    requires spider.Valid()
    requires spider.discoveredUrls.Keys == {"a", "b"} && spider.nextUrls.Keys == {"a"}
    modifies spider, Parents(spider.nextUrls)
    ensures count == 0 && spider.nextUrls == map[]
    ensures spider.discoveredUrls.Keys == {"a", "b"}
  {
    CycleFirstLinks();
    count := spider.Crawl(Cycle);
  }

  /** When the root cannot be fetched the crawl ends at once with nothing
      discovered. */
  method CrawlUnreachable() returns (count: nat, discovered: set<Url>)
    ensures count == 0 && discovered == {}
  {
    var spider := new Spider("a");
    count := spider.Crawl(Unreachable);
    LevelLinksAdd(Unreachable, {}, "a");
    assert LevelLinks(Unreachable, {}) == {};
    discovered := spider.discoveredUrls.Keys;
  }

  /** Two pages with the same effective URL, attached one after the other:
      the parent keeps one child for that URL, the later one. */
  method AddChildTwice() returns (children: nat, laterKept: bool)
    ensures children == 1 && laterKept
  {
    var parent := new PageNode(Response("a", ["b"]));
    var first := new PageNode(Response("b", []));
    var second := new PageNode(Response("b", ["a"]));
    parent.AddChild(first);
    parent.AddChild(second);
    assert parent.children.Keys == {"b"};
    children := |parent.children|;
    laterKept := parent.children["b"] == second;
  }
}
