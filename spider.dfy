/**
 The crawl bookkeeping of a breadth-first web crawler: page nodes that collect
 their children, a discovered-URL index that remembers which page first linked
 to each URL, and a frontier of URLs to fetch at the next level.

 The network and the HTML parser are a `Fetcher`: a function from a URL to the
 effective (post-redirect) URL of the page and the links it contains, or None
 when the request raises. One level is processed sequentially, one frontier
 entry at a time, in an order the model leaves open.
 */
module Spider {

  /** An absolute URL, as the crawler compares it: a plain string. */
  type Url = string

  datatype Option<T> = None | Some(value: T)

  /** What the crawler keeps of a successful GET: the effective URL of the page
      and the anchors' targets resolved against it, in document order,
      duplicates included. */
  datatype Response = Response(url: Url, links: seq<Url>)

  /** The HTTP client followed by link extraction; None means the request raised. */
  type Fetcher = Url -> Option<Response>

  /** The URLs occurring in a link sequence. */
  function Elems(links: seq<Url>): (r: set<Url>)
  {
    set u | u in links
  }

  /** A node of the crawl graph: a fetched page and the nodes of the pages
      fetched from it, keyed by their effective URL. */
  class PageNode {
    const page: Response
    var children: map<Url, PageNode>

    constructor (response: Response)
      ensures page == response
      ensures children == map[]
    {
      page := response;
      children := map[];
    }

    /** Records `child` under its effective URL; a child already recorded under
        that URL is replaced (the last writer wins). */
    method AddChild(child: PageNode)
      modifies this
      ensures children.Keys == old(children).Keys + {child.page.url}
      ensures children[child.page.url] == child
      ensures forall u :: u in old(children) && u != child.page.url ==> children[u] == old(children)[u]
    {
      children := children[child.page.url := child];
    }
  }

  /** The non-null nodes a frontier names as parents. */
  function Parents(frontier: map<Url, PageNode?>): (r: set<PageNode>)
  {
    set p: PageNode | p in frontier.Values
  }

  /** The two tables a page's links are recorded in: the discovered index and
      the frontier under construction. */
  datatype Tables = Tables(discovered: map<Url, PageNode>, next: map<Url, PageNode?>)

  /** One turn of the link loop: an undiscovered link is recorded in both
      tables against `node`; a discovered one changes nothing. */
  function RecordLink(t: Tables, u: Url, node: PageNode): (r: Tables)
  {
    if u in t.discovered then t
    else Tables(t.discovered[u := node], t.next[u := node])
  }

  /** The whole link loop, the links taken in order. */
  function RecordLinks(t: Tables, links: seq<Url>, node: PageNode): (r: Tables)
    decreases |links|
  {
    if links == [] then t
    else RecordLink(RecordLinks(t, links[..|links| - 1], node), links[|links| - 1], node)
  }

  /** What the link loop means: every link ends up discovered, entries
      already in the index are kept (the first discoverer wins), and exactly
      the links that were undiscovered are added, to both tables, against
      `node`; the frontier's other entries are kept. */
  lemma {:induction false} RecordLinksMeaning(t: Tables, links: seq<Url>, node: PageNode)
    ensures var r := RecordLinks(t, links, node);
      && r.discovered.Keys == t.discovered.Keys + Elems(links)
      && (forall u :: u in t.discovered ==> r.discovered[u] == t.discovered[u])
      && (forall u :: u in r.discovered && u !in t.discovered ==> r.discovered[u] == node)
      && r.next.Keys == t.next.Keys + (Elems(links) - t.discovered.Keys)
      && (forall u :: u in r.next && u !in t.discovered && u in links ==> r.next[u] == node)
      && (forall u :: u in t.next && (u in t.discovered || u !in links) ==> r.next[u] == t.next[u])
    decreases |links|
  {
    if links != [] {
      var init, last := links[..|links| - 1], links[|links| - 1];
      assert links == init + [last];
      assert Elems(links) == Elems(init) + {last};
      RecordLinksMeaning(t, init, node);
    }
  }

  /** Every entry of the frontier is also in the discovered index, against the
      same node. */
  ghost predicate Coherent(discovered: map<Url, PageNode>, next: map<Url, PageNode?>)
  {
    forall u :: u in next ==> u in discovered && discovered[u] == next[u]
  }

  /** Recording links keeps the frontier coherent with the index. */
  lemma RecordLinksKeepsCoherent(t: Tables, links: seq<Url>, node: PageNode)
    requires Coherent(t.discovered, t.next)
    ensures var r := RecordLinks(t, links, node); Coherent(r.discovered, r.next)
  {
    var r := RecordLinks(t, links, node);
    RecordLinksMeaning(t, links, node);
    forall u | u in r.next
      ensures u in r.discovered && r.discovered[u] == r.next[u]
    {
      if u !in t.next {
        assert u in links;
      }
    }
  }

  /** Recording the same links a second time, against any node, changes
      nothing: they are all discovered by then. */
  lemma RecordLinksAgain(t: Tables, links: seq<Url>, node: PageNode, other: PageNode)
    ensures var r := RecordLinks(t, links, node); RecordLinks(r, links, other) == r
  {
    var r := RecordLinks(t, links, node);
    var r' := RecordLinks(r, links, other);
    RecordLinksMeaning(t, links, node);
    RecordLinksMeaning(r, links, other);
    assert r'.discovered == r.discovered;
    assert r'.next == r.next;
  }

  /** The links found on the pages of `keys` that fetch successfully. */
  ghost function LevelLinks(fetch: Fetcher, keys: set<Url>): (r: set<Url>)
  {
    set k, u | k in keys && fetch(k).Some? && u in fetch(k).value.links :: u
  }

  lemma LevelLinksAdd(fetch: Fetcher, keys: set<Url>, k: Url)
    ensures LevelLinks(fetch, keys + {k})
         == LevelLinks(fetch, keys) + (if fetch(k).Some? then Elems(fetch(k).value.links) else {})
  {
  }

  /** The pages of `keys` that fetch successfully. */
  ghost function Pages(fetch: Fetcher, keys: set<Url>): (r: set<Response>)
  {
    set k | k in keys && fetch(k).Some? :: fetch(k).value
  }

  lemma PagesAdd(fetch: Fetcher, keys: set<Url>, k: Url)
    ensures Pages(fetch, keys + {k})
         == Pages(fetch, keys) + (if fetch(k).Some? then {fetch(k).value} else {})
  {
  }

  /** What a level has built once the frontier entries `done` are processed,
      starting from the index `d0` and an empty frontier: the links of those
      pages are all discovered, old index entries are kept, the frontier holds
      exactly the links that were new, and agrees with the index. */
  ghost predicate LevelSoFar(fetch: Fetcher, d0: map<Url, PageNode>, done: set<Url>, t: Tables)
  {
    && t.discovered.Keys == d0.Keys + LevelLinks(fetch, done)
    && (forall u :: u in d0 ==> t.discovered[u] == d0[u])
    && t.next.Keys == LevelLinks(fetch, done) - d0.Keys
    && Coherent(t.discovered, t.next)
  }

  /** A level over an empty frontier finds nothing: the index is unchanged and
      the new frontier is empty. */
  lemma EmptyLevel(fetch: Fetcher, d0: map<Url, PageNode>, t: Tables)
    requires LevelSoFar(fetch, d0, {}, t)
    ensures t.discovered == d0 && t.next == map[]
  {
    assert LevelLinks(fetch, {}) == {};
    assert t.discovered.Keys == d0.Keys;
  }

  /** Every frontier entry after recording links was there before, or is a
      recorded link against `node`. */
  lemma RecordLinksOrigin(t: Tables, links: seq<Url>, node: PageNode)
    ensures var r := RecordLinks(t, links, node);
      forall u :: u in r.next ==>
        || (u in t.next && r.next[u] == t.next[u])
        || (r.next[u] == node && u in links)
  {
    RecordLinksMeaning(t, links, node);
  }

  /** Recording the links of one more successfully fetched frontier page
      keeps LevelSoFar. */
  lemma RecordLinksLevel(fetch: Fetcher, d0: map<Url, PageNode>, done: set<Url>, url: Url,
                         t: Tables, node: PageNode)
    requires LevelSoFar(fetch, d0, done, t)
    requires fetch(url).Some?
    ensures LevelSoFar(fetch, d0, done + {url}, RecordLinks(t, fetch(url).value.links, node))
  {
    var links := fetch(url).value.links;
    LevelLinksAdd(fetch, done, url);
    RecordLinksMeaning(t, links, node);
    RecordLinksKeepsCoherent(t, links, node);
  }

  /** Processing one more frontier entry keeps LevelSoFar: a failed fetch
      leaves the tables alone, a successful one records the page's links. */
  lemma LevelStep(fetch: Fetcher, d0: map<Url, PageNode>, done: set<Url>, url: Url,
                  t: Tables, t': Tables, node: PageNode?)
    requires LevelSoFar(fetch, d0, done, t)
    requires fetch(url).None? ==> t' == t
    requires fetch(url).Some? ==> node != null && t' == RecordLinks(t, fetch(url).value.links, node)
    ensures LevelSoFar(fetch, d0, done + {url}, t')
    ensures forall u :: u in t'.next ==>
      || (u in t.next && t'.next[u] == t.next[u])
      || (fetch(url).Some? && t'.next[u] == node && u in fetch(url).value.links)
  {
    if fetch(url).Some? {
      RecordLinksLevel(fetch, d0, done, url, t, node);
      RecordLinksOrigin(t, fetch(url).value.links, node);
    } else {
      LevelLinksAdd(fetch, done, url);
    }
  }

  /** The union of a sequence of sets. */
  function Union(levels: seq<set<Url>>): (r: set<Url>)
  {
    if levels == [] then {} else Union(levels[..|levels| - 1]) + levels[|levels| - 1]
  }

  /** No URL belongs to two of `levels`: each level is disjoint from the
      union of the levels before it. */
  ghost predicate Disjoint(levels: seq<set<Url>>)
  {
    levels != [] ==>
      Disjoint(levels[..|levels| - 1]) && levels[|levels| - 1] !! Union(levels[..|levels| - 1])
  }

  /** Every level is part of the union. */
  lemma {:induction false} LevelsInUnion(levels: seq<set<Url>>)
    ensures forall i :: 0 <= i < |levels| ==> levels[i] <= Union(levels)
  {
    if levels != [] {
      var init := levels[..|levels| - 1];
      LevelsInUnion(init);
      forall i | 0 <= i < |levels| - 1
        ensures levels[i] <= Union(levels)
      {
        assert levels[i] == init[i];
      }
    }
  }

  /** `Disjoint` means the levels are pairwise disjoint. */
  lemma {:induction false} DisjointPairwise(levels: seq<set<Url>>)
    requires Disjoint(levels)
    ensures forall i, j :: 0 <= i < j < |levels| ==> levels[i] !! levels[j]
  {
    if levels != [] {
      var init := levels[..|levels| - 1];
      DisjointPairwise(init);
      LevelsInUnion(init);
      forall i, j | 0 <= i < j < |levels|
        ensures levels[i] !! levels[j]
      {
        assert levels[i] == init[i];
        if j < |levels| - 1 {
          assert levels[j] == init[j];
        }
      }
    }
  }

  /** The crawl's invariant, on the values of the crawler's state. `history`
      holds the key set of every frontier, the current one last. Level 0 is
      the root alone; the later levels are disjoint and together they are
      exactly the discovered URLs. After the first level the frontier agrees
      with the index. */
  ghost predicate CrawlInvariant(root: Url, history: seq<set<Url>>,
                                 discovered: map<Url, PageNode>, next: map<Url, PageNode?>)
  {
    && |history| >= 1
    && history[0] == {root}
    && history[|history| - 1] == next.Keys
    && Disjoint(history[1..])
    && discovered.Keys == Union(history[1..])
    && (|history| > 1 ==> Coherent(discovered, next))
  }

  /** Under the invariant a URL is queued in at most one level after the
      first, and every such level was discovered. The root is not in the index
      at the start, so the first page that links to it indexes it and queues
      it once more; after that it is never queued again. */
  lemma QueuedAtMostOnce(root: Url, history: seq<set<Url>>,
                         discovered: map<Url, PageNode>, next: map<Url, PageNode?>)
    requires CrawlInvariant(root, history, discovered, next)
    ensures forall i, j :: 1 <= i < j < |history| ==> history[i] !! history[j]
    ensures forall i :: 1 <= i < |history| ==> history[i] <= discovered.Keys
  {
    var later := history[1..];
    DisjointPairwise(later);
    LevelsInUnion(later);
    forall i, j | 1 <= i < j < |history|
      ensures history[i] !! history[j]
    {
      assert history[i] == later[i - 1] && history[j] == later[j - 1];
    }
    forall i | 1 <= i < |history|
      ensures history[i] <= discovered.Keys
    {
      assert history[i] == later[i - 1];
    }
  }

  /** A completed level keeps the crawl's invariant, the new frontier's keys
      becoming the latest level. */
  lemma LevelKeepsInvariant(root: Url, history: seq<set<Url>>, fetch: Fetcher,
                            d0: map<Url, PageNode>, n0: map<Url, PageNode?>, t: Tables)
    requires CrawlInvariant(root, history, d0, n0)
    requires LevelSoFar(fetch, d0, n0.Keys, t)
    ensures CrawlInvariant(root, history + [t.next.Keys], t.discovered, t.next)
  {
    var h := history + [t.next.Keys];
    assert h[1..] == history[1..] + [t.next.Keys];
    assert h[1..][..|h[1..]| - 1] == history[1..];
  }

  class Spider {
    var discoveredUrls: map<Url, PageNode>
    var nextUrls: map<Url, PageNode?>
    /** The URL the crawl started from. */
    ghost const root: Url
    /** The key sets of the frontiers already crawled, oldest first. */
    ghost var history: seq<set<Url>>

    ghost predicate Valid()
      reads this
    {
      CrawlInvariant(root, history + [nextUrls.Keys], discoveredUrls, nextUrls)
    }

    constructor (root: Url)
      ensures Valid()
      ensures this.root == root
      ensures discoveredUrls == map[]
      ensures nextUrls == map[root := null]
      ensures history == []
    {
      this.root := root;
      discoveredUrls := map[];
      nextUrls := map[root := null];
      history := [];
      new;
      assert (history + [nextUrls.Keys])[1..] == [];
    }
    /** Fetches `url`; on success builds its node, attaches it to `parent` if
        there is one, and records the page's undiscovered links in both
        tables. A failed fetch changes nothing. The node built is returned for
        the specification only. */
    method ProcessUrl(url: Url, parent: PageNode?, fetch: Fetcher) returns (ghost node: PageNode?)
      modifies this`discoveredUrls, this`nextUrls, parent
      ensures fetch(url).None? ==> node == null
      ensures fetch(url).None? ==> discoveredUrls == old(discoveredUrls) && nextUrls == old(nextUrls)
      ensures fetch(url).None? && parent != null ==> parent.children == old(parent.children)
      ensures fetch(url).Some? ==> node != null && fresh(node) && node.page == fetch(url).value && node.children == map[]
      ensures fetch(url).Some? && parent != null ==> parent.children == old(parent.children)[fetch(url).value.url := node]
      ensures fetch(url).Some? ==>
                node != null &&
                Tables(discoveredUrls, nextUrls)
                == RecordLinks(Tables(old(discoveredUrls), old(nextUrls)), fetch(url).value.links, node)
    {
      var response := fetch(url);
      if response.None? {
        return null;
      }
      var pageNode := new PageNode(response.value);
      node := pageNode;
      if parent != null {
        parent.AddChild(pageNode);
      }
      var embedded := pageNode.page.links;
      ghost var t0 := Tables(discoveredUrls, nextUrls);
      ghost var parentChildren := if parent != null then parent.children else map[];
      var i := 0;
      while i < |embedded|
        invariant 0 <= i <= |embedded|
        invariant Tables(discoveredUrls, nextUrls) == RecordLinks(t0, embedded[..i], pageNode)
        invariant pageNode.children == map[]
        invariant parent != null ==> parent.children == parentChildren
      {
        var link := embedded[i];
        assert embedded[..i + 1][..i] == embedded[..i];
        assert RecordLinks(t0, embedded[..i + 1], pageNode)
            == RecordLink(RecordLinks(t0, embedded[..i], pageNode), link, pageNode);
        if link !in discoveredUrls {
          discoveredUrls := discoveredUrls[link := pageNode];
          nextUrls := nextUrls[link := pageNode];
        }
        i := i + 1;
      }
      assert embedded[..i] == embedded;
    }

    /** The loop of `crawl`: processes every entry of `frontier`, one at a
        time, in an order left open. Every node the level queues is a fresh,
        childless node of a page fetched from the frontier. Only the
        frontier's parents gain children. */
    method ProcessFrontier(frontier: map<Url, PageNode?>, fetch: Fetcher)
      requires nextUrls == map[]
      modifies this`discoveredUrls, this`nextUrls, Parents(frontier)
      ensures LevelSoFar(fetch, old(discoveredUrls), frontier.Keys, Tables(discoveredUrls, nextUrls))
      ensures forall u :: u in nextUrls ==> nextUrls[u] != null && fresh(nextUrls[u]) && u in nextUrls[u].page.links
      ensures forall u :: u in nextUrls ==> nextUrls[u] != null && nextUrls[u].children == map[]
      ensures forall u :: u in nextUrls ==> nextUrls[u] != null && nextUrls[u].page in Pages(fetch, frontier.Keys)
    {
      ghost var d0 := discoveredUrls;
      var todo := frontier.Keys;
      ghost var done: set<Url> := {};
      assert LevelLinks(fetch, done) == {};
      while todo != {}
        invariant todo + done == frontier.Keys && todo !! done
        invariant LevelSoFar(fetch, d0, done, Tables(discoveredUrls, nextUrls))
        invariant forall u :: u in nextUrls ==> nextUrls[u] != null && fresh(nextUrls[u]) && u in nextUrls[u].page.links
        invariant forall u :: u in nextUrls ==> nextUrls[u] != null && nextUrls[u].children == map[]
        invariant forall u :: u in nextUrls ==> nextUrls[u] != null && nextUrls[u].page in Pages(fetch, done)
        decreases todo
      {
        var url :| url in todo;
        var parent := frontier[url];
        assert parent != null ==> parent in Parents(frontier);
        ghost var before := Tables(discoveredUrls, nextUrls);
        ghost var node := ProcessUrl(url, parent, fetch);
        LevelStep(fetch, d0, done, url, before, Tables(discoveredUrls, nextUrls), node);
        PagesAdd(fetch, done, url);
        forall u | u in nextUrls
          ensures nextUrls[u] != null && fresh(nextUrls[u]) && u in nextUrls[u].page.links
          ensures nextUrls[u] != null && nextUrls[u].children == map[]
          ensures nextUrls[u] != null && nextUrls[u].page in Pages(fetch, done + {url})
        {
          if u !in before.next || nextUrls[u] != before.next[u] {
            assert nextUrls[u] == node;
          }
        }
        todo := todo - {url};
        done := done + {url};
      }
    }

    /** Crawls one level: takes the frontier, installs an empty one, processes
        every old frontier entry and returns the size of the new frontier. */
    method Crawl(fetch: Fetcher) returns (count: nat)
      requires Valid()
      modifies this, Parents(nextUrls)
      ensures Valid()
      ensures history == old(history) + [old(nextUrls).Keys]
      ensures count == |nextUrls| == |LevelLinks(fetch, old(nextUrls).Keys) - old(discoveredUrls).Keys|
      ensures LevelSoFar(fetch, old(discoveredUrls), old(nextUrls).Keys, Tables(discoveredUrls, nextUrls))
      ensures forall u :: u in nextUrls ==> nextUrls[u] != null && fresh(nextUrls[u]) && u in nextUrls[u].page.links
      ensures forall u :: u in nextUrls ==> nextUrls[u] != null && nextUrls[u].children == map[]
      ensures forall u :: u in nextUrls ==> nextUrls[u] != null && nextUrls[u].page in Pages(fetch, old(nextUrls).Keys)
    {
      ghost var h0, d0 := history + [nextUrls.Keys], discoveredUrls;
      assert CrawlInvariant(root, h0, d0, nextUrls);
      var frontier := nextUrls;
      history := h0;
      nextUrls := map[];
      ProcessFrontier(frontier, fetch);
      count := |nextUrls|;
      ghost var t := Tables(discoveredUrls, nextUrls);
      LevelKeepsInvariant(root, h0, fetch, d0, frontier, t);
    }
  }
}
