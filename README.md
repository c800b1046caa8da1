# Spider: crawl bookkeeping of a breadth-first web crawler

`spider.py` crawls the web breadth first, one level per call of
`Spider.crawl`. A `PageNode` wraps a fetched page and maps the effective URL
of each page fetched from it to that page's node. A `Spider` keeps two maps:

- `discovered_urls`, from every URL seen so far to the node whose page first
  linked to it;
- `next_urls`, the frontier: the URLs to fetch at the next level, each with
  the node that discovered it. The root's entry has no node.

`_process_url` fetches one URL and builds its node. It attaches the node to
the parent, if there is one. It records every link of the page that is not
yet discovered, in both maps, against the new node. `crawl` swaps the
frontier for an empty one, processes every entry of the old one and returns
the size of the new one.

The model, in `spider.dfy` (module `Spider`):

- `PageNode` and `Spider` are classes with map fields, and their methods carry
  `modifies` clauses.
- The network and the HTML parser are a `Fetcher`. It maps a URL to the
  page's effective URL and its links in document order, duplicates included.
  `None` means the request raised.
- The link loop of `_process_url` is specified by the function
  `RecordLinks`, and the method's loop is proved against it.
- One level of `crawl` is a loop that takes the frontier entries one at a
  time, in an order left open. It is specified by the predicate
  `LevelSoFar`, which does not depend on the order.
- A ghost `history` of the frontiers' key sets and the invariant
  `CrawlInvariant` give the crawl-wide facts:
  - every later level lies within the discovered URLs;
  - no two later levels share a URL.

`spider_examples.dfy` (module `SpiderExamples`) works out small crawls from
the contracts alone.

The code is modelled as written, including two behaviours a reader might not
expect:

- The root is put in the frontier (spider.py:45-46) but not in
  `discovered_urls`. So the first page that links to the root indexes it
  (spider.py:65-67) and queues it once more, and it is fetched a second time.
  After that it is never queued again. A crawl of a two-page cycle A ↔ B
  therefore fetches A again at the third level and queues nothing at that
  level. The model proves at-most-once queueing for the levels after the
  first. `CrawlCycleAgain` shows the root queued a second time, and
  `CrawlCycleThird` shows it is not queued a third time.
- A page's node is attached to its parent when the page itself is fetched,
  which is one level after the parent's page was fetched. After one level
  from a root linking to two pages, the root's node still has no children.
  The two pages become its children during the next level.
  `CrawlTwoLeavesRootNode` proves the first half. `AttachLeaves` proves the
  second half from `ProcessUrl`'s contract, one call per leaf.

## Model

| member | source | states |
|---|---|---|
| Spider.PageNode.constructor | spider.py:11-18 | The node holds the given response and has no children. |
| Spider.PageNode.AddChild | spider.py:28-36 | The child is stored under its effective URL, replacing any child stored there before (last writer wins). No other entry changes, and the key set grows by exactly that URL. |
| Spider.Spider.constructor | spider.py:44-47 | The index is empty, the frontier is exactly the root with no parent, and the invariant holds with an empty history. |
| Spider.Spider.ProcessUrl | spider.py:49-67 | A failed fetch changes neither map nor the parent. A successful one creates a fresh childless node for the page. The node goes into the parent's children under the page's effective URL exactly when there is a parent. Both maps become `RecordLinks` of their old values, the page's links and the new node. |
| Spider.RecordLinksMeaning | spider.py:64-67 | After the link loop, every link is in the index. Old index entries keep their node (first discoverer wins). Exactly the links that were undiscovered are added, to both maps, against the new node, and other frontier entries are kept. |
| Spider.RecordLinksKeepsCoherent | spider.py:64-67 | If every frontier entry is in the index against the same node, that stays true after the link loop. |
| Spider.RecordLinksAgain | spider.py:64-67 | Running the link loop a second time over the same links, against any node, changes nothing. |
| Spider.RecordLinksOrigin | spider.py:64-67 | Every frontier entry after the link loop was in the frontier before with the same node, or is one of the page's links against the new node. |
| Spider.RecordLinksLevel | spider.py:64-67 | Recording the links of one more successfully fetched frontier page extends `LevelSoFar` by that entry. |
| Spider.LevelStep | spider.py:56-67 | Processing one frontier entry keeps `LevelSoFar`, the entry counted in, whether the fetch fails or succeeds. Every new frontier entry is old or one of the fetched page's links against its node. |
| Spider.Spider.ProcessFrontier | spider.py:77-82 | After every entry of the old frontier is processed, in any order, from an empty frontier, `LevelSoFar` holds for the whole old frontier. Every frontier entry is a fresh, childless node of a page fetched from the old frontier, and that page links to the entry's URL. Only the index, the frontier and the old frontier's parents can change. |
| Spider.Spider.Crawl | spider.py:69-83 | The invariant is kept and the old frontier's keys are appended to the history. The result is the size of the new frontier, which is the number of links on this level's fetched pages that were not discovered before. Old index entries keep their node, so the index only grows. The new frontier is exactly those new links, each in the index against the same fresh node. That node has no children yet, and its page is one fetched on this level that links to the URL. |
| Spider.EmptyLevel | spider.py:75-83 | A level over an empty frontier leaves the index unchanged and builds an empty frontier, so with `Crawl`'s postconditions `crawl` returns 0 and changes nothing. |
| Spider.LevelKeepsInvariant | spider.py:69-83 | A completed level keeps the crawl invariant, its new frontier becoming the latest level. |
| Spider.QueuedAtMostOnce | spider.py:64-67 | Under the invariant, the levels after the first are pairwise disjoint and lie within the index. The root is not indexed at the start (spider.py:45-46), so it can be queued at level 0 and once more in one later level; every other URL is queued at most once. |
| SpiderExamples.CrawlTwoLeaves | spider.py:69-83 | A root linking to "b", "c" and "b" again makes the first level return 2 and queue exactly {"b", "c"}. |
| SpiderExamples.CrawlTwoLeavesRootNode | spider.py:60-67 | After the first level, "b" is queued against the node of the root's page, and that node still has no children. |
| SpiderExamples.AttachLeaves | spider.py:60-62 | Fetching "b" and "c" with the root's node as their parent leaves exactly {"b", "c"} as that node's children. |
| SpiderExamples.CrawlTwoLeavesAgain | spider.py:69-83 | The level after that returns 0 and leaves the index at {"b", "c"}. |
| SpiderExamples.CrawlCycle | spider.py:69-83 | On a two-page cycle the first level returns 1 and queues "b". |
| SpiderExamples.CrawlCycleAgain | spider.py:64-67 | The second level of the cycle indexes the root and queues it again, so the levels are {a}, {b}, {a}. |
| SpiderExamples.CrawlCycleThird | spider.py:64-67 | The third level of the cycle finds "b" already indexed and queues nothing: the root is not queued a third time. |
| SpiderExamples.CrawlUnreachable | spider.py:56-59 | When the root cannot be fetched, the first level returns 0 and discovers nothing. |
| SpiderExamples.AddChildTwice | spider.py:28-36 | Two children with the same effective URL leave one entry, the later child. |

## Left out

- The HTTP request (`requests.get`, spider.py:57) is network I/O and is a parameter, the `Fetcher`. Any exception it raises is its `None`. A response with an error status does not raise, so it counts as a fetched page.
- Link extraction (`get_urls`, spider.py:20-26) calls BeautifulSoup and `urljoin`. It is part of the `Fetcher`, which returns the resolved links in document order with duplicates.
- A failure of link extraction is not modelled as an error. `get_urls` runs outside the `try` (spider.py:56-59, 63), so an exception there (for example `urljoin` on an href such as `http://[::1`) ends `_process_url` after the node is attached to its parent and before any link is recorded. The model covers that outcome only as a `Fetcher` that returns the page with no links. The thread's traceback is not modelled.
- The threads of `crawl` (spider.py:77-82) and the locks (spider.py:18, 34-36, 47) are left out. One level is a sequential loop over the frontier in an unspecified order, so races between threads are not modelled. `discovered_lock` is never acquired in the source, and the at-most-once facts hold only for the sequential model.
- `main` (spider.py:86-95) only parses the command line and prints, and `__str__` (spider.py:38-39) only returns the page URL. Neither is modelled.
- Python's dictionary iteration order is left unspecified. Every contract holds for any order in which the frontier is processed.
- Spider.Spider.Crawl: does not state the child maps a whole level leaves on the frontier's parents. `ProcessUrl` states each attachment, and the `modifies` frame limits the changes to those parents. A level-wide statement made the proof too costly to check.
- Spider.Spider.ProcessFrontier: for the same reason, states the parents' child maps only through its `modifies` frame.
- Spider.Spider.Crawl: the empty-frontier case (returns 0, index unchanged) is stated by `EmptyLevel` on `Crawl`'s `LevelSoFar` postcondition rather than as a separate postcondition of `Crawl`.
