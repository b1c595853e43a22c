/** The link graph a crawl walks, and distance in it. */
module CrawlGraph {
  import opened Common
  import opened CrawlManifests

  datatype Kind = HTML | MARKDOWN | Attachment(name: string)

  /** What the browser brings back for a URL; hrefs that do not normalise are `None`. */
  datatype Page =
    | Missing
    | Failed
    | Fetched(final: Url, content: Kind -> string, links: seq<Option<Url>>)

  datatype Download = Download(kind: Kind, final: Url, content: string, fileSuffix: string)

  /** Everything outside the program. URLs are already normalised; normalising again changes nothing. */
  datatype World = World(
    host: Url -> string,
    allowed: Url -> bool,
    kindOf: Url -> Option<Kind>,
    publicDns: Url -> bool,
    redirectInScope: (string, string) -> bool,
    page: Url -> Page,
    reply: seq<Url> -> Option<seq<Url>>,
    download: (Url, nat) -> Option<Download>,
    stem: Url -> string,
    sha: string -> string)
  {
    /** A batch is answered by at most one result per URL, and by nothing else; a batch that raises
        gives none. `Missing` stands for having no result. */
    ghost predicate Honest() {
      forall batch: seq<Url> :: HonestReply(batch)
    }

    ghost predicate HonestReply(batch: seq<Url>) {
      match reply(batch)
      case None => forall u <- batch :: page(u) == Missing
      case Some(answers) =>
        && (forall i, j | 0 <= i < j < |answers| :: answers[i] != answers[j])
        && forall u :: u in answers <==> u in batch && page(u) != Missing
    }

    /** The page is one, and its redirect stays within the source's host. */
    predicate Opens(u: Url) {
      kindOf(u).None? && page(u).Fetched? && redirectInScope(host(u), host(page(u).final))
    }

    predicate Follows(u: Url, link: Option<Url>) {
      link.Some? && host(link.value) == host(u) && allowed(link.value)
    }

    /** The links of a successful page that are followed: same host, allowed by the patterns. */
    function Neighbours(u: Url): set<Url> {
      if Opens(u) then set link <- page(u).links | Follows(u, link) :: link.value else {}
    }

    function NeighboursOf(urls: set<Url>): set<Url> {
      set u <- urls, v <- Neighbours(u) :: v
    }

    /** The URLs at most `n` links away from a seed. */
    function Level(seeds: seq<Url>, n: nat): set<Url> {
      if n == 0 then set u <- seeds else Level(seeds, n - 1) + NeighboursOf(Level(seeds, n - 1))
    }

    /** `n` is the length of the shortest path from a seed to `u`. */
    predicate Distance(seeds: seq<Url>, u: Url, n: nat) {
      u in Level(seeds, n) && (n == 0 || u !in Level(seeds, n - 1))
    }
  }

  lemma {:induction false} LevelsGrow(w: World, seeds: seq<Url>, m: nat, n: nat)
    requires m <= n
    ensures w.Level(seeds, m) <= w.Level(seeds, n)
  {
    hide World.NeighboursOf;
    if m < n {
      LevelsGrow(w, seeds, m, n - 1);
    }
  }

  lemma NoNearer(w: World, seeds: seq<Url>, u: Url, m: nat, n: nat)
    requires u in w.Level(seeds, m) && w.Distance(seeds, u, n)
    ensures n <= m
  {
    hide World.NeighboursOf;
    if m < n {
      LevelsGrow(w, seeds, m, n - 1);
    }
  }

  /** Distances are unique. */
  lemma DistanceUnique(w: World, seeds: seq<Url>, u: Url, m: nat, n: nat)
    requires w.Distance(seeds, u, m) && w.Distance(seeds, u, n)
    ensures m == n
  {
    NoNearer(w, seeds, u, m, n);
    NoNearer(w, seeds, u, n, m);
  }

  /** A chain of followed links from a seed. */
  ghost predicate IsPath(w: World, seeds: seq<Url>, path: seq<Url>) {
    path != [] && path[0] in seeds && forall i | 0 < i < |path| :: path[i] in w.Neighbours(path[i - 1])
  }

  /** The levels are what paths reach: `u` is in level `n` exactly when a path of at most `n` links
      leads to it. */
  lemma {:induction false} LevelIsReach(w: World, seeds: seq<Url>, n: nat, u: Url)
    ensures u in w.Level(seeds, n) <==>
            exists path :: IsPath(w, seeds, path) && |path| <= n + 1 && path[|path| - 1] == u
  {
    if u in w.Level(seeds, n) {
      var _ := PathTo(w, seeds, n, u);
    }
    forall path | IsPath(w, seeds, path) && |path| <= n + 1 && path[|path| - 1] == u
      ensures u in w.Level(seeds, n)
    {
      PathStaysInLevel(w, seeds, n, path);
    }
  }

  ghost function PathTo(w: World, seeds: seq<Url>, n: nat, u: Url): (path: seq<Url>)
    requires u in w.Level(seeds, n)
    ensures IsPath(w, seeds, path) && |path| <= n + 1 && path[|path| - 1] == u
  {
    if n == 0 then [u]
    else if u in w.Level(seeds, n - 1) then PathTo(w, seeds, n - 1, u)
    else
      var before :| before in w.Level(seeds, n - 1) && u in w.Neighbours(before);
      PathTo(w, seeds, n - 1, before) + [u]
  }

  lemma {:induction false} PathStaysInLevel(w: World, seeds: seq<Url>, n: nat, path: seq<Url>)
    requires IsPath(w, seeds, path) && |path| <= n + 1
    ensures path[|path| - 1] in w.Level(seeds, n)
  {
    if n > 0 {
      if |path| == 1 {
        LevelsGrow(w, seeds, 0, n);
      } else {
        var init := path[..|path| - 1];
        assert IsPath(w, seeds, init);
        PathStaysInLevel(w, seeds, n - 1, init);
        assert path[|path| - 1] in w.Neighbours(init[|init| - 1]);
      }
    }
  }

  /** A level that adds nothing is the last one. */
  lemma {:induction false} LevelsSettle(w: World, seeds: seq<Url>, m: nat, n: nat)
    requires m <= n && w.Level(seeds, m + 1) == w.Level(seeds, m)
    ensures w.Level(seeds, n) == w.Level(seeds, m)
  {
    hide World.NeighboursOf;
    if m < n {
      LevelsSettle(w, seeds, m, n - 1);
    }
  }

  // ---------------------------------------------------------------- the queue between rounds

  datatype Entry = Entry(url: Url, depth: nat, seedHost: string)

  /** The seed host of a queued URL is its own host, and links were checked against the patterns. */
  predicate EntryOk(w: World, e: Entry) {
    e.seedHost == w.host(e.url) && (e.depth > 0 ==> w.allowed(e.url))
  }

  function Urls(queue: seq<Entry>): set<Url> {
    set e <- queue :: e.url
  }

  /** The state in which round `round` starts: everything nearer was seen, the queue holds exactly
      what is new at this distance, and nothing beyond the depth limit is ever queued. */
  ghost predicate AtHead(w: World, seeds: seq<Url>, maxDepth: nat, round: nat, queue: seq<Entry>, seen: set<Url>) {
    && round <= maxDepth + 1
    && seen == (if round == 0 then {} else w.Level(seeds, round - 1))
    && (if round <= maxDepth then seen + Urls(queue) == w.Level(seeds, round) else queue == [])
  }

  /** Popping the whole queue and queueing what the new pages link to leads to the next head. */
  lemma NextHead(w: World, seeds: seq<Url>, maxDepth: nat, round: nat, queue: seq<Entry>, seen: set<Url>, next: seq<Entry>)
    requires AtHead(w, seeds, maxDepth, round, queue, seen) && queue != []
    requires round < maxDepth ==> Urls(next) == w.NeighboursOf(Urls(queue) - seen) - (seen + Urls(queue))
    requires round == maxDepth ==> next == []
    ensures AtHead(w, seeds, maxDepth, round + 1, next, seen + Urls(queue))
  {
    if round < maxDepth {
      var level := w.Level(seeds, round);
      assert w.NeighboursOf(level) == w.NeighboursOf(seen) + w.NeighboursOf(Urls(queue) - seen);
      assert w.Level(seeds, round + 1) == level + w.NeighboursOf(level);
      if round > 0 {
        assert w.Level(seeds, round) == seen + w.NeighboursOf(seen);
      }
    }
  }

  /** When the queue is empty everything within the depth limit was seen. */
  lemma DrainedMeansReached(w: World, seeds: seq<Url>, maxDepth: nat, round: nat, seen: set<Url>)
    requires AtHead(w, seeds, maxDepth, round, [], seen)
    ensures seen == w.Level(seeds, maxDepth)
  {
    if round == 0 {
      assert w.Level(seeds, 0) == {};
      assert w.Level(seeds, 1) == w.Level(seeds, 0);
      LevelsSettle(w, seeds, 0, maxDepth);
    } else if round <= maxDepth {
      assert w.Level(seeds, round) == w.Level(seeds, round - 1);
      LevelsSettle(w, seeds, round - 1, maxDepth);
    }
  }
}
