/** `_crawl_concurrently` (`workers/crawl4ai/acquire.py:336-606`): rounds that pop the whole queue,
    fetch the pages of the round in one batch, and queue what they link to. */
module CrawlFrontier {
  import opened Common
  import opened CrawlManifests
  import opened CrawlGraph

  datatype Request = Request(
    seeds: seq<Url>, maxItems: nat, maxDepth: nat, fetchAttachments: bool, outputKinds: seq<Kind>,
    maxArtifactBytes: nat, maxTotalBytes: nat)

  // ---------------------------------------------------------------- file names

  /** `{n:04d}` */
  function Padded(n: nat): (s: string)
    ensures '-' !in s
  {
    var digits := Digits(n);
    if |digits| < 4 then seq(4 - |digits|, _ => '0') + digits else digits
  }

  lemma {:induction false} LeadingZero(s: string)
    ensures ValueOf("0" + s) == ValueOf(s)
    decreases |s|
  {
    if s != "" {
      LeadingZero(s[..|s| - 1]);
      assert ("0" + s)[..|s|] == "0" + s[..|s| - 1];
    } else {
      assert "0" + s == "0";
    }
  }

  lemma {:induction false} LeadingZeros(k: nat, s: string)
    ensures ValueOf(seq(k, _ => '0') + s) == ValueOf(s)
    decreases k
  {
    if k > 0 {
      LeadingZeros(k - 1, s);
      LeadingZero(seq(k - 1, _ => '0') + s);
      assert seq(k, _ => '0') + s == "0" + (seq(k - 1, _ => '0') + s);
    } else {
      assert seq(k, _ => '0') + s == s;
    }
  }

  lemma PaddedInjective(m: nat, n: nat)
    requires Padded(m) == Padded(n)
    ensures m == n
  {
    forall k: nat ensures ValueOf(Padded(k)) == k {
      DigitsValue(k);
      if |Digits(k)| < 4 {
        LeadingZeros(4 - |Digits(k)|, Digits(k));
      }
    }
    assert ValueOf(Padded(m)) == m && ValueOf(Padded(n)) == n;
  }

  function FileName(sequence: nat, stem: string, digest: string, suffix: string): string {
    Padded(sequence) + "-" + (stem + "-" + (if |digest| > 12 then digest[..12] else digest) + suffix)
  }

  ghost predicate Numbered(name: string, n: nat) {
    exists rest: string :: name == Padded(n) + "-" + rest
  }

  lemma NameIsNumbered(n: nat, stem: string, digest: string, suffix: string)
    ensures Numbered(FileName(n, stem, digest, suffix), n)
  {
  }

  /** A file name tells its sequence number, whatever the stem, digest and suffix are. */
  lemma NumberedOnce(name: string, m: nat, n: nat)
    requires Numbered(name, m) && Numbered(name, n)
    ensures m == n
  {
    var x: string :| name == Padded(m) + "-" + x;
    var y: string :| name == Padded(n) + "-" + y;
    assert name[|Padded(m)|] == '-' && name[|Padded(n)|] == '-';
    assert forall i | 0 <= i < |Padded(m)| :: name[i] == Padded(m)[i] != '-';
    assert forall i | 0 <= i < |Padded(n)| :: name[i] == Padded(n)[i] != '-';
    assert Padded(m) == name[..|Padded(m)|] == Padded(n);
    PaddedInjective(m, n);
  }

  // ---------------------------------------------------------------- written artifacts

  function Total(artifacts: seq<Artifact>): nat {
    if artifacts == [] then 0 else Total(artifacts[..|artifacts| - 1]) + artifacts[|artifacts| - 1].size
  }

  function Names(artifacts: seq<Artifact>): set<string> {
    set a <- artifacts :: a.fileName
  }

  /** The written files: their names, their sizes, the bytes they add up to. */
  ghost predicate Ledger(request: Request, artifacts: seq<Artifact>, totalBytes: nat, directory: set<string>, occupied: set<string>) {
    && totalBytes == Total(artifacts)
    && (forall i | 0 <= i < |artifacts| :: Numbered(artifacts[i].fileName, i + 1) && 0 < artifacts[i].size <= request.maxArtifactBytes)
    && directory == occupied + Names(artifacts)
  }

  lemma LedgerNamesDistinct(request: Request, artifacts: seq<Artifact>, totalBytes: nat, directory: set<string>, occupied: set<string>)
    requires Ledger(request, artifacts, totalBytes, directory, occupied)
    ensures forall i, j | 0 <= i < j < |artifacts| :: artifacts[i].fileName != artifacts[j].fileName
  {
    forall i, j | 0 <= i < j < |artifacts| ensures artifacts[i].fileName != artifacts[j].fileName {
      if artifacts[i].fileName == artifacts[j].fileName {
        NumberedOnce(artifacts[i].fileName, i + 1, j + 1);
      }
    }
  }

  /** A name for the next number is taken only by a file that was there before the run. */
  lemma LedgerNextName(request: Request, artifacts: seq<Artifact>, totalBytes: nat, directory: set<string>, occupied: set<string>, name: string)
    requires Ledger(request, artifacts, totalBytes, directory, occupied)
    requires Numbered(name, |artifacts| + 1)
    ensures name in directory ==> name in occupied
  {
    if name in Names(artifacts) {
      var i :| 0 <= i < |artifacts| && artifacts[i].fileName == name;
      NumberedOnce(name, i + 1, |artifacts| + 1);
    }
  }

  lemma LedgerExtends(request: Request, artifacts: seq<Artifact>, totalBytes: nat, directory: set<string>, occupied: set<string>, a: Artifact)
    requires Ledger(request, artifacts, totalBytes, directory, occupied)
    requires Numbered(a.fileName, |artifacts| + 1) && 0 < a.size <= request.maxArtifactBytes
    requires totalBytes + a.size <= request.maxTotalBytes
    ensures Ledger(request, artifacts + [a], totalBytes + a.size, directory + {a.fileName}, occupied)
  {
    hide Numbered;
    var more := artifacts + [a];
    assert more[..|artifacts|] == artifacts;
    assert Total(more) == totalBytes + a.size;
    assert Names(more) == Names(artifacts) + {a.fileName} by {
      assert more[|artifacts|] == a;
      assert forall b <- artifacts :: b in more;
    }
  }

  // ---------------------------------------------------------------- what the artifacts are artifacts of

  /** Where the bytes of an artifact come from. */
  datatype Source = PageContent(url: Url, kind: Kind) | AttachmentContent(url: Url, download: Download)

  /** The artifact of these bytes, as the `n`-th of the crawl. */
  function ArtifactOf(w: World, n: nat, s: Source): Artifact {
    match s
    case PageContent(u, kind) =>
      if !w.page(u).Fetched? then Artifact("", u, u, 0, "")
      else
        var final, content := w.page(u).final, w.page(u).content(kind);
        Artifact(FileName(n, w.stem(final), w.sha(content), if kind == HTML then ".html" else ".md"), u, final, |content|, w.sha(content))
    case AttachmentContent(u, d) =>
      Artifact(FileName(n, w.stem(d.final), w.sha(d.content), d.fileSuffix), u, d.final, |d.content|, w.sha(d.content))
  }

  ghost predicate AreArtifactsOf(w: World, artifacts: seq<Artifact>, story: seq<Source>) {
    |artifacts| == |story| && forall i | 0 <= i < |story| :: artifacts[i] == ArtifactOf(w, i + 1, story[i])
  }

  /** This page has content of this kind, and not too much. */
  predicate Writes(w: World, request: Request, u: Url, kind: Kind) {
    && (kind == HTML || kind == MARKDOWN) && w.page(u).Fetched?
    && 0 < |w.page(u).content(kind)| <= request.maxArtifactBytes
  }

  /** What is written for a page: one artifact per requested kind it has content of. */
  function PageSources(w: World, request: Request, kinds: seq<Kind>, u: Url): (s: seq<Source>)
    ensures forall x <- s :: x.PageContent? && x.url == u && x.kind in kinds && Writes(w, request, u, x.kind)
    ensures forall kind <- kinds | Writes(w, request, u, kind) :: PageContent(u, kind) in s
  {
    if kinds == [] then []
    else
      var last := kinds[|kinds| - 1];
      assert kinds == kinds[..|kinds| - 1] + [last];
      PageSources(w, request, kinds[..|kinds| - 1], u) + if Writes(w, request, u, last) then [PageContent(u, last)] else []
  }

  ghost predicate NoRepeat<T(!new)>(s: seq<T>) {
    forall i, j | 0 <= i < j < |s| :: s[i] != s[j]
  }

  lemma {:induction false} PageSourcesDiffer(w: World, request: Request, kinds: seq<Kind>, u: Url)
    requires NoRepeat(kinds)
    ensures NoRepeat(PageSources(w, request, kinds, u))
  {
    if kinds != [] {
      var prior, last := kinds[..|kinds| - 1], kinds[|kinds| - 1];
      PageSourcesDiffer(w, request, prior, u);
      assert last !in prior;
    }
  }

  /** What is written for the pages that open among `urls`, in order. */
  function StoryOf(w: World, request: Request, urls: seq<Url>): seq<Source> {
    if urls == [] then []
    else
      var last := urls[|urls| - 1];
      StoryOf(w, request, urls[..|urls| - 1]) + if w.Opens(last) then PageSources(w, request, request.outputKinds, last) else []
  }

  function Opened(w: World, urls: set<Url>): set<Url> {
    set u <- urls | w.Opens(u)
  }

  function AttachmentsIn(w: World, urls: set<Url>): set<Url> {
    set u <- urls | w.kindOf(u).Some?
  }

  // ---------------------------------------------------------------- who links to an attachment

  /** The final addresses of the followed pages that link to `a`. */
  function Linkers(w: World, followed: set<Url>, a: Url): set<Url> {
    if w.kindOf(a).None? then {}
    else set u <- followed | w.Opens(u) && a in w.Neighbours(u) :: w.page(u).final
  }

  /** The links of one page up to `n` that are followed. */
  function FollowedLinks(w: World, u: Url, links: seq<Option<Url>>): set<Url> {
    set link <- links | w.Follows(u, link) :: link.value
  }

  function PagesIn(w: World, urls: set<Url>): set<Url> {
    set u <- urls | w.kindOf(u).None?
  }
}
