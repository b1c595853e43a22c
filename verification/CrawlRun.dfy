/** One concurrent crawl, with its state changed in place. */
module CrawlRun {
  import opened Common
  import opened CrawlManifests
  import opened CrawlGraph
  import opened CrawlFrontier

  class Crawl {
    const w: World
    const request: Request
    const registry: ParentRegistry

    var queue: seq<Entry>
    var seen: set<Url>
    var items: nat
    var pages: nat
    var attachments: nat
    var succeeded: nat
    var failed: nat
    var artifacts: seq<Artifact>
    var totalBytes: nat
    var directory: set<string>
    var byDigest: map<string, Manifest>

    /** The files present before the run, the depth at which each page was attempted, the pages that
        opened, those whose links were followed, the attachments that were dealt with, and where the
        bytes of each artifact come from. */
    ghost const occupied: set<string>
    ghost var depthOf: map<Url, nat>
    ghost var loaded: set<Url>
    ghost var followed: set<Url>
    ghost var tried: set<Url>
    ghost var story: seq<Source>

    ghost predicate Counts()
      reads this`items, this`pages, this`attachments, this`depthOf, this`seen, this`followed, this`tried
    {
      && items == pages + attachments <= request.maxItems
      && |depthOf| == pages
      && depthOf.Keys <= PagesIn(w, seen)
      && followed <= depthOf.Keys
      && tried <= AttachmentsIn(w, seen)
      && attachments == |WantedOf(tried)|
    }

    ghost function WantedOf(urls: set<Url>): set<Url> {
      set u <- urls | w.kindOf(u).Some? && request.fetchAttachments && w.kindOf(u).value in request.outputKinds
    }

    /** When every result comes once, `succeeded` counts the pages that opened. */
    ghost predicate Successes()
      reads this`succeeded, this`loaded, this`depthOf
    {
      loaded <= depthOf.Keys && loaded == Opened(w, loaded) && (w.Honest() ==> succeeded == |loaded|)
    }

    ghost predicate Written()
      reads this`artifacts, this`totalBytes, this`directory, this`story
    {
      && Ledger(request, artifacts, totalBytes, directory, occupied) && totalBytes <= request.maxTotalBytes
      && AreArtifactsOf(w, artifacts, story)
    }

    ghost predicate Manifests()
      reads this`byDigest, registry, registry.manifests
    {
      && registry.Valid()
      && forall digest | digest in byDigest :: byDigest[digest] in registry.manifests
    }

    /** The parents recorded for an attachment URL are the followed pages that link to it. */
    ghost predicate Parents()
      reads this`followed, registry`parents
    {
      ParentsAre(w, registry.parents, followed)
    }

    /** Every manifest describes a written artifact, some URL is bound to it, and the manifest kept for
        a digest is that of an artifact with this digest. */
    ghost predicate Bound()
      reads this`artifacts, this`byDigest, registry`byUrl, registry`manifests
    {
      && (forall m <- registry.manifests :: m.artifact in artifacts && exists url | url in registry.byUrl :: registry.byUrl[url] == m)
      && forall digest | digest in byDigest :: byDigest[digest].artifact.sha256 == digest
    }

    /** These bytes are those of a page that opened, or of an attachment that was asked for and is bound. */
    ghost predicate SourceOk(byUrl: map<Url, Manifest>, loaded: set<Url>, s: Source) {
      match s
      case PageContent(u, kind) => u in loaded && kind in request.outputKinds && Writes(w, request, u, kind)
      case AttachmentContent(u, d) =>
        && u in byUrl && request.fetchAttachments && w.kindOf(u).Some? && w.kindOf(u).value in request.outputKinds
        && d.kind in request.outputKinds && IsDownload(u, d)
    }

    ghost predicate IsDownload(u: Url, d: Download)
      requires w.kindOf(u).Some?
    {
      exists total | 0 <= total <= request.maxTotalBytes :: Downloaded(u, total) == Some(d)
    }

    /** Nothing is written that should not be, and of the pages that opened nothing is left out. */
    ghost predicate ToldBy(byUrl: map<Url, Manifest>, loaded: set<Url>, story: seq<Source>) {
      && (forall s <- story :: SourceOk(byUrl, loaded, s))
      && (forall u <- loaded, kind <- request.outputKinds | Writes(w, request, u, kind) :: PageContent(u, kind) in story)
      && (w.Honest() && NoRepeat(request.outputKinds) ==> NoRepeat(story))
    }

    ghost predicate Told()
      reads this`story, this`loaded, registry`byUrl
    {
      ToldBy(registry.byUrl, loaded, story)
    }

    /** What was downloaded for an attachment is what its URL is bound to. */
    ghost predicate Outcome(byUrl: map<Url, Manifest>, u: Url, total: nat)
      requires w.kindOf(u).Some? && total <= request.maxTotalBytes
    {
      match Downloaded(u, total)
      case Some(d) => u in byUrl && byUrl[u].artifact.sha256 == w.sha(d.content)
      case None => u !in byUrl
    }

    ghost predicate HandledBy(byUrl: map<Url, Manifest>, tried: set<Url>) {
      && byUrl.Keys <= tried
      && forall u <- tried :: w.kindOf(u).Some? && exists total | 0 <= total <= request.maxTotalBytes :: Outcome(byUrl, u, total)
    }

    ghost predicate Handled()
      reads this`tried, registry`byUrl
    {
      HandledBy(registry.byUrl, tried)
    }

    ghost predicate Valid()
      reads this, registry, registry.manifests
    {
      Counts() && Successes() && Written() && Manifests() && Parents() && Bound() && Told() && Handled()
    }

    /** The attachment kind is one the request asks for. */
    predicate Wanted(url: Url)
      requires w.kindOf(url).Some?
    {
      request.fetchAttachments && w.kindOf(url).value in request.outputKinds
    }

    /** What is downloaded for an attachment URL while `totalBytes` bytes are written, if it is kept. */
    function Downloaded(url: Url, totalBytes: nat): Option<Download>
      requires w.kindOf(url).Some? && totalBytes <= request.maxTotalBytes
    {
      var room := request.maxTotalBytes - totalBytes;
      var got := w.download(url, if request.maxArtifactBytes < room then request.maxArtifactBytes else room);
      if Wanted(url) && got.Some? && got.value.kind in request.outputKinds then got else None
    }

    /** `url` is now bound to a manifest of these bytes, and nothing else was bound. */
    twostate predicate BoundTo(url: Url, content: string)
      reads registry
    {
      && url in registry.byUrl && registry.byUrl == old(registry.byUrl)[url := registry.byUrl[url]]
      && registry.byUrl[url].artifact.sha256 == w.sha(content)
    }

    /** A fresh run in an output directory that holds the files `occupied`. */
    constructor (w: World, request: Request, occupied: set<string>)
      ensures this.w == w && this.request == request
      ensures Valid() && fresh(registry) && registry.manifests == {}
      ensures queue == SeedEntries(w, request.seeds) && seen == loaded == followed == tried == {} && depthOf == map[]
      ensures items == pages == succeeded == failed == 0
    {
      this.w, this.request, this.occupied, this.directory := w, request, occupied, occupied;
      registry := new ParentRegistry();
      queue, seen, depthOf, loaded, followed, tried := SeedEntries(w, request.seeds), {}, map[], {}, {}, {};
      items, pages, attachments, succeeded, failed := 0, 0, 0, 0, 0;
      artifacts, totalBytes, byDigest, story := [], 0, map[], [];
    }

    /** `_write_artifact` and `_write_attachment_artifact`. */
    method Write(stem: string, suffix: string, source: Url, canonical: Url, content: string, ghost from: Source)
      returns (error: Option<string>, artifact: Artifact)
      requires Written()
      requires forall n :: ArtifactOf(w, n, from) == Artifact(FileName(n, stem, w.sha(content), suffix), source, canonical, |content|, w.sha(content))
      modifies this`totalBytes, this`artifacts, this`directory, this`story
      ensures Written() && story == if error.None? then old(story) + [from] else old(story)
      ensures content == "" <==> error == Some("EMPTY_ARTIFACT_NOT_ALLOWED")
      ensures content != "" && |content| > request.maxArtifactBytes <==> error == Some("ARTIFACT_TOO_LARGE")
      ensures error.None? <==>
              && 0 < |content| <= request.maxArtifactBytes && old(totalBytes) + |content| <= request.maxTotalBytes
              && FileName(old(|artifacts|) + 1, stem, w.sha(content), suffix) !in old(directory)
      ensures error == Some("COLLECTION_TOO_LARGE") <==>
              0 < |content| <= request.maxArtifactBytes && old(totalBytes) + |content| > request.maxTotalBytes
      ensures error == Some("FILE_EXISTS") <==>
              && 0 < |content| <= request.maxArtifactBytes && old(totalBytes) + |content| <= request.maxTotalBytes
              && FileName(old(|artifacts|) + 1, stem, w.sha(content), suffix) in old(directory)
      ensures error == Some("FILE_EXISTS") ==> FileName(old(|artifacts|) + 1, stem, w.sha(content), suffix) in occupied
      ensures error.None? ==>
        && artifact == Artifact(FileName(old(|artifacts|) + 1, stem, w.sha(content), suffix), source, canonical, |content|, w.sha(content))
        && artifacts == old(artifacts) + [artifact]
      ensures error.Some? ==> artifacts == old(artifacts) && totalBytes == old(totalBytes) && directory == old(directory)
    {
      hide Ledger, ArtifactOf, FileName, Numbered;
      var digest := w.sha(content);
      var name := FileName(|artifacts| + 1, stem, digest, suffix);
      artifact := Artifact(name, source, canonical, |content|, digest);
      if content == "" { return Some("EMPTY_ARTIFACT_NOT_ALLOWED"), artifact; }
      if |content| > request.maxArtifactBytes { return Some("ARTIFACT_TOO_LARGE"), artifact; }
      if totalBytes + |content| > request.maxTotalBytes { return Some("COLLECTION_TOO_LARGE"), artifact; }
      NameIsNumbered(|artifacts| + 1, stem, digest, suffix);
      LedgerNextName(request, artifacts, totalBytes, directory, occupied, name);
      if name in directory { return Some("FILE_EXISTS"), artifact; }
      LedgerExtends(request, artifacts, totalBytes, directory, occupied, artifact);
      directory, totalBytes, artifacts := directory + {name}, totalBytes + |content|, artifacts + [artifact];
      story := story + [from];
      return None, artifact;
    }

    /** One attachment taken from the queue (lines 402-451). */
    method FetchAttachment(url: Url) returns (error: Option<string>)
      requires Valid() && items < request.maxItems
      requires url in seen && url !in tried && w.kindOf(url).Some?
      modifies this`items, this`attachments, this`totalBytes, this`artifacts, this`directory, this`byDigest, this`tried, this`story
      modifies registry`byUrl, registry`manifests, registry.manifests
      ensures error.None? ==> Valid() && tried == old(tried) + {url}
      ensures error.None? ==>
        && attachments == old(attachments) + (if Wanted(url) then 1 else 0)
        && items == old(items) + (if Wanted(url) then 1 else 0)
        && match old(Downloaded(url, totalBytes)) {
             case Some(download) => BoundTo(url, download.content)
             case None => registry.byUrl == old(registry.byUrl) && artifacts == old(artifacts)
           }
      ensures fresh(registry.manifests - old(registry.manifests))
    {
      hide Counts, Successes, Written, Manifests, ParentRegistry.Valid, Parents, Bound, Told, Handled, HandledBy, Downloaded, Wanted, WantedOf;
      BeforeFetch(url);
      ghost var byUrl, before, room := registry.byUrl, tried, totalBytes;
      if !Wanted(url) {
        NothingWanted(url, totalBytes);
        CountAttachment(url);
        HandledOne(byUrl, before, url, room);
        return None;
      }
      if !w.publicDns(url) { return Some("DNS"); }
      CountAttachment(url);
      var got := Downloaded(url, totalBytes);
      error := None;
      if got.Some? {
        assert IsDownload(url, got.value);
        error := KeepDownload(url, got.value);
      }
      if error.None? {
        HandledOne(byUrl, before, url, room);
      }
    }

    /** An attachment that is asked for counts as an item. */
    method CountAttachment(url: Url)
      requires Counts() && url in seen && url !in tried && w.kindOf(url).Some? && items < request.maxItems
      modifies this`items, this`attachments, this`tried
      ensures Counts() && tried == old(tried) + {url}
      ensures attachments == old(attachments) + (if Wanted(url) then 1 else 0)
      ensures items == old(items) + (if Wanted(url) then 1 else 0)
    {
      hide PagesIn;
      OneMoreWanted(tried, url);
      if Wanted(url) { items, attachments := items + 1, attachments + 1; }
      tried := tried + {url};
    }

    lemma BeforeFetch(url: Url)
      requires Written() && Handled() && url !in tried
      ensures url !in registry.byUrl && HandledBy(registry.byUrl, tried) && totalBytes <= request.maxTotalBytes
    {
    }

    /** The attachment just tried is dealt with as well as those before. */
    lemma HandledOne(byUrl: map<Url, Manifest>, before: set<Url>, url: Url, total: nat)
      requires HandledBy(byUrl, before) && url !in before && w.kindOf(url).Some? && total <= request.maxTotalBytes
      requires tried == before + {url} && Outcome(registry.byUrl, url, total)
      requires registry.byUrl == byUrl || (url in registry.byUrl && registry.byUrl == byUrl[url := registry.byUrl[url]])
      ensures Handled()
    {
      hide Downloaded;
      forall u | u in before ensures exists t | 0 <= t <= request.maxTotalBytes :: Outcome(registry.byUrl, u, t) {
        var t :| 0 <= t <= request.maxTotalBytes && Outcome(byUrl, u, t);
        assert Outcome(registry.byUrl, u, t);
      }
    }

    lemma NothingWanted(url: Url, total: nat)
      requires w.kindOf(url).Some? && !Wanted(url) && total <= request.maxTotalBytes
      ensures Downloaded(url, total).None?
    {
    }

    lemma OneMoreWanted(urls: set<Url>, url: Url)
      requires url !in urls && w.kindOf(url).Some?
      ensures |WantedOf(urls + {url})| == |WantedOf(urls)| + if Wanted(url) then 1 else 0
    {
      assert WantedOf(urls + {url}) == WantedOf(urls) + if Wanted(url) then {url} else {};
    }

    /** The bytes are new and get a manifest, or an earlier URL had the same ones and its manifest is shared. */
    method KeepDownload(url: Url, download: Download) returns (error: Option<string>)
      requires Written() && Manifests() && Bound() && Told() && url !in registry.byUrl
      requires w.kindOf(url).Some? && IsDownload(url, download)
      modifies this`totalBytes, this`artifacts, this`directory, this`byDigest, this`story, registry`byUrl, registry`manifests, registry.manifests
      ensures error.None? ==> Written() && Manifests() && Bound() && Told() && BoundTo(url, download.content)
      ensures fresh(registry.manifests - old(registry.manifests))
    {
      hide ParentRegistry.Valid, Written, Linkers, FileName, PagesIn, ToldBy, IsDownload;
      var digest := w.sha(download.content);
      if digest in byDigest {
        registry.Bind(url, byDigest[digest]);
        ToldStill(old(registry.byUrl), registry.byUrl, loaded, story);
        assert Bound() by {
          BoundStays(old(registry.byUrl), old(registry.manifests), artifacts, url, byDigest[digest]);
        }
        return None;
      }
      error := KeepNew(url, digest, download);
    }

    lemma ToldStill(byUrl: map<Url, Manifest>, after: map<Url, Manifest>, loaded: set<Url>, story: seq<Source>)
      requires ToldBy(byUrl, loaded, story) && byUrl.Keys <= after.Keys
      ensures ToldBy(after, loaded, story)
    {
      hide Writes, IsDownload;
      assert forall s <- story :: SourceOk(byUrl, loaded, s);
    }

    /** An attachment is downloaded, with what room there is, if attachments are asked for and its kind is; it is kept if
        what comes back is of a kind asked for, too. */
    lemma DownloadedExactly(url: Url, total: nat, d: Download)
      requires w.kindOf(url).Some? && total <= request.maxTotalBytes
      ensures Downloaded(url, total) == Some(d) <==>
              && request.fetchAttachments && w.kindOf(url).value in request.outputKinds && d.kind in request.outputKinds
              && w.download(url, if request.maxTotalBytes - total < request.maxArtifactBytes then request.maxTotalBytes - total
                                 else request.maxArtifactBytes) == Some(d)
    {
    }

    lemma DownloadIsWanted(url: Url, d: Download)
      requires w.kindOf(url).Some? && IsDownload(url, d)
      ensures request.fetchAttachments && w.kindOf(url).value in request.outputKinds && d.kind in request.outputKinds
    {
    }

    /** An attachment's bytes are written once, for the first URL they are bound to. */
    lemma ToldAttachment(byUrl: map<Url, Manifest>, after: map<Url, Manifest>, loaded: set<Url>, story: seq<Source>, url: Url, d: Download)
      requires ToldBy(byUrl, loaded, story) && url !in byUrl && after.Keys == byUrl.Keys + {url} && w.kindOf(url).Some? && IsDownload(url, d)
      ensures ToldBy(after, loaded, story + [AttachmentContent(url, d)])
    {
      DownloadIsWanted(url, d);
      hide Writes, IsDownload, Wanted;
      var more := story + [AttachmentContent(url, d)];
      assert forall s <- story :: SourceOk(byUrl, loaded, s) && s in more;
      assert AttachmentContent(url, d) !in story;
      assert forall i | 0 <= i < |story| :: more[i] in story;
    }

    /** Binding one URL more leaves every manifest bound. */
    lemma BoundStays(byUrl: map<Url, Manifest>, manifests: set<Manifest>, artifacts: seq<Artifact>, url: Url, manifest: Manifest)
      requires url !in byUrl && manifest.artifact in artifacts
      requires forall m <- manifests :: m.artifact in artifacts && exists u | u in byUrl :: byUrl[u] == m
      ensures var after := byUrl[url := manifest];
              forall m <- manifests + {manifest} :: m.artifact in artifacts && exists u | u in after :: after[u] == m
    {
      var after := byUrl[url := manifest];
      assert after[url] == manifest;
      forall m <- manifests ensures exists u | u in after :: after[u] == m {
        var u :| u in byUrl && byUrl[u] == m;
        assert u in after && after[u] == m;
      }
    }

    method KeepNew(url: Url, digest: string, download: Download) returns (error: Option<string>)
      requires Written() && Manifests() && Bound() && Told() && url !in registry.byUrl && digest == w.sha(download.content)
      requires w.kindOf(url).Some? && IsDownload(url, download)
      modifies this`totalBytes, this`artifacts, this`directory, this`byDigest, this`story, registry`byUrl, registry`manifests
      ensures error.None? ==> Written() && Manifests() && Bound() && Told() && BoundTo(url, download.content)
      ensures fresh(registry.manifests - old(registry.manifests))
    {
      hide Valid, Counts, Parents, ParentRegistry.Valid, Written, Linkers, FileName, PagesIn, Downloaded, Wanted, ToldBy, IsDownload;
      var artifact;
      error, artifact := Write(w.stem(download.final), download.fileSuffix, url, download.final, download.content, AttachmentContent(url, download));
      if error.Some? { return; }
      assert artifacts[|artifacts| - 1] == artifact;
      var manifest := new Manifest(artifact);
      BindNew(url, manifest);
      ToldAttachment(old(registry.byUrl), registry.byUrl, loaded, old(story), url, download);
    }

    /** The manifest of a new artifact is bound and kept for its digest. */
    method BindNew(url: Url, manifest: Manifest)
      requires Manifests() && Bound() && url !in registry.byUrl
      requires manifest !in registry.manifests && manifest.parentCanonicalUris == [] && manifest.artifact in artifacts
      modifies this`byDigest, registry`byUrl, registry`manifests, manifest
      ensures Manifests() && Bound()
      ensures registry.byUrl == old(registry.byUrl)[url := manifest] && registry.manifests == old(registry.manifests) + {manifest}
      ensures byDigest == old(byDigest)[manifest.artifact.sha256 := manifest]
    {
      hide ParentRegistry.Valid;
      BoundStays(registry.byUrl, registry.manifests, artifacts, url, manifest);
      registry.Bind(url, manifest);
      byDigest := byDigest[manifest.artifact.sha256 := manifest];
    }

    /** `seen.add` */
    method See(url: Url)
      requires Valid() && url !in seen
      modifies this`seen
      ensures Valid() && seen == old(seen) + {url} && url !in tried && url !in depthOf
    {
      hide ParentRegistry.Valid, Written, Manifests, Parents, Bound, Told, Handled, Successes;
      assert url !in PagesIn(w, seen);
      seen := seen + {url};
    }

    /** A page joins the batch (lines 385-390). */
    method CountPage(url: Url, ghost depth: nat) returns (error: Option<string>)
      requires Counts() && Successes() && items < request.maxItems
      requires url in seen && w.kindOf(url).None? && url !in depthOf
      modifies this`items, this`pages, this`depthOf
      ensures error.None? ==> Counts() && Successes() && pages == old(pages) + 1 && depthOf == old(depthOf)[url := depth]
    {
      if !w.publicDns(url) { return Some("DNS"); }
      items, pages := items + 1, pages + 1;
      depthOf := depthOf[url := depth];
      return None;
    }

    /** One queue entry (lines 368-451). The scope and pattern tests always pass here: what is
        queued has passed them, and a seed is its own host. */
    method Pop() returns (error: Option<string>, page: Option<Entry>)
      requires Valid() && items < request.maxItems
      requires queue != [] && EntryOk(w, queue[0]) && tried == AttachmentsIn(w, seen)
      modifies this, registry, registry.manifests
      ensures fresh(registry.manifests - old(registry.manifests))
      ensures error.None? ==>
        && Valid()
        && queue == old(queue)[1..] && seen == old(seen) + {old(queue)[0].url}
        && page == (if old(queue)[0].url !in old(seen) && w.kindOf(old(queue)[0].url).None? then Some(old(queue)[0]) else None)
        && (if page.None? then pages == old(pages) && depthOf == old(depthOf)
            else pages == old(pages) + 1 && depthOf == old(depthOf)[page.value.url := page.value.depth])
        && tried == AttachmentsIn(w, seen)
        && loaded == old(loaded) && followed == old(followed) && succeeded == old(succeeded) && failed == old(failed)
    {
      hide ParentRegistry.Valid, Parents, Written, Manifests, Counts, Successes, Bound, Told, Handled;
      error, page := None, None;
      var e := queue[0];
      queue := queue[1..];
      if e.url !in seen && e.seedHost == w.host(e.url) && (e.depth == 0 || w.allowed(e.url)) {
        error, page := Take(e);
      } else {
        assert seen + {e.url} == seen;
      }
    }

    /** A new entry is seen, and is a page of the batch or an attachment to fetch. */
    method Take(e: Entry) returns (error: Option<string>, page: Option<Entry>)
      requires Valid() && items < request.maxItems && e.url !in seen && tried == AttachmentsIn(w, seen)
      modifies this`seen, this`items, this`pages, this`depthOf, this`tried, this`story
      modifies this`attachments, this`totalBytes, this`artifacts, this`directory, this`byDigest
      modifies registry`byUrl, registry`manifests, registry.manifests
      ensures fresh(registry.manifests - old(registry.manifests))
      ensures error.None? ==>
        && Valid() && seen == old(seen) + {e.url} && tried == AttachmentsIn(w, seen)
        && page == (if w.kindOf(e.url).None? then Some(e) else None)
        && (if page.None? then pages == old(pages) && depthOf == old(depthOf)
            else pages == old(pages) + 1 && depthOf == old(depthOf)[e.url := e.depth])
    {
      hide ParentRegistry.Valid, Parents, Written, Manifests, Counts, Successes, Bound, Told, Handled, Downloaded, Wanted, PagesIn;
      page := None;
      See(e.url);
      if w.kindOf(e.url).None? {
        error := CountPage(e.url, e.depth);
        if error.None? { page := Some(e); }
      } else {
        error := FetchAttachment(e.url);
      }
    }

    /** The popping half of a round (lines 363-451): the batch is every new page of the popped
        entries, all at this round's depth. */
    method DrainFrontier(ghost round: nat) returns (error: Option<string>, batch: seq<Entry>, popped: nat)
      requires Valid() && tried == AttachmentsIn(w, seen)
      requires forall e <- queue :: EntryOk(w, e) && e.depth == round
      modifies this, registry, registry.manifests
      ensures fresh(registry.manifests - old(registry.manifests))
      ensures error.None? ==>
        && Valid()
        && popped <= |old(queue)| && queue == old(queue)[popped..]
        && (items < request.maxItems ==> popped == |old(queue)|)
        && seen == old(seen) + Urls(old(queue)[..popped])
        && BatchOk(w, batch, round, old(seen), seen)
        && pages == old(pages) + |batch|
        && depthOf == AtDepth(old(depthOf), Urls(batch), round)
        && tried == AttachmentsIn(w, seen)
        && loaded == old(loaded) && followed == old(followed) && succeeded == old(succeeded) && failed == old(failed)
    {
      hide Valid, Counts, Successes, Written, Manifests, Parents, Bound, Told, Handled, AttachmentsIn, ParentRegistry.Valid, BatchOk, AtDepth, EntryOk;
      error, batch, popped := None, [], 0;
      ghost var entries := queue;
      var frontierSize := |queue|;
      ghost var depthBefore := depthOf;
      NothingPopped(w, depthOf, round, seen);
      while popped < frontierSize && items < request.maxItems
        invariant popped <= frontierSize == |entries| && queue == entries[popped..]
        invariant Valid() && fresh(registry.manifests - old(registry.manifests))
        invariant seen == old(seen) + Urls(entries[..popped])
        invariant BatchOk(w, batch, round, old(seen), seen)
        invariant pages == old(pages) + |batch|
        invariant depthOf == AtDepth(old(depthOf), Urls(batch), round)
        invariant tried == AttachmentsIn(w, seen)
        invariant loaded == old(loaded) && followed == old(followed) && succeeded == old(succeeded) && failed == old(failed)
      {
        ghost var seenBefore := seen;
        ghost var e := queue[0];
        assert e == entries[popped] && entries[..popped + 1] == entries[..popped] + [e];
        var page;
        error, page := Pop();
        if error.Some? { return; }
        OnePopped(w, depthBefore, round, old(seen), seenBefore, batch, e);
        if page.Some? {
          batch := batch + [page.value];
        }
        popped := popped + 1;
        assert queue == entries[popped..];
      }
    }

    /** One link: its parent is recorded if it is an attachment, and it is queued if it is new. */
    method FollowLink(candidate: Url, final: Url, e: Entry, ghost part: set<Url>, ghost pushed: seq<Entry>) returns (ghost more: seq<Entry>)
      requires Manifests() && w.allowed(candidate) && e.seedHost == w.host(candidate)
      requires PartParents(w, registry.parents, followed, final, part)
      requires PushedOk(w, pushed, e.depth + 1, part - seen)
      modifies this`queue, registry`parents, registry.manifests
      ensures Manifests() && registry.manifests == old(registry.manifests)
      ensures PartParents(w, registry.parents, followed, final, part + {candidate})
      ensures |pushed| <= |more| && more[..|pushed|] == pushed && queue == old(queue) + more[|pushed|..]
      ensures PushedOk(w, more, e.depth + 1, part + {candidate} - seen)
    {
      hide ParentRegistry.Valid, PushedOk, PartParents;
      RecordStep(w, registry.parents, followed, final, part, candidate);
      PushStep(w, pushed, e.depth + 1, part, seen, candidate);
      more := pushed;
      if w.kindOf(candidate).Some? {
        registry.RecordParent(candidate, final);
      }
      if candidate !in seen {
        queue := queue + [Entry(candidate, e.depth + 1, e.seedHost)];
        more := pushed + [Entry(candidate, e.depth + 1, e.seedHost)];
      }
    }

    /** The links of a page that is not at the depth limit (lines 553-570). */
    method FollowLinks(e: Entry) returns (ghost pushed: seq<Entry>)
      requires Valid() && EntryOk(w, e) && w.Opens(e.url) && e.url in depthOf
      modifies this`queue, this`followed, registry`parents, registry.manifests
      ensures Valid() && followed == old(followed) + {e.url}
      ensures registry.manifests == old(registry.manifests)
      ensures queue == old(queue) + pushed && PushedOk(w, pushed, e.depth + 1, w.Neighbours(e.url) - seen)
    {
      hide Counts, Written, Manifests, ParentRegistry.Valid, PushedOk, PartParents, ParentsAre, Bound, Told, Handled, Successes;
      var page := w.page(e.url);
      pushed := [];
      ghost var part: set<Url> := {};
      NoLinks(w, registry.parents, followed, page.final, e.depth + 1, seen);
      for i := 0 to |page.links|
        invariant Counts() && Successes() && Written() && Manifests() && Bound() && Told() && Handled()
        invariant registry.manifests == old(registry.manifests) && followed == old(followed)
        invariant part == FollowedLinks(w, e.url, page.links[..i])
        invariant PartParents(w, registry.parents, followed, page.final, part)
        invariant queue == old(queue) + pushed && PushedOk(w, pushed, e.depth + 1, part - seen)
      {
        var link := page.links[i];
        assert page.links[..i + 1] == page.links[..i] + [link];
        OneMoreLink(w, e.url, page.links[..i], link);
        if link.Some? && e.seedHost == w.host(link.value) && w.allowed(link.value) {
          var candidate := link.value;
          pushed := FollowLink(candidate, page.final, e, part, pushed);
          part := part + {candidate};
        }
      }
      assert page.links[..|page.links|] == page.links;
      RecordDone(w, registry.parents, followed, e.url);
      Follow(e.url);
    }

    method Follow(u: Url)
      requires Counts() && u in depthOf
      modifies this`followed
      ensures Counts() && followed == old(followed) + {u}
    {
      hide PagesIn, WantedOf;
      followed := followed + {u};
    }

    /** One result of a batch (lines 476-570). */
    method HandleResult(e: Entry) returns (error: Option<string>, ghost pushed: seq<Entry>)
      requires Valid() && EntryOk(w, e) && e.url in depthOf && (w.Honest() ==> e.url !in loaded)
      modifies this`succeeded, this`failed, this`totalBytes, this`artifacts, this`directory, this`queue, this`followed, this`loaded, this`story
      modifies registry`parents, registry.manifests
      ensures registry.manifests == old(registry.manifests)
      ensures error.None? ==>
        && Valid()
        && succeeded == old(succeeded) + (if w.Opens(e.url) then 1 else 0)
        && succeeded + failed == old(succeeded + failed) + 1
        && loaded == old(loaded) + Opened(w, {e.url})
        && story == old(story) + (if w.Opens(e.url) then PageSources(w, request, request.outputKinds, e.url) else [])
        && queue == old(queue) + pushed
        && PushedOk(w, pushed, e.depth + 1, NewLinks(w, request.maxDepth, e.depth, {e.url}) - seen)
        && followed == old(followed) + Expanded(w, request.maxDepth, e.depth, {e.url})
    {
      hide Valid, Counts, Successes, Written, Manifests, ParentRegistry.Valid, Parents, Bound, Told, Handled, PageSources, PushedOk, Opened;
      pushed := [];
      var page := w.page(e.url);
      ResultOfOne(w, request.maxDepth, e, seen);
      if !page.Fetched? || !w.redirectInScope(e.seedHost, w.host(page.final)) {
        PageFailed(e.url);
        assert story == old(story) + [];
        return None, [];
      }
      if !w.publicDns(page.final) { return Some("DNS"), []; }
      AttemptedIsPage(e.url);
      error := PageLoaded(e, page);
      if error.None? && e.depth < request.maxDepth {
        pushed := FollowLinks(e);
      }
    }

    method PageFailed(u: Url)
      requires Valid() && !w.Opens(u)
      modifies this`failed
      ensures Valid() && failed == old(failed) + 1 && loaded == loaded + Opened(w, {u})
    {
      hide Counts, Successes, Written, Manifests, ParentRegistry.Valid, Parents, Bound, Told, Handled;
      failed := failed + 1;
    }

    /** A page that opened is counted and written (lines 517-544). */
    method PageLoaded(e: Entry, page: Page) returns (error: Option<string>)
      requires Valid() && w.Opens(e.url) && page == w.page(e.url) && e.url in depthOf && (w.Honest() ==> e.url !in loaded)
      modifies this`succeeded, this`totalBytes, this`artifacts, this`directory, this`loaded, this`story
      ensures error.None? ==>
        && Valid()
        && succeeded == old(succeeded) + 1 && loaded == old(loaded) + Opened(w, {e.url})
        && story == old(story) + PageSources(w, request, request.outputKinds, e.url)
    {
      hide Counts, Successes, Written, Manifests, ParentRegistry.Valid, Parents, Bound, Told, ToldBy, Handled, PageSources, Opened;
      BeforePage();
      ghost var before := loaded;
      CountSuccess(e.url);
      error := WritePage(e.url, page.final, page.content);
      if error.None? {
        ToldPage(before, old(story), e.url);
      }
    }

    lemma BeforePage()
      requires Told()
      ensures ToldBy(registry.byUrl, loaded, story)
    {
    }

    lemma AttemptedIsPage(u: Url)
      requires Valid() && u in depthOf
      ensures w.kindOf(u).None?
    {
    }

    method CountSuccess(u: Url)
      requires Successes() && u in depthOf && w.Opens(u) && (w.Honest() ==> u !in loaded)
      modifies this`succeeded, this`loaded
      ensures Successes() && succeeded == old(succeeded) + 1 && loaded == old(loaded) + Opened(w, {u}) == old(loaded) + {u}
    {
      hide World.Honest;
      succeeded, loaded := succeeded + 1, loaded + {u};
    }

    /** A page that opens is told once, with all its kinds. */
    lemma ToldPage(before: set<Url>, prior: seq<Source>, u: Url)
      requires ToldBy(registry.byUrl, before, prior) && (w.Honest() ==> u !in before)
      requires loaded == before + {u} && story == prior + PageSources(w, request, request.outputKinds, u)
      ensures Told()
    {
      hide Writes, IsDownload, PageSources, World.Honest;
      var own := PageSources(w, request, request.outputKinds, u);
      assert forall s <- prior :: SourceOk(registry.byUrl, before, s) && s in story;
      assert forall s <- story :: s in prior || s in own;
      assert forall s <- own :: s in story;
      if w.Honest() && NoRepeat(request.outputKinds) {
        PageSourcesDiffer(w, request, request.outputKinds, u);
        ToldOnce(before, prior, own, u);
      }
    }

    lemma ToldOnce(before: set<Url>, prior: seq<Source>, own: seq<Source>, u: Url)
      requires u !in before && NoRepeat(prior) && NoRepeat(own) && forall s <- own :: s.PageContent? && s.url == u
      requires forall s <- prior :: s.PageContent? ==> s.url in before
      ensures NoRepeat(prior + own)
    {
      var more := prior + own;
      forall i, j | 0 <= i < j < |more| ensures more[i] != more[j] {
        if i < |prior| <= j {
          assert more[i] in prior && more[j] in own;
        }
      }
    }

    /** One artifact per output kind; one that is too large is left out (lines 520-544). */
    method WritePage(url: Url, final: Url, content: Kind -> string) returns (error: Option<string>)
      requires Written() && Bound() && w.page(url).Fetched? && final == w.page(url).final && content == w.page(url).content
      modifies this`totalBytes, this`artifacts, this`directory, this`story
      ensures error.None? ==> Written() && Bound() && story == old(story) + PageSources(w, request, request.outputKinds, url)
    {
      hide Written, Bound, PageSources;
      NothingOfPage(url);
      for i := 0 to |request.outputKinds|
        invariant Written() && Bound()
        invariant story == old(story) + PageSources(w, request, request.outputKinds[..i], url)
      {
        var kind := request.outputKinds[i];
        OneMoreKind(url, i);
        var text := if kind == HTML || kind == MARKDOWN then content(kind) else "";
        if text != "" {
          error := WriteKind(url, final, kind, text);
          if error.Some? && error.value != "ARTIFACT_TOO_LARGE" { return; }
        }
      }
      assert request.outputKinds[..|request.outputKinds|] == request.outputKinds;
      return None;
    }

    /** One kind of one page. */
    method WriteKind(url: Url, final: Url, kind: Kind, text: string) returns (error: Option<string>)
      requires Written() && Bound() && (kind == HTML || kind == MARKDOWN) && text != ""
      requires w.page(url).Fetched? && final == w.page(url).final && text == w.page(url).content(kind)
      modifies this`totalBytes, this`artifacts, this`directory, this`story
      ensures error.None? || error == Some("ARTIFACT_TOO_LARGE") ==>
        Written() && Bound() && story == old(story) + if Writes(w, request, url, kind) then [PageContent(url, kind)] else []
    {
      hide Written;
      var artifact;
      error, artifact := Write(w.stem(final), if kind == HTML then ".html" else ".md", url, final, text, PageContent(url, kind));
      assert old(story) + [] == old(story);
      assert forall a <- old(artifacts) :: a in artifacts;
    }

    lemma NothingOfPage(u: Url)
      ensures PageSources(w, request, request.outputKinds[..0], u) == []
    {
    }

    lemma OneMoreKind(u: Url, i: nat)
      requires i < |request.outputKinds|
      ensures PageSources(w, request, request.outputKinds[..i + 1], u)
           == PageSources(w, request, request.outputKinds[..i], u)
              + if Writes(w, request, u, request.outputKinds[i]) then [PageContent(u, request.outputKinds[i])] else []
    {
      assert request.outputKinds[..i + 1][..i] == request.outputKinds[..i];
    }

    /** The results of a batch, each bound to its request. */
    method HandleResults(batch: seq<Entry>, answers: seq<Url>, ghost round: nat) returns (error: Option<string>, returned: set<Url>, ghost pushed: seq<Entry>)
      requires Valid() && Urls(batch) <= depthOf.Keys
      requires forall e <- batch :: EntryOk(w, e) && e.depth == round
      requires w.Honest() ==> NoRepeat(answers) && forall u <- answers :: u !in loaded
      modifies this`succeeded, this`failed, this`totalBytes, this`artifacts, this`directory, this`queue, this`followed, this`loaded, this`story
      modifies registry`parents, registry.manifests
      ensures registry.manifests == old(registry.manifests)
      ensures error.None? ==>
        && Valid()
        && queue == old(queue) + pushed
        && returned == Members(answers)
        && loaded == old(loaded) + Opened(w, returned)
        && story == old(story) + StoryOf(w, request, answers)
        && succeeded + failed == old(succeeded + failed) + |answers|
        && PushedOk(w, pushed, round + 1, NewLinks(w, request.maxDepth, round, returned) - seen)
        && followed == old(followed) + Expanded(w, request.maxDepth, round, returned)
    {
      hide Valid, Counts, Successes, ParentRegistry.Valid, Parents, Manifests, Written, Bound, Told, Handled;
      hide NewLinks, Expanded, PushedOk, EntryOk, Opened, StoryOf, PageSources, World.Honest, World.Opens, NoRepeat;
      error, pushed, returned := None, [], {};
      NoAnswers(w, request.maxDepth, round, seen);
      NoStory();
      for i := 0 to |answers|
        invariant Valid() && depthOf == old(depthOf) && seen == old(seen)
        invariant registry.manifests == old(registry.manifests)
        invariant queue == old(queue) + pushed
        invariant returned == Members(answers[..i])
        invariant loaded == old(loaded) + Opened(w, returned) && story == old(story) + StoryOf(w, request, answers[..i])
        invariant succeeded + failed == old(succeeded + failed) + i
        invariant PushedOk(w, pushed, round + 1, NewLinks(w, request.maxDepth, round, returned) - seen)
        invariant followed == old(followed) + Expanded(w, request.maxDepth, round, returned)
      {
        var context := Context(batch, answers[i]);
        if context.None? { return Some("CRAWL4AI_BATCH_RESULT_UNBOUND"), returned, pushed; }
        ghost var more;
        OneMoreAnswer(old(loaded), answers, i);
        error, more := HandleResult(context.value);
        if error.Some? { return; }
        assert answers[..i + 1] == answers[..i] + [answers[i]];
        assert story == old(story) + StoryOf(w, request, answers[..i + 1]);
        MoreAnswers(w, request.maxDepth, round, returned, answers[i], seen, pushed, more);
        pushed := pushed + more;
        returned := returned + {answers[i]};
      }
      assert answers[..|answers|] == answers;
    }

    lemma NoStory()
      ensures Opened(w, {}) == {} && StoryOf(w, request, []) == []
    {
    }

    lemma OneMoreAnswer(loaded: set<Url>, answers: seq<Url>, i: nat)
      requires i < |answers|
      ensures Opened(w, Members(answers[..i]) + {answers[i]}) == Opened(w, Members(answers[..i])) + Opened(w, {answers[i]})
      ensures StoryOf(w, request, answers[..i + 1])
           == StoryOf(w, request, answers[..i]) + if w.Opens(answers[i]) then PageSources(w, request, request.outputKinds, answers[i]) else []
      ensures NoRepeat(answers) && answers[i] !in loaded ==> answers[i] !in loaded + Opened(w, Members(answers[..i]))
    {
      assert answers[..i + 1][..i] == answers[..i];
    }

    /** Pages without a result count as failed. */
    method Fail(n: nat)
      requires Valid()
      modifies this`failed
      ensures Valid() && failed == old(failed) + n
    {
      hide Counts, Successes, Written, Manifests, ParentRegistry.Valid, Parents, Bound, Told, Handled;
      failed := failed + n;
    }

    /** The fetching half of a round (lines 453-579). */
    method RunBatch(batch: seq<Entry>, ghost round: nat) returns (error: Option<string>, ghost pushed: seq<Entry>)
      requires Valid() && Urls(batch) <= depthOf.Keys
      requires forall i, j | 0 <= i < j < |batch| :: batch[i].url != batch[j].url
      requires forall e <- batch :: EntryOk(w, e) && e.depth == round
      requires Urls(batch) !! loaded
      modifies this`succeeded, this`failed, this`totalBytes, this`artifacts, this`directory, this`queue, this`followed, this`loaded, this`story
      modifies registry`parents, registry.manifests
      ensures registry.manifests == old(registry.manifests)
      ensures error.None? ==>
        && Valid()
        && queue == old(queue) + pushed
        && (forall e <- pushed :: EntryOk(w, e) && e.depth == round + 1)
        && (pushed != [] ==> round + 1 <= request.maxDepth)
      ensures error.None? && w.Honest() ==> succeeded + failed == old(succeeded + failed) + |batch|
      ensures error.None? && w.Honest() ==> PushedOk(w, pushed, round + 1, NewLinks(w, request.maxDepth, round, Urls(batch)) - seen)
      ensures error.None? && w.Honest() ==> followed == old(followed) + Expanded(w, request.maxDepth, round, Urls(batch))
      ensures error.None? && w.Honest() ==> loaded == old(loaded) + Opened(w, Urls(batch))
    {
      hide Valid, Counts, Successes, Manifests, Written, Parents, Bound, Told, Handled, Opened, ParentRegistry.Valid, NewLinks, Expanded, PushedOk, World.Honest, UrlList, Urls, EntryOk;
      error, pushed := None, [];
      var urls := UrlList(batch);
      var reply := w.reply(urls);
      if reply.None? {
        Fail(|batch|);
        RaisedBatch(w, batch, urls, request.maxDepth, round, seen);
        assert queue == old(queue) + [] && followed == old(followed) + {} && loaded == old(loaded) + {};
      } else {
        error, pushed := Answered(batch, urls, round);
      }
    }

    /** A batch that was answered: its results, then the pages without one. */
    method Answered(batch: seq<Entry>, urls: seq<Url>, ghost round: nat) returns (error: Option<string>, ghost pushed: seq<Entry>)
      requires Valid() && Urls(batch) <= depthOf.Keys && Urls(batch) !! loaded
      requires forall i, j | 0 <= i < j < |batch| :: batch[i].url != batch[j].url
      requires forall e <- batch :: EntryOk(w, e) && e.depth == round
      requires |urls| == |batch| && (forall i | 0 <= i < |batch| :: urls[i] == batch[i].url) && w.reply(urls).Some?
      modifies this`succeeded, this`failed, this`totalBytes, this`artifacts, this`directory, this`queue, this`followed, this`loaded, this`story
      modifies registry`parents, registry.manifests
      ensures registry.manifests == old(registry.manifests)
      ensures error.None? ==>
        && Valid()
        && queue == old(queue) + pushed
        && (forall e <- pushed :: EntryOk(w, e) && e.depth == round + 1)
        && (pushed != [] ==> round + 1 <= request.maxDepth)
      ensures error.None? && w.Honest() ==>
        && succeeded + failed == old(succeeded + failed) + |batch|
        && PushedOk(w, pushed, round + 1, NewLinks(w, request.maxDepth, round, Urls(batch)) - seen)
        && followed == old(followed) + Expanded(w, request.maxDepth, round, Urls(batch))
        && loaded == old(loaded) + Opened(w, Urls(batch))
    {
      hide Valid, Counts, Successes, Manifests, Written, Parents, Bound, Told, Handled, Opened, ParentRegistry.Valid;
      hide NewLinks, Expanded, PushedOk, World.Honest, Urls, EntryOk, StoryOf, NoRepeat;
      var reply := w.reply(urls);
      var returned;
      if w.Honest() {
        HonestAnswers(w, batch, urls);
      }
      error, returned, pushed := HandleResults(batch, reply.value, round);
      if error.Some? { return; }
      WithinDepth(w, pushed, request.maxDepth, round, returned, seen);
      var missing := Urls(batch) - returned;
      Fail(|missing|);
      if w.Honest() {
        AnsweredBatch(w, batch, urls, request.maxDepth, round, returned);
      }
    }

    /** The artifact list holds this source's bytes, described as such and numbered by its place. */
    ghost predicate Holds(s: Source)
      reads this`artifacts
    {
      exists i | 0 <= i < |artifacts| :: artifacts[i] == ArtifactOf(w, i + 1, s)
    }

    ghost predicate ComesFrom(byUrl: map<Url, Manifest>, loaded: set<Url>, a: Artifact, n: nat) {
      exists s :: a == ArtifactOf(w, n, s) && SourceOk(byUrl, loaded, s)
    }

    /** Every artifact is one of a requested kind of a page that opened, or of an attachment that was
        downloaded and is bound; of the pages that opened, each requested kind with content within the
        limit has its artifact; every attachment that was dealt with is bound to a manifest of its bytes
        or had none. */
    ghost predicate Complete()
      reads this`artifacts, this`loaded, this`tried, registry`byUrl
    {
      && (forall i | 0 <= i < |artifacts| :: ComesFrom(registry.byUrl, loaded, artifacts[i], i + 1))
      && (forall u <- loaded, kind <- request.outputKinds | Writes(w, request, u, kind) :: Holds(PageContent(u, kind)))
      && HandledBy(registry.byUrl, tried)
    }

    /** No two artifacts are of the same page and kind, or of the same attachment. */
    ghost predicate Once()
      reads this`artifacts
    {
      exists story: seq<Source> :: AreArtifactsOf(w, artifacts, story) && NoRepeat(story)
    }

    /** The whole crawl (lines 336-606). On every normal return the counts balance, the written bytes
        stay in bounds, file names differ, each manifest lists exactly the followed pages that link to
        it, and the artifacts are those of the pages that opened and of the attachments, and all of
        them; when batches are answered honestly, every attempted page was attempted at its distance
        from the seeds, those that open are counted and written once, and unless the item budget ran
        out all pages and attachments within the depth limit were attempted. */
    method Run() returns (error: Option<string>, ghost rounds: nat)
      requires Valid()
      requires queue == SeedEntries(w, request.seeds) && seen == loaded == followed == tried == {} && depthOf == map[]
      requires items == pages == succeeded == failed == 0
      modifies this, registry, registry.manifests
      ensures error.None? ==>
        && Valid() && artifacts != [] && rounds <= request.maxDepth + 1
        && (forall i, j | 0 <= i < j < |artifacts| :: artifacts[i].fileName != artifacts[j].fileName)
        && (forall m <- registry.manifests, p :: p in m.parentCanonicalUris <==>
              exists a | a in registry.byUrl :: registry.byUrl[a] == m && p in Linkers(w, followed, a))
        && (forall m <- registry.manifests :: m.artifact in artifacts && exists a | a in registry.byUrl :: registry.byUrl[a] == m)
      ensures error.None? ==> Complete() && tried == AttachmentsIn(w, seen) && attachments == |WantedOf(tried)|
      ensures error.None? && w.Honest() ==>
        && succeeded + failed == pages
        && loaded == Opened(w, depthOf.Keys) && succeeded == |loaded|
        && (NoRepeat(request.outputKinds) ==> Once())
        && Sound(w, request, depthOf, followed)
        && (items < request.maxItems ==>
              && depthOf.Keys == PagesIn(w, w.Level(request.seeds, request.maxDepth))
              && tried == AttachmentsIn(w, w.Level(request.seeds, request.maxDepth)))
    {
      hide Valid, Complete, Once, Sound, Opened, AttachmentsIn, World.Honest, World.Level, PagesIn, Linkers, WantedOf, Layered;
      rounds := 0;
      Beginning(w, request);
      assert depthOf.Keys == {};
      while queue != [] && items < request.maxItems
        invariant Underway(rounds) && fresh(registry.manifests - old(registry.manifests))
        decreases request.maxDepth + 1 - rounds
      {
        error := Round(rounds);
        if error.Some? { return; }
        rounds := rounds + 1;
      }
      if artifacts == [] { return Some("NO_ARTIFACTS_PRODUCED"), rounds; }
      error := None;
      Ending();
      Accounted();
      if w.Honest() && items < request.maxItems {
        Reached(w, request, rounds, seen, depthOf);
      }
    }

    /** Where the crawl stands before a round. */
    ghost predicate Underway(round: nat)
      reads this, registry, registry.manifests
    {
      && Valid() && tried == AttachmentsIn(w, seen)
      && round <= request.maxDepth + 1 && (items < request.maxItems && queue != [] ==> round <= request.maxDepth)
      && (items < request.maxItems ==> forall e <- queue :: EntryOk(w, e) && e.depth == round)
      && (w.Honest() ==> succeeded + failed == pages && Sound(w, request, depthOf, followed) && loaded == Opened(w, depthOf.Keys))
      && (w.Honest() && items < request.maxItems ==> Layered(w, request, round, queue, seen, depthOf))
    }

    /** One round: the queue is popped, its pages are fetched in one batch. */
    method Round(ghost round: nat) returns (error: Option<string>)
      requires Underway(round) && queue != [] && items < request.maxItems
      modifies this, registry, registry.manifests
      ensures fresh(registry.manifests - old(registry.manifests))
      ensures error.None? ==> Underway(round + 1)
    {
      hide Valid, Counts, Successes, Manifests, Written, Parents, Bound, Told, Handled, ParentRegistry.Valid, World.Honest;
      hide Sound, Layered, BatchOk, EntryOk, AtDepth, NewLinks, Expanded, PushedOk, Opened, AttachmentsIn, PagesIn, Urls;
      ghost var queue0, seen0, depthOf0, followed0, loaded0 := queue, seen, depthOf, followed, loaded;
      AttemptedAreSeen();
      var batch, popped;
      error, batch, popped := DrainFrontier(round);
      if error.Some? { return; }
      ghost var pushed: seq<Entry> := [];
      ghost var left := queue;
      BatchEntries(w, batch, round, seen0, seen, depthOf0);
      if batch != [] {
        error, pushed := RunBatch(batch, round);
        if error.Some? { return; }
      } else {
        EmptyBatch(w, request, round, seen);
      }
      assert followed0 + {} == followed0 && loaded0 + {} == loaded0 && queue0[..|queue0|] == queue0;
      if w.Honest() {
        OpenedGrow(w, depthOf0, Urls(batch), round);
        RoundSound(w, request, round, queue0, popped, seen0, batch, depthOf0, followed0);
        if popped == |queue0| {
          RoundLayered(w, request, round, queue0, seen0, batch, depthOf0, pushed);
        }
      }
      assert popped == |queue0| ==> left == [] && queue == pushed;
    }

    lemma AttemptedAreSeen()
      requires Valid()
      ensures loaded <= seen
    {
    }

    /** What the books say of the artifacts. */
    lemma Accounted()
      requires Valid()
      ensures Complete() && attachments == |WantedOf(tried)|
      ensures w.Honest() ==> succeeded == |loaded| && (NoRepeat(request.outputKinds) ==> Once())
    {
      hide SourceOk, Writes, ArtifactOf, Ledger, HandledBy, World.Honest, WantedOf;
      forall i | 0 <= i < |artifacts| ensures ComesFrom(registry.byUrl, loaded, artifacts[i], i + 1) {
        assert story[i] in story && artifacts[i] == ArtifactOf(w, i + 1, story[i]);
      }
      forall u <- loaded, kind <- request.outputKinds | Writes(w, request, u, kind) ensures Holds(PageContent(u, kind)) {
        var i :| 0 <= i < |story| && story[i] == PageContent(u, kind);
        assert artifacts[i] == ArtifactOf(w, i + 1, story[i]);
      }
      assert AreArtifactsOf(w, artifacts, story);
    }

    lemma Ending()
      requires Valid()
      ensures forall i, j | 0 <= i < j < |artifacts| :: artifacts[i].fileName != artifacts[j].fileName
      ensures forall m <- registry.manifests, p :: p in m.parentCanonicalUris <==>
              exists a | a in registry.byUrl :: registry.byUrl[a] == m && p in Linkers(w, followed, a)
      ensures forall m <- registry.manifests :: m.artifact in artifacts && exists a | a in registry.byUrl :: registry.byUrl[a] == m
    {
      LedgerNamesDistinct(request, artifacts, totalBytes, directory, occupied);
      hide Ledger, Counts, Successes, Told, Handled;
      forall m <- registry.manifests, p
        ensures p in m.parentCanonicalUris <==> exists a | a in registry.byUrl :: registry.byUrl[a] == m && p in Linkers(w, followed, a)
      {
        assert forall a :: registry.ParentsOf(a) == Linkers(w, followed, a);
        assert p in m.parentCanonicalUris <==> registry.Owed(m, p);
      }
    }
  }

  lemma OpenedGrow(w: World, depthOf: map<Url, nat>, urls: set<Url>, round: nat)
    ensures Opened(w, AtDepth(depthOf, urls, round).Keys) == Opened(w, depthOf.Keys) + Opened(w, urls)
  {
  }

  function SeedEntries(w: World, seeds: seq<Url>): (queue: seq<Entry>)
    ensures Urls(queue) == (set u <- seeds) && forall e <- queue :: EntryOk(w, e) && e.depth == 0
  {
    if seeds == [] then []
    else
      var init, last := seeds[..|seeds| - 1], seeds[|seeds| - 1];
      assert seeds == init + [last];
      UrlsAppend(SeedEntries(w, init), Entry(last, 0, w.host(last)));
      SeedEntries(w, init) + [Entry(last, 0, w.host(last))]
  }

  lemma NothingPopped(w: World, depthOf: map<Url, nat>, round: nat, seen: set<Url>)
    ensures BatchOk(w, [], round, seen, seen) && depthOf == AtDepth(depthOf, Urls([]), round)
    ensures seen == seen + Urls([])
  {
  }

  lemma UrlsAppend(batch: seq<Entry>, e: Entry)
    ensures Urls(batch + [e]) == Urls(batch) + {e.url}
  {
    assert (batch + [e])[|batch|] == e;
    assert forall x <- batch :: x in batch + [e];
  }

  lemma BatchGrows(w: World, round: nat, before: set<Url>, seen: set<Url>, batch: seq<Entry>, e: Entry)
    requires BatchOk(w, batch, round, before, seen) && before <= seen
    requires EntryOk(w, e) && e.depth == round && e.url !in seen && w.kindOf(e.url).None?
    ensures BatchOk(w, batch + [e], round, before, seen + {e.url})
  {
    UrlsAppend(batch, e);
    NewPages(w, before, seen, e.url);
    assert forall b <- batch :: b.url in Urls(batch);
    hide Urls, PagesIn, EntryOk;
  }

  lemma BatchStays(w: World, round: nat, before: set<Url>, seen: set<Url>, batch: seq<Entry>, u: Url)
    requires BatchOk(w, batch, round, before, seen) && before <= seen && (u in seen || w.kindOf(u).Some?)
    ensures BatchOk(w, batch, round, before, seen + {u})
  {
    NewPages(w, before, seen, u);
    hide Urls, PagesIn, EntryOk;
  }

  lemma OnePopped(w: World, depthOf: map<Url, nat>, round: nat, before: set<Url>, seen: set<Url>, batch: seq<Entry>, e: Entry)
    requires BatchOk(w, batch, round, before, seen) && before <= seen
    requires EntryOk(w, e) && e.depth == round
    ensures var page := e.url !in seen && w.kindOf(e.url).None?;
            var next := if page then batch + [e] else batch;
            && BatchOk(w, next, round, before, seen + {e.url})
            && AtDepth(depthOf, Urls(next), round) == if page then AtDepth(depthOf, Urls(batch), round)[e.url := round] else AtDepth(depthOf, Urls(batch), round)
  {
    hide BatchOk, Urls, AtDepth;
    if e.url !in seen && w.kindOf(e.url).None? {
      BatchGrows(w, round, before, seen, batch, e);
      UrlsAppend(batch, e);
      DepthsGrow(depthOf, Urls(batch), e.url, round);
    } else {
      BatchStays(w, round, before, seen, batch, e.url);
    }
  }

  lemma DepthsGrow(depthOf: map<Url, nat>, urls: set<Url>, u: Url, round: nat)
    ensures AtDepth(depthOf, urls + {u}, round) == AtDepth(depthOf, urls, round)[u := round]
  {
  }

  lemma NewPages(w: World, before: set<Url>, seen: set<Url>, u: Url)
    requires before <= seen
    ensures PagesIn(w, seen + {u} - before) == PagesIn(w, seen - before) + if u !in seen && w.kindOf(u).None? then {u} else {}
    ensures u !in seen ==> u !in PagesIn(w, seen - before)
  {
  }

  /** The pages among what was popped, each once. */
  ghost predicate BatchOk(w: World, batch: seq<Entry>, round: nat, before: set<Url>, seen: set<Url>) {
    && (forall i, j | 0 <= i < j < |batch| :: batch[i].url != batch[j].url)
    && (forall e <- batch :: EntryOk(w, e) && e.depth == round)
    && Urls(batch) == PagesIn(w, seen - before)
  }

  function AtDepth(depthOf: map<Url, nat>, urls: set<Url>, depth: nat): map<Url, nat> {
    map u | u in depthOf.Keys + urls :: if u in urls then depth else depthOf[u]
  }

  // ---------------------------------------------------------------- following links

  ghost predicate ParentsAre(w: World, parents: map<Url, set<Url>>, followed: set<Url>) {
    forall a :: Recorded(parents, a) == Linkers(w, followed, a)
  }

  /** As `ParentsAre`, with the links `part` of one more page recorded. */
  ghost predicate PartParents(w: World, parents: map<Url, set<Url>>, followed: set<Url>, final: Url, part: set<Url>) {
    forall a :: Recorded(parents, a) == Linkers(w, followed, a) + if w.kindOf(a).Some? && a in part then {final} else {}
  }

  ghost predicate PushedOk(w: World, pushed: seq<Entry>, depth: nat, urls: set<Url>) {
    Urls(pushed) == urls && forall e <- pushed :: EntryOk(w, e) && e.depth == depth
  }

  lemma NoLinks(w: World, parents: map<Url, set<Url>>, followed: set<Url>, final: Url, depth: nat, seen: set<Url>)
    requires ParentsAre(w, parents, followed)
    ensures PartParents(w, parents, followed, final, {})
    ensures PushedOk(w, [], depth, {} - seen)
  {
  }

  lemma OneMoreLink(w: World, u: Url, links: seq<Option<Url>>, link: Option<Url>)
    ensures FollowedLinks(w, u, links + [link]) == FollowedLinks(w, u, links) + if w.Follows(u, link) then {link.value} else {}
  {
    assert (links + [link])[|links|] == link;
    assert forall l <- links :: l in links + [link];
  }

  lemma RecordStep(w: World, parents: map<Url, set<Url>>, followed: set<Url>, final: Url, part: set<Url>, v: Url)
    requires PartParents(w, parents, followed, final, part)
    ensures PartParents(w, if w.kindOf(v).Some? then parents[v := Recorded(parents, v) + {final}] else parents, followed, final, part + {v})
  {
    hide Linkers;
  }

  lemma PushStep(w: World, pushed: seq<Entry>, depth: nat, part: set<Url>, seen: set<Url>, v: Url)
    requires PushedOk(w, pushed, depth, part - seen) && depth > 0 && w.allowed(v)
    ensures PushedOk(w, if v !in seen then pushed + [Entry(v, depth, w.host(v))] else pushed, depth, part + {v} - seen)
  {
    UrlsAppend(pushed, Entry(v, depth, w.host(v)));
  }

  lemma RecordDone(w: World, parents: map<Url, set<Url>>, followed: set<Url>, u: Url)
    requires w.Opens(u) && PartParents(w, parents, followed, w.page(u).final, w.Neighbours(u))
    ensures ParentsAre(w, parents, followed + {u})
  {
    hide Linkers, World.Neighbours, World.Opens;
    forall a {
      LinkersGrow(w, followed, u, a);
    }
  }

  lemma LinkersGrow(w: World, followed: set<Url>, u: Url, a: Url)
    requires w.Opens(u)
    ensures Linkers(w, followed + {u}, a) == Linkers(w, followed, a) + if w.kindOf(a).Some? && a in w.Neighbours(u) then {w.page(u).final} else {}
  {
    hide World.Neighbours;
  }

  // ---------------------------------------------------------------- batches

  /** What the pages `urls` of one round lead to. */
  function NewLinks(w: World, maxDepth: nat, depth: nat, urls: set<Url>): set<Url> {
    if depth < maxDepth then w.NeighboursOf(urls) else {}
  }

  /** Those of them whose links are followed. */
  function Expanded(w: World, maxDepth: nat, depth: nat, urls: set<Url>): set<Url> {
    if depth < maxDepth then set u <- urls | w.Opens(u) else {}
  }

  function UrlList(batch: seq<Entry>): (urls: seq<Url>)
    ensures |urls| == |batch| && forall i | 0 <= i < |batch| :: urls[i] == batch[i].url
  {
    seq(|batch|, i requires 0 <= i < |batch| => batch[i].url)
  }

  /** `batch_context.get` */
  function Context(batch: seq<Entry>, url: Url): (e: Option<Entry>)
    ensures e.Some? ==> e.value in batch && e.value.url == url
    ensures e.None? ==> url !in Urls(batch)
  {
    if batch == [] then None
    else if batch[|batch| - 1].url == url then Some(batch[|batch| - 1])
    else
      assert batch == batch[..|batch| - 1] + [batch[|batch| - 1]];
      Context(batch[..|batch| - 1], url)
  }

  lemma ResultOfOne(w: World, maxDepth: nat, e: Entry, seen: set<Url>)
    requires EntryOk(w, e)
    ensures NewLinks(w, maxDepth, e.depth, {e.url}) == if e.depth < maxDepth then w.Neighbours(e.url) else {}
    ensures Expanded(w, maxDepth, e.depth, {e.url}) == if e.depth < maxDepth && w.Opens(e.url) then {e.url} else {}
    ensures PushedOk(w, [], e.depth + 1, {} - seen) && PushedOk(w, [], e.depth + 1, {})
  {
  }

  lemma NoAnswers(w: World, maxDepth: nat, round: nat, seen: set<Url>)
    ensures PushedOk(w, [], round + 1, NewLinks(w, maxDepth, round, {}) - seen)
    ensures Expanded(w, maxDepth, round, {}) == {}
  {
  }

  lemma WithinDepth(w: World, pushed: seq<Entry>, maxDepth: nat, round: nat, returned: set<Url>, seen: set<Url>)
    requires PushedOk(w, pushed, round + 1, NewLinks(w, maxDepth, round, returned) - seen)
    ensures forall e <- pushed :: EntryOk(w, e) && e.depth == round + 1
    ensures pushed != [] ==> round + 1 <= maxDepth
  {
    assert pushed != [] ==> pushed[0].url in Urls(pushed);
    assert forall e <- pushed :: e.url in Urls(pushed);
  }

  lemma MoreAnswers(w: World, maxDepth: nat, round: nat, returned: set<Url>, url: Url, seen: set<Url>, pushed: seq<Entry>, more: seq<Entry>)
    requires PushedOk(w, pushed, round + 1, NewLinks(w, maxDepth, round, returned) - seen)
    requires PushedOk(w, more, round + 1, NewLinks(w, maxDepth, round, {url}) - seen)
    ensures PushedOk(w, pushed + more, round + 1, NewLinks(w, maxDepth, round, returned + {url}) - seen)
    ensures Expanded(w, maxDepth, round, returned + {url}) == Expanded(w, maxDepth, round, returned) + Expanded(w, maxDepth, round, {url})
  {
    assert Urls(pushed + more) == Urls(pushed) + Urls(more) by {
      assert forall e :: e in pushed + more <==> e in pushed || e in more;
    }
    assert w.NeighboursOf(returned + {url}) == w.NeighboursOf(returned) + w.NeighboursOf({url});
  }

  lemma RaisedBatch(w: World, batch: seq<Entry>, urls: seq<Url>, maxDepth: nat, round: nat, seen: set<Url>)
    requires |urls| == |batch| && (forall i | 0 <= i < |batch| :: urls[i] == batch[i].url) && w.reply(urls).None?
    ensures w.Honest() ==> PushedOk(w, [], round + 1, NewLinks(w, maxDepth, round, Urls(batch)) - seen)
    ensures w.Honest() ==> Expanded(w, maxDepth, round, Urls(batch)) == {} && Opened(w, Urls(batch)) == {}
  {
    if w.Honest() {
      assert w.HonestReply(urls);
      assert forall e <- batch :: e.url in urls;
    }
  }

  lemma AnsweredBatch(w: World, batch: seq<Entry>, urls: seq<Url>, maxDepth: nat, round: nat, returned: set<Url>)
    requires |urls| == |batch| && forall i | 0 <= i < |batch| :: urls[i] == batch[i].url
    requires forall i, j | 0 <= i < j < |batch| :: batch[i].url != batch[j].url
    requires w.Honest() && w.reply(urls).Some? && returned == Members(w.reply(urls).value)
    ensures |w.reply(urls).value| + |Urls(batch) - returned| == |batch|
    ensures NewLinks(w, maxDepth, round, returned) == NewLinks(w, maxDepth, round, Urls(batch))
    ensures Expanded(w, maxDepth, round, returned) == Expanded(w, maxDepth, round, Urls(batch))
    ensures Opened(w, returned) == Opened(w, Urls(batch))
  {
    assert w.HonestReply(urls);
    UrlsAreMembers(batch, urls);
    DistinctCount(urls);
    DistinctCount(w.reply(urls).value);
    assert returned <= Urls(batch);
    assert |Urls(batch) - returned| == |Urls(batch)| - |returned|;
    assert forall u <- Urls(batch) - returned :: w.page(u) == Missing;
    hide Urls, Members, World.Honest, World.HonestReply;
    MissingLeadNowhere(w, maxDepth, round, returned, Urls(batch));
  }

  lemma HonestAnswers(w: World, batch: seq<Entry>, urls: seq<Url>)
    requires |urls| == |batch| && forall i | 0 <= i < |batch| :: urls[i] == batch[i].url
    requires w.Honest() && w.reply(urls).Some?
    ensures NoRepeat(w.reply(urls).value) && forall u <- w.reply(urls).value :: u in Urls(batch)
  {
    assert w.HonestReply(urls);
    UrlsAreMembers(batch, urls);
  }

  lemma UrlsAreMembers(batch: seq<Entry>, urls: seq<Url>)
    requires |urls| == |batch| && forall i | 0 <= i < |batch| :: urls[i] == batch[i].url
    ensures Urls(batch) == Members(urls)
  {
    assert forall e <- batch :: e.url in urls;
  }

  lemma MissingLeadNowhere(w: World, maxDepth: nat, round: nat, returned: set<Url>, asked: set<Url>)
    requires returned <= asked && forall u <- asked - returned :: w.page(u) == Missing
    ensures NewLinks(w, maxDepth, round, returned) == NewLinks(w, maxDepth, round, asked)
    ensures Expanded(w, maxDepth, round, returned) == Expanded(w, maxDepth, round, asked)
    ensures Opened(w, returned) == Opened(w, asked)
  {
    assert w.NeighboursOf(asked) == w.NeighboursOf(returned);
  }

  // ---------------------------------------------------------------- rounds

  /** Pages were attempted at their distance from the seeds, and exactly the successful ones short
      of the depth limit were followed. */
  ghost predicate Sound(w: World, request: Request, depthOf: map<Url, nat>, followed: set<Url>) {
    && (forall u | u in depthOf :: w.Distance(request.seeds, u, depthOf[u]) && depthOf[u] <= request.maxDepth)
    && followed == set u | u in depthOf.Keys && w.Opens(u) && depthOf[u] < request.maxDepth
  }

  ghost predicate Layered(w: World, request: Request, round: nat, queue: seq<Entry>, seen: set<Url>, depthOf: map<Url, nat>) {
    AtHead(w, request.seeds, request.maxDepth, round, queue, seen) && depthOf.Keys == PagesIn(w, seen)
  }

  lemma Beginning(w: World, request: Request)
    ensures Layered(w, request, 0, SeedEntries(w, request.seeds), {}, map[])
    ensures Sound(w, request, map[], {}) && AttachmentsIn(w, {}) == {} && Opened(w, {}) == {}
  {
  }

  lemma BatchEntries(w: World, batch: seq<Entry>, round: nat, before: set<Url>, seen: set<Url>, depthOf: map<Url, nat>)
    requires BatchOk(w, batch, round, before, seen)
    ensures forall i, j | 0 <= i < j < |batch| :: batch[i].url != batch[j].url
    ensures forall e <- batch :: EntryOk(w, e) && e.depth == round
    ensures Urls(batch) <= AtDepth(depthOf, Urls(batch), round).Keys && Urls(batch) !! before
    ensures batch == [] ==> Opened(w, Urls(batch)) == {}
  {
  }

  lemma EmptyBatch(w: World, request: Request, round: nat, seen: set<Url>)
    ensures PushedOk(w, [], round + 1, NewLinks(w, request.maxDepth, round, Urls([])) - seen)
    ensures Expanded(w, request.maxDepth, round, Urls([])) == {}
  {
  }

  lemma RoundSound(w: World, request: Request, round: nat, queue: seq<Entry>, popped: nat, seen: set<Url>, batch: seq<Entry>, depthOf: map<Url, nat>, followed: set<Url>)
    requires Layered(w, request, round, queue, seen, depthOf) && queue != [] && popped <= |queue|
    requires BatchOk(w, batch, round, seen, seen + Urls(queue[..popped])) && Sound(w, request, depthOf, followed)
    ensures Sound(w, request, AtDepth(depthOf, Urls(batch), round), followed + Expanded(w, request.maxDepth, round, Urls(batch)))
  {
    BatchIsAtDistance(w, request, round, queue, popped, seen, batch, depthOf);
    hide Layered, BatchOk, Urls, World.Distance, World.Opens;
    SoundGrows(w, request, round, Urls(batch), depthOf, followed);
  }

  lemma BatchIsAtDistance(w: World, request: Request, round: nat, queue: seq<Entry>, popped: nat, seen: set<Url>, batch: seq<Entry>, depthOf: map<Url, nat>)
    requires Layered(w, request, round, queue, seen, depthOf) && queue != [] && popped <= |queue|
    requires BatchOk(w, batch, round, seen, seen + Urls(queue[..popped]))
    ensures round <= request.maxDepth && forall u <- Urls(batch) :: u !in depthOf && w.Distance(request.seeds, u, round)
  {
    assert Urls(queue[..popped]) <= Urls(queue);
    assert forall u <- Urls(batch) :: u in Urls(queue) && u !in seen;
  }

  lemma SoundGrows(w: World, request: Request, round: nat, urls: set<Url>, depthOf: map<Url, nat>, followed: set<Url>)
    requires Sound(w, request, depthOf, followed) && round <= request.maxDepth
    requires forall u <- urls :: u !in depthOf && w.Distance(request.seeds, u, round)
    ensures Sound(w, request, AtDepth(depthOf, urls, round), followed + Expanded(w, request.maxDepth, round, urls))
  {
    hide World.Distance, World.Opens;
  }

  /** The links of a round are those of its pages: attachments lead nowhere. */
  lemma LinksOfPages(w: World, batch: seq<Entry>, round: nat, seen: set<Url>, more: set<Url>)
    requires BatchOk(w, batch, round, seen, seen + more)
    ensures w.NeighboursOf(Urls(batch)) == w.NeighboursOf(more - seen)
    ensures PagesIn(w, seen + more) == PagesIn(w, seen) + Urls(batch)
  {
    hide Urls, EntryOk;
    assert Urls(batch) == PagesIn(w, more - seen);
    assert forall u <- more - seen | u !in Urls(batch) :: w.Neighbours(u) == {};
  }

  lemma RoundLayered(w: World, request: Request, round: nat, queue: seq<Entry>, seen: set<Url>, batch: seq<Entry>, depthOf: map<Url, nat>, pushed: seq<Entry>)
    requires Layered(w, request, round, queue, seen, depthOf) && queue != []
    requires BatchOk(w, batch, round, seen, seen + Urls(queue))
    requires PushedOk(w, pushed, round + 1, NewLinks(w, request.maxDepth, round, Urls(batch)) - (seen + Urls(queue)))
    ensures Layered(w, request, round + 1, pushed, seen + Urls(queue), AtDepth(depthOf, Urls(batch), round))
  {
    LinksOfPages(w, batch, round, seen, Urls(queue));
    assert pushed != [] ==> pushed[0].url in Urls(pushed);
    hide BatchOk, PagesIn, EntryOk, World.NeighboursOf, World.Level, Urls;
    NextHead(w, request.seeds, request.maxDepth, round, queue, seen, pushed);
    hide AtHead;
  }

  lemma Reached(w: World, request: Request, round: nat, seen: set<Url>, depthOf: map<Url, nat>)
    requires Layered(w, request, round, [], seen, depthOf)
    ensures depthOf.Keys == PagesIn(w, w.Level(request.seeds, request.maxDepth)) && seen == w.Level(request.seeds, request.maxDepth)
  {
    DrainedMeansReached(w, request.seeds, request.maxDepth, round, seen);
  }
}
