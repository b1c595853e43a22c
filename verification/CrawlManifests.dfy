/** Attachment manifests (`workers/crawl4ai/acquire.py:304-333`). Pages that link to an attachment
    are recorded per URL, before or after the attachment is fetched; URLs whose bytes are equal share
    one manifest object, which is changed in place. */
module CrawlManifests {
  import opened Common

  type Url = string

  /** `sorted` of a set: each text strictly before the next. */
  ghost predicate StrictlySorted(uris: seq<Url>) {
    forall i, j | 0 <= i < j < |uris| :: LexLess(uris[i], uris[j])
  }

  /** There is only one sorted list of a set's members. */
  lemma {:induction false} SortedListIsUnique(a: seq<Url>, b: seq<Url>)
    requires StrictlySorted(a) && StrictlySorted(b) && forall x :: x in a <==> x in b
    ensures a == b
  {
    if a != [] && b != [] {
      assert a[0] in b && b[0] in a;
      var i :| 0 <= i < |b| && b[i] == a[0];
      var j :| 0 <= j < |a| && a[j] == b[0];
      if i > 0 && j > 0 {
        LexAntisymmetric(a[0], b[0]);
      }
      assert a[0] == b[0];
      forall x ensures x in a[1..] <==> x in b[1..] {
        assert a == [a[0]] + a[1..] && b == [b[0]] + b[1..];
        assert forall k | 0 <= k < |a[1..]| :: a[1..][k] == a[k + 1] != a[0];
        assert forall k | 0 <= k < |b[1..]| :: b[1..][k] == b[k + 1] != b[0];
        assert x in a <==> x in b;
      }
      SortedListIsUnique(a[1..], b[1..]);
    } else {
      NoMembers(a);
      NoMembers(b);
    }
  }

  lemma NoMembers(s: seq<Url>)
    ensures s == [] || exists x :: x in s
  {
    assert s == [] || s[0] in s;
  }

  function InsertUri(uris: seq<Url>, uri: Url): seq<Url> {
    if uris == [] || LexLess(uri, uris[0]) then [uri] + uris else [uris[0]] + InsertUri(uris[1..], uri)
  }

  lemma {:induction false} InsertUriKeeps(uris: seq<Url>, uri: Url)
    requires StrictlySorted(uris) && uri !in uris
    ensures StrictlySorted(InsertUri(uris, uri))
    ensures forall x :: x in InsertUri(uris, uri) <==> x == uri || x in uris
  {
    if uris == [] {
    } else if LexLess(uri, uris[0]) {
      forall j | 0 <= j < |uris| ensures LexLess(uri, uris[j]) {
        if j > 0 {
          LexTransitive(uri, uris[0], uris[j]);
        }
      }
    } else {
      InsertUriKeeps(uris[1..], uri);
      LexTotal(uri, uris[0]);
      var rest := InsertUri(uris[1..], uri);
      assert uris == [uris[0]] + uris[1..];
      forall j | 0 <= j < |rest| ensures LexLess(uris[0], rest[j]) {
        assert rest[j] in rest;
      }
    }
  }

  /** `sorted(uris)`. */
  method Sorted(uris: set<Url>) returns (sorted: seq<Url>)
    ensures StrictlySorted(sorted) && forall x :: x in sorted <==> x in uris
  {
    sorted := [];
    var left := uris;
    while left != {}
      invariant left <= uris && StrictlySorted(sorted)
      invariant forall x :: x in sorted <==> x in uris && x !in left
      decreases left
    {
      var uri :| uri in left;
      InsertUriKeeps(sorted, uri);
      sorted := InsertUri(sorted, uri);
      left := left - {uri};
    }
  }

  /** What a manifest says about an artifact, apart from its parents. */
  datatype Artifact = Artifact(fileName: string, sourceUri: Url, canonicalUri: Url, size: nat, sha256: string)

  /** A manifest object; `parentCanonicalUris` is empty while the key is absent. */
  class Manifest {
    const artifact: Artifact
    var parentCanonicalUris: seq<Url>

    constructor (artifact: Artifact)
      ensures this.artifact == artifact && parentCanonicalUris == []
    {
      this.artifact, parentCanonicalUris := artifact, [];
    }

    /** `_merge_parent_canonical_uris`. */
    method Merge(parents: set<Url>)
      requires StrictlySorted(parentCanonicalUris)
      modifies this
      ensures StrictlySorted(parentCanonicalUris)
      ensures forall p :: p in parentCanonicalUris <==> p in old(parentCanonicalUris) || p in parents
    {
      if parents == {} { return; }
      var existing := set p <- parentCanonicalUris;
      parentCanonicalUris := Sorted(existing + parents);
    }
  }

  function Recorded(parents: map<Url, set<Url>>, url: Url): set<Url> {
    if url in parents then parents[url] else {}
  }

  class ParentRegistry {
    var parents: map<Url, set<Url>>
    var byUrl: map<Url, Manifest>
    ghost var manifests: set<Manifest>

    function ParentsOf(url: Url): set<Url>
      reads this`parents
    {
      Recorded(parents, url)
    }

    /** `parent` was recorded for one of the URLs bound to `manifest`. */
    ghost predicate Owed(manifest: Manifest, parent: Url)
      reads this
    {
      exists url | url in byUrl :: byUrl[url] == manifest && parent in ParentsOf(url)
    }

    /** Each manifest lists, sorted and without repetition, exactly the parents recorded for all
        the URLs bound to it. */
    ghost predicate Valid()
      reads this, manifests
    {
      && (forall url | url in byUrl :: byUrl[url] in manifests)
      && forall m <- manifests ::
        && StrictlySorted(m.parentCanonicalUris)
        && forall p :: p in m.parentCanonicalUris <==> Owed(m, p)
    }

    constructor ()
      ensures Valid() && parents == map[] && byUrl == map[] && manifests == {}
    {
      parents, byUrl, manifests := map[], map[], {};
    }

    /** `_record_attachment_parent`. */
    method RecordParent(url: Url, parent: Url)
      requires Valid()
      modifies this`parents, manifests
      ensures Valid()
      ensures parents == old(parents)[url := old(ParentsOf(url)) + {parent}]
    {
      parents := parents[url := ParentsOf(url) + {parent}];
      assert forall u :: ParentsOf(u) == if u == url then old(ParentsOf(u)) + {parent} else old(ParentsOf(u));
      forall m <- manifests, p
        ensures Owed(m, p) <==> old(Owed(m, p)) || (url in byUrl && byUrl[url] == m && p == parent)
      {
        if old(Owed(m, p)) {
          var u :| u in byUrl && byUrl[u] == m && p in old(ParentsOf(u));
          assert p in ParentsOf(u);
        }
        if url in byUrl && byUrl[url] == m && p == parent {
          assert p in ParentsOf(url);
        }
      }
      if url in byUrl {
        byUrl[url].Merge(ParentsOf(url));
        assert forall p <- old(ParentsOf(url)) :: old(Owed(byUrl[url], p));
      }
    }

    /** `_bind_attachment_manifest`, for a URL fetched now for the first time: the manifest is new,
        or is that of an earlier URL with the same bytes. */
    method Bind(url: Url, manifest: Manifest)
      requires Valid() && url !in byUrl
      requires manifest !in manifests ==> manifest.parentCanonicalUris == []
      modifies this`byUrl, this`manifests, manifest
      ensures Valid()
      ensures byUrl == old(byUrl)[url := manifest] && manifests == old(manifests) + {manifest}
    {
      manifest.Merge(ParentsOf(url));
      byUrl, manifests := byUrl[url := manifest], manifests + {manifest};
      assert manifest !in old(manifests) ==> forall u | u in old(byUrl) :: old(byUrl)[u] != manifest;
      forall m <- manifests, p
        ensures Owed(m, p) <==> (m in old(manifests) && old(Owed(m, p))) || (m == manifest && p in ParentsOf(url))
      {
        if m in old(manifests) && old(Owed(m, p)) {
          var u :| u in old(byUrl) && old(byUrl)[u] == m && p in old(ParentsOf(u));
          assert byUrl[u] == m && p in ParentsOf(u);
        }
        if m == manifest && p in ParentsOf(url) {
          assert byUrl[url] == m;
        }
      }
    }
  }
}
