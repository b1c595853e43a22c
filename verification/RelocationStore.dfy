/** Content-addressed trees (`workers/local_folder/ukipo_visual_relocate.py:38-106`): object names,
    the check of a whole tree, and the inventory that stands for it. */
module RelocationStore {
  import opened Common

  /** The files below a root, by relative path. */
  type Tree = map<string, string>

  /** The hash and the directory listing; listing a tree names each of its files once. */
  datatype World = World(sha: string -> string, listing: Tree -> seq<string>)
  {
    ghost predicate Valid() {
      && (forall x, y | sha(x) == sha(y) :: x == y)
      && forall tree :: Lists(listing(tree), tree)
    }
  }

  ghost predicate Lists(paths: seq<string>, tree: Tree) {
    && (forall i, j | 0 <= i < j < |paths| :: paths[i] != paths[j])
    && forall p :: p in paths <==> p in tree
  }

  // ---------------------------------------------------------------- names

  predicate Hex(c: char) {
    '0' <= c <= '9' || 'a' <= c <= 'f'
  }

  function ObjectPath(digest: string, extension: string): string
    requires |digest| == 64
  {
    "sha256/" + digest[..2] + "/" + digest[2..4] + "/" + digest + "." + extension
  }

  /** The digest a path names, if it is an object's path: the pattern and the two shard checks. */
  function Named(path: string): Option<string> {
    if |path| != 81 then None
    else
      var digest, extension := path[13..77], path[78..];
      if (forall c <- digest :: Hex(c)) && extension in ["jpg", "png", "gif"] && path == ObjectPath(digest, extension)
      then Some(digest) else None
  }

  predicate IsTemp(path: string) {
    |path| >= 4 && path[|path| - 4..] == ".tmp"
  }

  /** The name of a temporary file in the directory of an object. */
  function TempName(path: string, digest: string, salt: string): string
    requires |path| >= 13
  {
    path[..13] + digest + "." + salt + ".tmp"
  }

  lemma TempNameIsTemp(path: string, digest: string, salt: string)
    requires |path| >= 13
    ensures IsTemp(TempName(path, digest, salt))
  {
    var head := path[..13] + digest + "." + salt;
    assert TempName(path, digest, salt) == head + ".tmp";
  }

  /** A leftover temporary file is no object, so a tree holding one is refused. */
  lemma TempIsNoObject(path: string)
    requires IsTemp(path)
    ensures Named(path).None?
  {
    if |path| == 81 {
      assert path[78..] == path[77..][1..] == "tmp";
    }
  }

  /** Each digest and kind of picture has one path, and object paths hold no NUL. */
  lemma ObjectNames(path: string, digest: string, extension: string)
    ensures |digest| == 64 && (forall c <- digest :: Hex(c)) && extension in ["jpg", "png", "gif"] ==>
              Named(ObjectPath(digest, extension)) == Some(digest)
    ensures Named(path).Some? ==> '\0' !in path
  {
    if |digest| == 64 && extension in ["jpg", "png", "gif"] {
      var p := ObjectPath(digest, extension);
      assert |p| == 81 && p[13..77] == digest && p[78..] == extension;
    }
    if Named(path).Some? {
      var d, e := path[13..77], path[78..];
      assert path == ObjectPath(d, e) && '\0' !in e;
      assert forall c <- d[..2] :: c in d;
      assert forall c <- d[2..4] :: c in d;
      assert '\0' !in d;
    }
  }

  // ---------------------------------------------------------------- checked objects

  datatype Object = Object(relative: string, digest: string, size: nat)

  function CheckOne(w: World, path: string, content: string): Option<Object> {
    var digest := Named(path);
    if digest.None? || content == "" || w.sha(content) != digest.value then None
    else Some(Object(path, digest.value, |content|))
  }

  function CheckAll(w: World, tree: Tree, paths: seq<string>): Option<seq<Object>>
    requires forall p <- paths :: p in tree
  {
    if paths == [] then Some([])
    else
      var init, last := CheckAll(w, tree, paths[..|paths| - 1]), paths[|paths| - 1];
      if init.None? || CheckOne(w, last, tree[last]).None? then None
      else Some(init.value + [CheckOne(w, last, tree[last]).value])
  }

  /** `checked_cas_objects` with content verification: `None` where it raises. */
  method CheckedObjects(w: World, tree: Tree) returns (objects: Option<seq<Object>>)
    requires w.Valid()
    ensures objects == Checked(w, tree)
  {
    hide CheckOne, CheckAll, Checked, Lists, World.Valid;
    var paths := w.listing(tree);
    ListedPaths(w, tree, paths);
    var found: seq<Object> := [];
    CheckNone(w, tree, paths);
    for i := 0 to |paths|
      invariant CheckAll(w, tree, paths[..i]) == Some(found)
    {
      CheckOneMore(w, tree, paths, i);
      var one := CheckOne(w, paths[i], tree[paths[i]]);
      if one.None? {
        CheckFailsOn(w, tree, paths, i + 1);
        return None;
      }
      found := found + [one.value];
    }
    assert paths[..|paths|] == paths;
    return Some(found);
  }

  lemma ListedPaths(w: World, tree: Tree, paths: seq<string>)
    requires w.Valid() && paths == w.listing(tree)
    ensures (forall p <- paths :: p in tree) && Checked(w, tree) == CheckAll(w, tree, paths)
  {
    assert Lists(paths, tree);
    hide CheckAll;
  }

  lemma CheckNone(w: World, tree: Tree, paths: seq<string>)
    requires forall p <- paths :: p in tree
    ensures CheckAll(w, tree, paths[..0]) == Some([])
  {
  }

  lemma CheckOneMore(w: World, tree: Tree, paths: seq<string>, i: nat)
    requires i < |paths| && forall p <- paths :: p in tree
    ensures var (init, one) := (CheckAll(w, tree, paths[..i]), CheckOne(w, paths[i], tree[paths[i]]));
            CheckAll(w, tree, paths[..i + 1]) == if init.None? || one.None? then None else Some(init.value + [one.value])
  {
    hide CheckOne;
    assert paths[..i + 1][..i] == paths[..i];
  }

  lemma {:induction false} CheckFailsOn(w: World, tree: Tree, paths: seq<string>, n: nat)
    requires n <= |paths| && (forall p <- paths :: p in tree) && CheckAll(w, tree, paths[..n]).None?
    ensures CheckAll(w, tree, paths).None?
    decreases |paths| - n
  {
    if n < |paths| {
      assert paths[..n + 1][..n] == paths[..n];
      CheckFailsOn(w, tree, paths, n + 1);
    } else {
      assert paths[..n] == paths;
    }
  }

  ghost function Checked(w: World, tree: Tree): Option<seq<Object>>
    requires w.Valid()
  {
    assert Lists(w.listing(tree), tree);
    CheckAll(w, tree, w.listing(tree))
  }

  /** A checked list describes the tree: every file is an object, once, with its size and digest. */
  ghost predicate Describes(w: World, objects: seq<Object>, tree: Tree) {
    && (forall i, j | 0 <= i < j < |objects| :: objects[i].relative != objects[j].relative)
    && (forall o <- objects :: o.relative in tree && IsSound(w, o, tree[o.relative]))
    && forall p | p in tree :: exists o <- objects :: o.relative == p
  }

  predicate IsSound(w: World, o: Object, content: string) {
    Named(o.relative) == Some(o.digest) && content != "" && |content| == o.size && w.sha(content) == o.digest
  }

  lemma {:induction false} CheckAllShape(w: World, tree: Tree, paths: seq<string>)
    requires forall p <- paths :: p in tree
    ensures CheckAll(w, tree, paths).Some? <==> forall p <- paths :: CheckOne(w, p, tree[p]).Some?
    ensures CheckAll(w, tree, paths).Some? ==>
              var objects := CheckAll(w, tree, paths).value;
              |objects| == |paths| && forall i | 0 <= i < |paths| :: CheckOne(w, paths[i], tree[paths[i]]) == Some(objects[i])
    decreases |paths|
  {
    if paths != [] {
      var init, last := paths[..|paths| - 1], paths[|paths| - 1];
      CheckAllShape(w, tree, init);
      assert paths == init + [last];
    }
  }

  /** The check passes exactly when every file is an object with its digest's content, and then the
      list describes the tree. */
  lemma CheckedDescribes(w: World, tree: Tree)
    requires w.Valid()
    ensures Checked(w, tree).Some? <==> forall p | p in tree :: CheckOne(w, p, tree[p]).Some?
    ensures Checked(w, tree).Some? ==> Describes(w, Checked(w, tree).value, tree)
  {
    var paths := w.listing(tree);
    assert Lists(paths, tree);
    CheckAllShape(w, tree, paths);
    hide CheckOne, CheckAll;
    if Checked(w, tree).Some? {
      ListDescribes(w, tree, paths, Checked(w, tree).value);
    }
  }

  lemma ListDescribes(w: World, tree: Tree, paths: seq<string>, objects: seq<Object>)
    requires Lists(paths, tree) && |objects| == |paths|
    requires forall i | 0 <= i < |paths| :: CheckOne(w, paths[i], tree[paths[i]]) == Some(objects[i])
    ensures Describes(w, objects, tree)
  {
    forall i | 0 <= i < |paths| ensures objects[i].relative == paths[i] && IsSound(w, objects[i], tree[paths[i]]) {
      OneIsSound(w, paths[i], tree[paths[i]], objects[i]);
    }
    hide CheckOne, IsSound;
    forall p | p in tree ensures exists o <- objects :: o.relative == p {
      var i :| 0 <= i < |paths| && paths[i] == p;
      assert objects[i] in objects;
    }
  }

  lemma OneIsSound(w: World, path: string, content: string, o: Object)
    requires CheckOne(w, path, content) == Some(o)
    ensures o.relative == path && IsSound(w, o, content)
  {
    hide Named;
  }

  // ---------------------------------------------------------------- the inventory

  datatype Facts = Facts(count: nat, bytes: nat, index: string)

  /** The bytes that are hashed for one object. */
  function Line(o: Object): string {
    o.relative + "\0" + Digits(o.size) + "\n"
  }

  function Index(objects: seq<Object>): string {
    if objects == [] then "" else Line(objects[0]) + Index(objects[1..])
  }

  function Bytes(objects: seq<Object>): nat {
    if objects == [] then 0 else objects[0].size + Bytes(objects[1..])
  }

  function Inventory(w: World, objects: seq<Object>): Facts {
    Facts(|objects|, Bytes(objects), w.sha(Index(objects)))
  }

  /** `inventory`: one pass that counts, adds up and hashes. */
  method TakeInventory(w: World, objects: seq<Object>) returns (facts: Facts)
    ensures facts == Inventory(w, objects)
  {
    var count, total, index := 0, 0, "";
    for i := 0 to |objects|
      invariant count == i
      invariant total + Bytes(objects[i..]) == Bytes(objects)
      invariant index + Index(objects[i..]) == Index(objects)
    {
      assert objects[i..][1..] == objects[i + 1..];
      assert index + (Line(objects[i]) + Index(objects[i + 1..])) == Index(objects);
      count, total, index := count + 1, total + objects[i].size, index + Line(objects[i]);
    }
    assert index + Index([]) == index && objects[|objects|..] == [];
    return Facts(count, total, w.sha(index));
  }

  /** A text ends at the first separator. */
  lemma SplitAt(a: string, x: string, b: string, y: string, c: char)
    requires c !in a && c !in b && a + [c] + x == b + [c] + y
    ensures a == b && x == y
  {
    var s, t := a + [c] + x, b + [c] + y;
    assert s[|a|] == c && t[|b|] == c;
    assert forall i | 0 <= i < |a| :: s[i] == a[i] && a[i] in a;
    assert forall i | 0 <= i < |b| :: t[i] == b[i] && b[i] in b;
    assert |a| == |b|;
    assert s[..|a|] == a && t[..|b|] == b && s[|a| + 1..] == x && t[|b| + 1..] == y;
  }

  lemma FirstLine(o: Object, x: string, q: Object, y: string)
    requires '\0' !in o.relative && '\0' !in q.relative && Line(o) + x == Line(q) + y
    ensures o.relative == q.relative && o.size == q.size && x == y
  {
    assert Line(o) + x == o.relative + "\0" + (Digits(o.size) + "\n" + x);
    assert Line(q) + y == q.relative + "\0" + (Digits(q.size) + "\n" + y);
    SplitAt(o.relative, Digits(o.size) + "\n" + x, q.relative, Digits(q.size) + "\n" + y, '\0');
    SplitAt(Digits(o.size), x, Digits(q.size), y, '\n');
    DigitsValue(o.size);
    DigitsValue(q.size);
  }

  /** The hashed text determines the paths and sizes, in order. */
  lemma {:induction false} IndexInjective(a: seq<Object>, b: seq<Object>)
    requires (forall o <- a :: '\0' !in o.relative) && (forall o <- b :: '\0' !in o.relative)
    requires Index(a) == Index(b)
    ensures |a| == |b| && forall i | 0 <= i < |a| :: a[i].relative == b[i].relative && a[i].size == b[i].size
    decreases |a|
  {
    if a != [] && b != [] {
      assert a[0] in a && b[0] in b;
      FirstLine(a[0], Index(a[1..]), b[0], Index(b[1..]));
      IndexInjective(a[1..], b[1..]);
      assert a == [a[0]] + a[1..] && b == [b[0]] + b[1..];
    }
  }

  /** Two checked trees with the same inventory are the same tree, byte for byte. */
  lemma SameInventorySameTree(w: World, s: Tree, t: Tree)
    requires w.Valid() && Checked(w, s).Some? && Checked(w, t).Some?
    ensures Inventory(w, Checked(w, s).value) == Inventory(w, Checked(w, t).value) <==> s == t
  {
    hide Describes, Checked, Index;
    var a, b := Checked(w, s).value, Checked(w, t).value;
    CheckedDescribes(w, s);
    CheckedDescribes(w, t);
    if Inventory(w, a) == Inventory(w, b) {
      NoNul(w, a, s);
      NoNul(w, b, t);
      IndexInjective(a, b);
      Aligned(w, s, t, a, b);
      Aligned(w, t, s, b, a);
      assert s == t;
    }
  }

  lemma NoNul(w: World, objects: seq<Object>, tree: Tree)
    requires Describes(w, objects, tree)
    ensures forall o <- objects :: '\0' !in o.relative
  {
    forall o <- objects ensures '\0' !in o.relative {
      ObjectNames(o.relative, "", "");
    }
  }

  lemma Aligned(w: World, s: Tree, t: Tree, a: seq<Object>, b: seq<Object>)
    requires w.Valid() && Describes(w, a, s) && Describes(w, b, t) && |a| == |b|
    requires forall i | 0 <= i < |a| :: a[i].relative == b[i].relative
    ensures forall p | p in s :: p in t && s[p] == t[p]
  {
    hide Named;
    forall p | p in s ensures p in t && s[p] == t[p] {
      var o :| o in a && o.relative == p;
      var i :| 0 <= i < |a| && a[i] == o;
      assert b[i] in b && b[i].relative == p;
      assert w.sha(s[p]) == w.sha(t[p]);
    }
  }
}
