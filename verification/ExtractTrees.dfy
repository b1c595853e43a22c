/** The extractor's explicit-stack traversals and its page windows
    (`workers/document_extraction/extract.py:177-278, 595-636`). */
module ExtractTrees {
  import opened Common
  import opened ExtractText
  import opened ExtractTable

  /** A JSON value or an XML element, its parts as children. */
  datatype Tree<T> = Node(item: T, children: seq<Tree<T>>)

  function Nodes<T>(t: Tree<T>): nat {
    1 + NodesOf(t.children)
  }

  function NodesOf<T>(ts: seq<Tree<T>>): nat {
    if ts == [] then 0 else Nodes(ts[0]) + NodesOf(ts[1..])
  }

  function Height<T>(t: Tree<T>): nat {
    1 + HeightOf(t.children)
  }

  function HeightOf<T>(ts: seq<Tree<T>>): nat {
    if ts == [] then 0
    else if Height(ts[0]) > HeightOf(ts[1..]) then Height(ts[0]) else HeightOf(ts[1..])
  }

  // ---------------------------------------------------------------- the stack

  /** What is pushed with each node: its depth, or the path to it. */
  function Tag<T, A>(ts: seq<Tree<T>>, tag: A): seq<(Tree<T>, A)> {
    seq(|ts|, i requires 0 <= i < |ts| => (ts[i], tag))
  }

  function Reverse<A>(s: seq<A>): seq<A> {
    seq(|s|, i requires 0 <= i < |s| => s[|s| - 1 - i])
  }

  /** The nodes still to be visited. */
  function Pending<T, A>(stack: seq<(Tree<T>, A)>): nat {
    if stack == [] then 0 else Pending(stack[..|stack| - 1]) + Nodes(stack[|stack| - 1].0)
  }

  lemma {:induction false} PendingAppend<T, A>(stack: seq<(Tree<T>, A)>, more: seq<(Tree<T>, A)>)
    ensures Pending(stack + more) == Pending(stack) + Pending(more)
    decreases |more|
  {
    if more == [] {
      assert stack + more == stack;
    } else {
      assert (stack + more)[..|stack + more| - 1] == stack + more[..|more| - 1];
      PendingAppend(stack, more[..|more| - 1]);
    }
  }

  lemma {:induction false} PendingTag<T, A>(ts: seq<Tree<T>>, tag: A)
    ensures Pending(Tag(ts, tag)) == NodesOf(ts)
    ensures Pending(Tag(Reverse(ts), tag)) == NodesOf(ts)
    decreases |ts|
  {
    if ts != [] {
      PendingTag(ts[1..], tag);
      assert Tag(ts, tag) == [(ts[0], tag)] + Tag(ts[1..], tag);
      PendingAppend([(ts[0], tag)], Tag(ts[1..], tag));
      assert Pending([(ts[0], tag)]) == Nodes(ts[0]) by {
        assert [(ts[0], tag)][..0] == [];
      }
      assert Tag(Reverse(ts), tag)[..|ts| - 1] == Tag(Reverse(ts[1..]), tag);
    }
  }

  lemma {:induction false} HeightIsMax<T>(ts: seq<Tree<T>>)
    ensures forall t <- ts :: Height(t) <= HeightOf(ts)
    ensures ts != [] ==> exists t <- ts :: Height(t) == HeightOf(ts)
    decreases |ts|
  {
    if ts != [] {
      HeightIsMax(ts[1..]);
      assert ts == [ts[0]] + ts[1..];
      if Height(ts[0]) <= HeightOf(ts[1..]) && |ts| > 1 {
        var t :| t in ts[1..] && Height(t) == HeightOf(ts[1..]);
        assert t in ts;
      } else {
        assert ts[0] in ts;
      }
    }
  }

  // ---------------------------------------------------------------- complexity limits

  datatype Limit = NODE_LIMIT_EXCEEDED | DEPTH_LIMIT_EXCEEDED

  const MAX_NODES := 100000
  const MAX_DEPTH := 64

  /** Some node of the subtree lies deeper than the limit. */
  predicate TooDeep<T>(entry: (Tree<T>, nat), maxDepth: nat) {
    entry.1 + Height(entry.0) > maxDepth + 1
  }

  ghost predicate AnyTooDeep<T>(stack: seq<(Tree<T>, nat)>, maxDepth: nat) {
    exists e <- stack :: TooDeep(e, maxDepth)
  }

  lemma StartDepth<T>(value: Tree<T>, maxDepth: nat)
    ensures AnyTooDeep([(value, 1)], maxDepth) <==> Height(value) > maxDepth
    ensures !AnyTooDeep<T>([], maxDepth)
  {
    assert (value, 1) in [(value, 1)];
  }

  lemma TopTooDeep<T>(stack: seq<(Tree<T>, nat)>, maxDepth: nat)
    requires stack != [] && stack[|stack| - 1].1 > maxDepth
    ensures AnyTooDeep(stack, maxDepth)
  {
    assert stack[|stack| - 1] in stack && TooDeep(stack[|stack| - 1], maxDepth);
  }

  /** Replacing a node within the limit by its children hides no node beyond it. */
  lemma DepthStep<T>(stack: seq<(Tree<T>, nat)>, current: Tree<T>, depth: nat, order: seq<Tree<T>>, maxDepth: nat)
    requires depth <= maxDepth && (order == current.children || order == Reverse(current.children))
    ensures AnyTooDeep(stack + [(current, depth)], maxDepth) <==> AnyTooDeep(stack + Tag<T, nat>(order, depth + 1), maxDepth)
  {
    assert forall t :: t in order <==> t in current.children by {
      if order == Reverse(current.children) {
        SameMembers(current.children);
      }
    }
    hide Reverse;
    if AnyTooDeep(stack + [(current, depth)], maxDepth) {
      ChildTooDeep(stack, current, depth, order, maxDepth);
    }
    if AnyTooDeep(stack + Tag<T, nat>(order, depth + 1), maxDepth) {
      ParentTooDeep(stack, current, depth, order, maxDepth);
    }
  }

  lemma SameMembers<A>(s: seq<A>)
    ensures forall x :: x in Reverse(s) <==> x in s
  {
    forall x | x in s ensures x in Reverse(s) {
      var i :| 0 <= i < |s| && s[i] == x;
      assert Reverse(s)[|s| - 1 - i] == x;
    }
  }

  lemma ChildTooDeep<T>(stack: seq<(Tree<T>, nat)>, current: Tree<T>, depth: nat, order: seq<Tree<T>>, maxDepth: nat)
    requires depth <= maxDepth && (forall t :: t in order <==> t in current.children)
    requires AnyTooDeep(stack + [(current, depth)], maxDepth)
    ensures AnyTooDeep(stack + Tag<T, nat>(order, depth + 1), maxDepth)
  {
    HeightIsMax(current.children);
    var after := stack + Tag<T, nat>(order, depth + 1);
    var e :| e in stack + [(current, depth)] && TooDeep(e, maxDepth);
    if e in stack {
      assert e in after;
    } else {
      assert e == (current, depth) && HeightOf(current.children) > 0 && current.children != [];
      var t :| t in current.children && Height(t) == HeightOf(current.children);
      var i :| 0 <= i < |order| && order[i] == t;
      assert Tag<T, nat>(order, depth + 1)[i] == (t, depth + 1) && (t, depth + 1) in after;
      assert TooDeep((t, depth + 1), maxDepth);
    }
  }

  lemma ParentTooDeep<T>(stack: seq<(Tree<T>, nat)>, current: Tree<T>, depth: nat, order: seq<Tree<T>>, maxDepth: nat)
    requires forall t :: t in order <==> t in current.children
    requires AnyTooDeep(stack + Tag<T, nat>(order, depth + 1), maxDepth)
    ensures AnyTooDeep(stack + [(current, depth)], maxDepth)
  {
    HeightIsMax(current.children);
    var before := stack + [(current, depth)];
    var e :| e in stack + Tag<T, nat>(order, depth + 1) && TooDeep(e, maxDepth);
    if e in stack {
      assert e in before;
    } else {
      assert e.0 in current.children;
      assert (current, depth) in before && TooDeep((current, depth), maxDepth);
    }
  }

  /** The loop of `_assert_json_complexity` and, with `reversed`, of `_parse_xml_document`: it ends,
      and it accepts exactly the values within both limits, naming a limit that is exceeded. */
  method AssertComplexity<T>(value: Tree<T>, maxNodes: nat, maxDepth: nat, reversed: bool) returns (error: Option<Limit>)
    ensures error.None? <==> Nodes(value) <= maxNodes && Height(value) <= maxDepth
    ensures error == Some(NODE_LIMIT_EXCEEDED) ==> Nodes(value) > maxNodes
    ensures error == Some(DEPTH_LIMIT_EXCEEDED) ==> Height(value) > maxDepth
  {
    hide AnyTooDeep, Tag, Height, NodesOf, Reverse;
    var nodes := 0;
    var stack: seq<(Tree<T>, nat)> := [(value, 1)];
    assert stack[..0] == [] && Nodes(value) > 0;
    StartDepth(value, maxDepth);
    while stack != []
      invariant nodes + Pending(stack) == Nodes(value) && nodes <= maxNodes
      invariant AnyTooDeep(stack, maxDepth) <==> Height(value) > maxDepth
      decreases Pending(stack)
    {
      var (current, depth) := stack[|stack| - 1];
      ghost var whole := stack;
      stack := stack[..|stack| - 1];
      assert whole == stack + [(current, depth)];
      nodes := nodes + 1;
      if nodes > maxNodes { return Some(NODE_LIMIT_EXCEEDED); }
      if depth > maxDepth {
        TopTooDeep(whole, maxDepth);
        return Some(DEPTH_LIMIT_EXCEEDED);
      }
      var order := if reversed then Reverse(current.children) else current.children;
      DepthStep(stack, current, depth, order, maxDepth);
      var deeper: nat := depth + 1;
      PendingAppend(stack, Tag(order, deeper));
      PendingTag(current.children, deeper);
      assert Pending(whole) == Pending(stack) + Nodes(current);
      stack := stack + Tag(order, deeper);
    }
    return None;
  }

  // ---------------------------------------------------------------- XML

  /** An element without its children; its attributes are in order of their names. */
  datatype Element = Element(tag: string, text: string, attributes: seq<(string, string)>)

  const MAX_VALUES := 10000

  /** `tag.rsplit("}", 1)[-1]` */
  function LocalName(tag: string): string {
    if tag == "" then "" else if '}' in tag[1..] then LocalName(tag[1..]) else if tag[0] == '}' then tag[1..] else tag
  }

  function TextLine(e: Element, path: seq<string>): seq<string> {
    var value := Trim(PySpace, e.text);
    if value == "" then [] else ["- `" + Join(path, " / ") + "`: " + value]
  }

  function AttributeLines(attributes: seq<(string, string)>, path: seq<string>): seq<string> {
    seq(|attributes|, i requires 0 <= i < |attributes| =>
      "- `" + Join(path, " / ") + " / @" + LocalName(attributes[i].0) + "`: " + attributes[i].1)
  }

  /** The lines of one element, `path` ending with its own name. */
  function Own(e: Element, path: seq<string>): seq<string> {
    TextLine(e, path) + AttributeLines(e.attributes, path)
  }

  /** The lines of a whole subtree, in document order, under the names of its ancestors. */
  function Emit(t: Tree<Element>, path: seq<string>): seq<string> {
    var next := path + [LocalName(t.item.tag)];
    Own(t.item, next) + EmitAll(t.children, next)
  }

  function EmitAll(ts: seq<Tree<Element>>, path: seq<string>): seq<string> {
    if ts == [] then [] else Emit(ts[0], path) + EmitAll(ts[1..], path)
  }

  /** What the stack still holds, top first. */
  function EmitStack(stack: seq<(Tree<Element>, seq<string>)>): seq<string> {
    if stack == [] then [] else Emit(stack[|stack| - 1].0, stack[|stack| - 1].1) + EmitStack(stack[..|stack| - 1])
  }

  lemma {:induction false} EmitPushed(stack: seq<(Tree<Element>, seq<string>)>, ts: seq<Tree<Element>>, path: seq<string>)
    ensures EmitStack(stack + Tag(Reverse(ts), path)) == EmitAll(ts, path) + EmitStack(stack)
    decreases |ts|
  {
    hide Emit, EmitStack, Tag, Reverse;
    if ts == [] {
      NothingPushed(stack, path);
    } else {
      var more := stack + Tag(Reverse(ts[1..]), path);
      EmitPushed(stack, ts[1..], path);
      FirstOnTop(ts, path);
      TopEmits(more, ts[0], path);
      assert stack + Tag(Reverse(ts), path) == more + [(ts[0], path)];
      assert EmitAll(ts, path) + EmitStack(stack) == Emit(ts[0], path) + (EmitAll(ts[1..], path) + EmitStack(stack));
    }
  }

  lemma NothingPushed(stack: seq<(Tree<Element>, seq<string>)>, path: seq<string>)
    ensures stack + Tag(Reverse([]), path) == stack && EmitAll([], path) + EmitStack(stack) == EmitStack(stack)
  {
  }

  lemma FirstOnTop(ts: seq<Tree<Element>>, path: seq<string>)
    requires ts != []
    ensures Tag(Reverse(ts), path) == Tag(Reverse(ts[1..]), path) + [(ts[0], path)]
  {
  }

  lemma TopEmits(stack: seq<(Tree<Element>, seq<string>)>, t: Tree<Element>, path: seq<string>)
    ensures EmitStack(stack + [(t, path)]) == Emit(t, path) + EmitStack(stack)
  {
    hide Emit;
    assert (stack + [(t, path)])[..|stack|] == stack;
  }

  lemma TopOpens(stack: seq<(Tree<Element>, seq<string>)>, t: Tree<Element>, path: seq<string>)
    ensures var next := path + [LocalName(t.item.tag)];
            EmitStack(stack + [(t, path)]) == Own(t.item, next) + (EmitAll(t.children, next) + EmitStack(stack))
  {
    hide EmitStack, EmitAll, Own, LocalName;
    TopEmits(stack, t, path);
  }

  lemma RootOnly(root: Tree<Element>)
    ensures EmitStack([(root, [])]) == Emit(root, []) && EmitStack([]) == []
  {
    hide Emit;
    var path: seq<string> := [];
    assert [(root, path)][..0] == [] && Emit(root, path) + [] == Emit(root, path);
  }

  /** A tag's local name is what follows its last closing brace. */
  lemma {:induction false} LocalNameFollowsBrace(tag: string)
    ensures '}' !in LocalName(tag)
    ensures '}' !in tag ==> LocalName(tag) == tag
    ensures '}' in tag ==> |LocalName(tag)| < |tag| && tag[|tag| - |LocalName(tag)| - 1] == '}' && tag[|tag| - |LocalName(tag)|..] == LocalName(tag)
  {
    if tag != "" {
      var rest := tag[1..];
      LocalNameFollowsBrace(rest);
      assert tag == [tag[0]] + rest;
      if '}' in rest {
        assert rest[|rest| - |LocalName(rest)|..] == tag[|tag| - |LocalName(rest)|..];
      }
    }
  }

  /** What an element prints: its text if there is any but white space, then each attribute, under the path it is given. */
  lemma OwnIsPointwise(e: Element, path: seq<string>)
    ensures var lines, text := Own(e, path), Trim(PySpace, e.text);
            var first := if text == "" then 0 else 1;
            && |lines| == first + |e.attributes|
            && (text != "" ==> lines[0] == "- `" + Join(path, " / ") + "`: " + text)
            && forall i | 0 <= i < |e.attributes| ::
                 lines[first + i] == "- `" + Join(path, " / ") + " / @" + LocalName(e.attributes[i].0) + "`: " + e.attributes[i].1
  {
    hide Trim, Join, LocalName;
  }

  /** A printed line tells its path, if no name holds a backquote, and its value. */
  lemma LineTells(p: string, v: string, q: string, u: string)
    requires '`' !in p && '`' !in q && "- `" + p + "`: " + v == "- `" + q + "`: " + u
    ensures p == q && v == u
  {
    var line := "- `" + p + "`: " + v;
    BackquoteAt(p, v);
    BackquoteAt(q, u);
    assert p == line[3..|p| + 3] && q == line[3..|q| + 3];
    assert v == line[|p| + 6..] && u == line[|q| + 6..];
  }

  lemma BackquoteAt(p: string, v: string)
    requires '`' !in p
    ensures var line := "- `" + p + "`: " + v; |p| + 3 < |line| && line[|p| + 3] == '`' && forall k | 3 <= k < |p| + 3 :: line[k] != '`'
  {
    var line := "- `" + p + "`: " + v;
    assert forall k | 3 <= k < |p| + 3 :: line[k] == p[k - 3];
  }

  /** The lines of one element are appended unless they pass the limit. */
  method AppendOwn(lines: seq<string>, e: Element, path: seq<string>) returns (ok: bool, more: seq<string>)
    requires |lines| <= MAX_VALUES
    ensures ok <==> |lines + Own(e, path)| <= MAX_VALUES
    ensures ok ==> more == lines + Own(e, path)
  {
    hide Trim, Join, LocalName;
    more := lines;
    var text := Trim(PySpace, e.text);
    if text != "" {
      if |more| + 1 > MAX_VALUES { return false, more; }
      more := more + ["- `" + Join(path, " / ") + "`: " + text];
    }
    assert more == lines + TextLine(e, path);
    ghost var own := AttributeLines(e.attributes, path);
    for i := 0 to |e.attributes|
      invariant more == lines + TextLine(e, path) + own[..i] && |more| <= MAX_VALUES
    {
      if |more| + 1 > MAX_VALUES { return false, more; }
      more := more + ["- `" + Join(path, " / ") + " / @" + LocalName(e.attributes[i].0) + "`: " + e.attributes[i].1];
      assert own[..i + 1] == own[..i] + [own[i]];
    }
    assert own[..|e.attributes|] == own;
    return true, more;
  }

  /** `_extract_xml` on a parsed document: the stack loop prints the document order, and fails
      exactly when there is nothing to print or too much. */
  method ExtractXml(root: Tree<Element>) returns (result: Result<string>)
    ensures result ==
      var values := Emit(root, []);
      if |values| > MAX_VALUES then Err("RICH_XML_VALUE_LIMIT_EXCEEDED")
      else if values == [] then Err("RICH_XML_EMPTY")
      else Ok(Normalize(Join(["# " + LocalName(root.item.tag)] + values, "\n")))
  {
    hide Own, Normalize, Join, Emit, EmitAll, EmitStack, Tag, Reverse, LocalName;
    var lines: seq<string> := [];
    var stack: seq<(Tree<Element>, seq<string>)> := [(root, [])];
    RootOnly(root);
    while stack != []
      invariant lines + EmitStack(stack) == Emit(root, []) && |lines| <= MAX_VALUES
      decreases Pending(stack)
    {
      var (node, path) := stack[|stack| - 1];
      assert stack == stack[..|stack| - 1] + [(node, path)];
      stack := stack[..|stack| - 1];
      var next := path + [LocalName(node.item.tag)];
      TopOpens(stack, node, path);
      var ok, more := AppendOwn(lines, node.item, next);
      assert lines + Own(node.item, next) + (EmitAll(node.children, next) + EmitStack(stack)) == Emit(root, []);
      if !ok { return Err("RICH_XML_VALUE_LIMIT_EXCEEDED"); }
      EmitPushed(stack, node.children, next);
      PendingAppend(stack, Tag(Reverse(node.children), next));
      PendingTag(node.children, next);
      stack := stack + Tag(Reverse(node.children), next);
      lines := more;
    }
    assert lines + [] == lines && EmitStack([]) == [];
    if lines == [] { return Err("RICH_XML_EMPTY"); }
    return Ok(Normalize(Join(["# " + LocalName(root.item.tag)] + lines, "\n")));
  }

  /** `_parse_xml_document` followed by `_extract_xml`: the whole of what makes a parsed XML document
      acceptable. */
  method ExtractXmlDocument(root: Tree<Element>) returns (result: Result<string>)
    ensures result.Ok? <==> Nodes(root) <= 100_000 && Height(root) <= 64 && 0 < |Emit(root, [])| <= 10_000
    ensures result.Ok? ==> result.value == Normalize(Join(["# " + LocalName(root.item.tag)] + Emit(root, []), "\n"))
    ensures result.Ok? ==> Normalize(result.value) == result.value
  {
    hide Normalize, Join, Emit;
    var limit := AssertComplexity(root, MAX_NODES, MAX_DEPTH, true);
    match limit {
      case Some(NODE_LIMIT_EXCEEDED) => result := Err("RICH_XML_NODE_LIMIT_EXCEEDED");
      case Some(DEPTH_LIMIT_EXCEEDED) => result := Err("RICH_XML_DEPTH_LIMIT_EXCEEDED");
      case None =>
        result := ExtractXml(root);
        NormalizeFixesNormal(Join(["# " + LocalName(root.item.tag)] + Emit(root, []), "\n"));
    }
  }

  /** `_assert_json_complexity` with its limits. */
  method AssertJsonComplexity<T>(value: Tree<T>) returns (error: Option<Limit>)
    ensures error.None? <==> Nodes(value) <= 100_000 && Height(value) <= 64
    ensures error == Some(NODE_LIMIT_EXCEEDED) ==> Nodes(value) > 100_000
    ensures error == Some(DEPTH_LIMIT_EXCEEDED) ==> Height(value) > 64
  {
    error := AssertComplexity(value, MAX_NODES, MAX_DEPTH, false);
  }

  // ---------------------------------------------------------------- document order, by addresses

  /** An address names a node by the child to take at each level. */
  predicate Valid<T>(t: Tree<T>, address: seq<nat>) {
    address != [] ==> address[0] < |t.children| && Valid(t.children[address[0]], address[1..])
  }

  function At<T>(t: Tree<T>, address: seq<nat>): Tree<T>
    requires Valid(t, address)
  {
    if address == [] then t else At(t.children[address[0]], address[1..])
  }

  /** The names from the root to the addressed node, its own included. */
  function Names(t: Tree<Element>, address: seq<nat>): seq<string>
    requires Valid(t, address)
  {
    [LocalName(t.item.tag)] + if address == [] then [] else Names(t.children[address[0]], address[1..])
  }

  /** How many lines come before those of the addressed node. */
  function Offset(t: Tree<Element>, path: seq<string>, address: seq<nat>): nat
    requires Valid(t, address)
  {
    var next := path + [LocalName(t.item.tag)];
    if address == [] then 0
    else |Own(t.item, next)| + |EmitAll(t.children[..address[0]], next)| + Offset(t.children[address[0]], next, address[1..])
  }

  lemma {:induction false} EmitAllSplit(ts: seq<Tree<Element>>, k: nat, path: seq<string>)
    requires k < |ts|
    ensures EmitAll(ts, path) == EmitAll(ts[..k], path) + Emit(ts[k], path) + EmitAll(ts[k + 1..], path)
    decreases k
  {
    hide Emit;
    if k == 0 {
      assert ts[..0] == [] && [] + Emit(ts[0], path) == Emit(ts[0], path);
    } else {
      EmitAllSplit(ts[1..], k - 1, path);
      var head := ts[..k];
      assert ts[1..][..k - 1] == head[1..] && head[0] == ts[0] && ts[1..][k..] == ts[k + 1..] && ts[1..][k - 1] == ts[k];
      assert EmitAll(head, path) == Emit(ts[0], path) + EmitAll(head[1..], path);
    }
  }

  lemma InnerSlice(a: seq<string>, b: seq<string>, c: seq<string>, from: nat, n: nat)
    requires from + n <= |b|
    ensures (a + b + c)[|a| + from..|a| + from + n] == b[from..from + n]
  {
  }

  /** Each element's lines stand together, under the names of exactly its ancestors and itself. */
  lemma {:induction false} EmitHoldsEveryNode(t: Tree<Element>, path: seq<string>, address: seq<nat>)
    requires Valid(t, address)
    ensures var own, at := Own(At(t, address).item, path + Names(t, address)), Offset(t, path, address);
            at + |own| <= |Emit(t, path)| && Emit(t, path)[at..at + |own|] == own
    decreases |address|
  {
    hide Own, LocalName, EmitAll;
    var next := path + [LocalName(t.item.tag)];
    if address == [] {
      assert path + Names(t, address) == next;
    } else {
      var k, child := address[0], t.children[address[0]];
      EmitAroundChild(t, path, k);
      hide Emit;
      var own := Own(At(child, address[1..]).item, next + Names(child, address[1..]));
      EmitHoldsEveryNode(child, next, address[1..]);
      assert path + Names(t, address) == next + Names(child, address[1..]);
      InnerSlice(Own(t.item, next) + EmitAll(t.children[..k], next), Emit(child, next), EmitAll(t.children[k + 1..], next),
                 Offset(child, next, address[1..]), |own|);
    }
  }

  lemma EmitAroundChild(t: Tree<Element>, path: seq<string>, k: nat)
    requires k < |t.children|
    ensures var next := path + [LocalName(t.item.tag)];
            Emit(t, path) == (Own(t.item, next) + EmitAll(t.children[..k], next)) + Emit(t.children[k], next) + EmitAll(t.children[k + 1..], next)
  {
    hide Own, LocalName, EmitAll;
    EmitAllSplit(t.children, k, path + [LocalName(t.item.tag)]);
  }

  /** `a` comes before `b` in document order: it is an ancestor, or branches off to an earlier child. */
  predicate Before(a: seq<nat>, b: seq<nat>) {
    b != [] && (a == [] || a[0] < b[0] || (a[0] == b[0] && Before(a[1..], b[1..])))
  }

  /** Lines stand in document order. */
  lemma {:induction false} EmitInDocumentOrder(t: Tree<Element>, path: seq<string>, a: seq<nat>, b: seq<nat>)
    requires Valid(t, a) && Valid(t, b) && Before(a, b)
    ensures Offset(t, path, a) + |Own(At(t, a).item, path + Names(t, a))| <= Offset(t, path, b)
    decreases |a|
  {
    hide Own;
    var next := path + [LocalName(t.item.tag)];
    if a == [] {
      assert path + Names(t, a) == next;
    } else if a[0] == b[0] {
      assert path + Names(t, a) == next + Names(t.children[a[0]], a[1..]);
      EmitInDocumentOrder(t.children[a[0]], next, a[1..], b[1..]);
    } else {
      assert path + Names(t, a) == next + Names(t.children[a[0]], a[1..]);
      EmitHoldsEveryNode(t.children[a[0]], next, a[1..]);
      EmitAllSplit(t.children[..b[0]], a[0], next);
      assert t.children[..b[0]][..a[0]] == t.children[..a[0]];
    }
  }

  // ---------------------------------------------------------------- PDF windows

  const WINDOW := 80

  datatype Window = Window(first: nat, last: nat)

  /** The windows cover the pages 1 to `upTo`, each page once and in order, none wider than 80 and
      all but the last exactly 80 wide. */
  ghost predicate Covers(windows: seq<Window>, upTo: nat) {
    && (windows == [] <==> upTo == 0)
    && (windows != [] ==> windows[0].first == 1 && windows[|windows| - 1].last == upTo)
    && (forall i | 0 <= i < |windows| :: windows[i].first <= windows[i].last <= windows[i].first + 79)
    && (forall i | 0 <= i < |windows| - 1 :: windows[i].last == windows[i].first + 79 && windows[i + 1].first == windows[i].last + 1)
  }

  /** Every page lies in exactly one window. */
  lemma {:induction false} CoversOnce(windows: seq<Window>, upTo: nat, page: nat) returns (k: nat)
    requires Covers(windows, upTo) && 1 <= page <= upTo
    ensures k < |windows| && windows[k].first <= page <= windows[k].last
    ensures forall i | 0 <= i < |windows| && i != k :: !(windows[i].first <= page <= windows[i].last)
    decreases |windows|
  {
    var n := |windows| - 1;
    FirstAt(windows, upTo, n);
    if page >= windows[n].first {
      k := n;
      forall i | 0 <= i < n ensures windows[i].last < page {
        FirstAt(windows, upTo, i);
        FirstAt(windows, upTo, n);
      }
    } else {
      var init := windows[..n];
      assert Covers(init, windows[n].first - 1) by {
        assert n > 0 && init[n - 1] == windows[n - 1];
        assert windows[n - 1 + 1].first == windows[n - 1].last + 1;
        assert forall i | 0 <= i < |init| :: init[i] == windows[i];
      }
      k := CoversOnce(init, windows[n].first - 1, page);
    }
  }

  lemma {:induction false} FirstAt(windows: seq<Window>, upTo: nat, k: nat)
    requires Covers(windows, upTo) && k < |windows|
    ensures windows[k].first == 1 + WINDOW * k
    decreases k
  {
    if k > 0 {
      FirstAt(windows, upTo, k - 1);
      assert windows[k - 1 + 1].first == windows[k - 1].last + 1;
    }
  }

  lemma CoversMore(windows: seq<Window>, pages: nat, first: nat, last: nat)
    requires first == 1 + WINDOW * |windows| && first <= pages && Covers(windows, first - 1)
    requires last == if pages < first + WINDOW - 1 then pages else first + WINDOW - 1
    ensures Covers(windows + [Window(first, last)], last)
  {
    if windows != [] {
      FirstAt(windows, first - 1, |windows| - 1);
    }
  }

  function Heading(w: Window): string {
    if w.first == w.last then "## Page " + Digits(w.first) else "## Pages " + Digits(w.first) + "-" + Digits(w.last)
  }

  /** One block for each window whose text is not empty. */
  function Parts(windows: seq<Window>, text: Window -> string): seq<string> {
    if windows == [] then []
    else
      var last := windows[|windows| - 1];
      var body := Normalize(text(last));
      Parts(windows[..|windows| - 1], text) + if body == "" then [] else [Heading(last) + "\n\n" + body]
  }

  function ResultOf(windows: seq<Window>, text: Window -> string): Result<string> {
    var markdown := Normalize(Join(Parts(windows, text), "\n\n"));
    if markdown == "" then Err("PDF_TEXT_NO_EXTRACTABLE_TEXT") else Ok(markdown)
  }

  /** The block of a window: its page or pages, then its text. */
  function Block(w: Window, body: string): string {
    (if w.first == w.last then "## Page " + Digits(w.first) else "## Pages " + Digits(w.first) + "-" + Digits(w.last)) + "\n\n" + body
  }

  lemma PartsOfOneMore(windows: seq<Window>, text: Window -> string)
    requires windows != []
    ensures var last := windows[|windows| - 1]; var body := Normalize(text(last));
            Parts(windows, text) == Parts(windows[..|windows| - 1], text) + if body == "" then [] else [Block(last, body)]
  {
    hide Normalize, Digits;
  }

  ghost predicate FromWindows(windows: seq<Window>, text: Window -> string, parts: seq<string>, from: seq<nat>) {
    && |from| == |parts| && (forall i, j | 0 <= i < j < |from| :: from[i] < from[j])
    && (forall i | 0 <= i < |from| :: from[i] < |windows| && parts[i] == Block(windows[from[i]], Normalize(text(windows[from[i]]))))
    && (forall k | 0 <= k < |windows| :: Normalize(text(windows[k])) != "" <==> k in from)
  }

  lemma NoParts(text: Window -> string)
    ensures FromWindows([], text, Parts([], text), [])
  {
  }

  lemma FromOneMore(windows: seq<Window>, text: Window -> string, parts: seq<string>, from: seq<nat>)
    requires windows != [] && FromWindows(windows[..|windows| - 1], text, parts, from)
    ensures var n := |windows| - 1; var body := Normalize(text(windows[n]));
            FromWindows(windows, text, if body == "" then parts else parts + [Block(windows[n], body)], if body == "" then from else from + [n])
  {
    hide Normalize, Block;
    var n := |windows| - 1;
    var init := windows[..n];
    assert forall k | 0 <= k < n :: init[k] == windows[k];
    forall i | 0 <= i < |from| ensures from[i] < n && parts[i] == Block(windows[from[i]], Normalize(text(windows[from[i]]))) {
      assert init[from[i]] == windows[from[i]];
    }
    forall k | 0 <= k < n ensures Normalize(text(windows[k])) != "" <==> k in from {
      assert init[k] == windows[k];
    }
    hide FromWindows;
    OneFromMore(windows, text, parts, from, n);
  }

  lemma OneFromMore(windows: seq<Window>, text: Window -> string, parts: seq<string>, from: seq<nat>, n: nat)
    requires n + 1 == |windows| && |from| == |parts| && (forall i, j | 0 <= i < j < |from| :: from[i] < from[j])
    requires forall i | 0 <= i < |from| :: from[i] < n && parts[i] == Block(windows[from[i]], Normalize(text(windows[from[i]])))
    requires forall k | 0 <= k < n :: Normalize(text(windows[k])) != "" <==> k in from
    ensures var body := Normalize(text(windows[n]));
            FromWindows(windows, text, if body == "" then parts else parts + [Block(windows[n], body)], if body == "" then from else from + [n])
  {
    hide Normalize, Block;
    assert forall k :: k in from + [n] <==> k in from || k == n;
  }

  /** The blocks are those of the windows with text, each once, in page order, each under its own heading. */
  lemma {:induction false} PartsInOrder(windows: seq<Window>, text: Window -> string) returns (from: seq<nat>)
    ensures FromWindows(windows, text, Parts(windows, text), from)
    decreases |windows|
  {
    hide Normalize, Block, Parts, FromWindows;
    if windows == [] {
      from := [];
      NoParts(text);
    } else {
      var n := |windows| - 1;
      from := PartsInOrder(windows[..n], text);
      PartsOfOneMore(windows, text);
      FromOneMore(windows, text, Parts(windows[..n], text), from);
      if Normalize(text(windows[n])) != "" {
        from := from + [n];
      } else {
        assert Parts(windows[..n], text) + [] == Parts(windows[..n], text);
      }
    }
  }

  /** There is only one way to cover the pages. */
  lemma CoversUniquely(a: seq<Window>, b: seq<Window>, pages: nat)
    requires Covers(a, pages) && Covers(b, pages)
    ensures a == b
  {
    hide Covers;
    CoversCount(a, pages);
    CoversCount(b, pages);
    forall k | 0 <= k < |a| ensures a[k] == b[k] {
      WindowAt(a, pages, k);
      WindowAt(b, pages, k);
    }
  }

  lemma CoversCount(windows: seq<Window>, pages: nat)
    requires Covers(windows, pages)
    ensures |windows| == (pages + WINDOW - 1) / WINDOW
  {
    if windows != [] {
      FirstAt(windows, pages, |windows| - 1);
    }
  }

  lemma WindowAt(windows: seq<Window>, pages: nat, k: nat)
    requires Covers(windows, pages) && k < |windows|
    ensures windows[k] == Window(1 + WINDOW * k, if k == |windows| - 1 then pages else WINDOW * k + WINDOW)
  {
    FirstAt(windows, pages, k);
  }

  /** The window loop of `_pdf_text_extract`; `text` is what the engine prints for a range of pages. */
  method PdfTextExtract(pages: nat, text: Window -> string) returns (result: Result<string>)
    requires pages > 0
    ensures exists windows :: Covers(windows, pages) && result == ResultOf(windows, text)
  {
    hide Normalize, Join;
    ghost var windows: seq<Window> := [];
    var parts: seq<string> := [];
    var first := 1;
    while first <= pages
      invariant first == 1 + WINDOW * |windows|
      invariant Covers(windows, if first <= pages then first - 1 else pages)
      invariant parts == Parts(windows, text)
      decreases pages + 1 - first
    {
      var last := if pages < first + WINDOW - 1 then pages else first + WINDOW - 1;
      var body := Normalize(text(Window(first, last)));
      if body != "" {
        parts := parts + [Heading(Window(first, last)) + "\n\n" + body];
      }
      assert (windows + [Window(first, last)])[..|windows|] == windows;
      CoversMore(windows, pages, first, last);
      windows := windows + [Window(first, last)];
      first := first + WINDOW;
    }
    var markdown := Normalize(Join(parts, "\n\n"));
    result := if markdown == "" then Err("PDF_TEXT_NO_EXTRACTABLE_TEXT") else Ok(markdown);
    assert Covers(windows, pages) && result == ResultOf(windows, text);
  }
}
