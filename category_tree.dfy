/**
 * The procurement-category tree of the first wizard step: the backend's tree is decorated for the
 * tree widget (`transformTreeData`), a node's name is looked up by id (`findNodeTitleById`), and
 * only leaves may be selected before moving on.
 */
module CategoryTree {
  import opened Wrappers

  /** A category as the backend delivers it; `childTemplent` may be missing. */
  datatype TreeNode = TreeNode(id: string, name: string, childTemplent: Children)

  datatype Children = Absent | Present(nodes: seq<TreeNode>)

  /**
   * A node as handed to the tree widget: the original fields (kept by the object spread), then
   * `title`, `key`, `disabled` and `children` (`null` when there are none).
   */
  datatype TransformedNode = TransformedNode(
    id: string,
    name: string,
    childTemplent: Children,
    title: string,
    key: string,
    disabled: bool,
    children: TransformedChildren)

  datatype TransformedChildren = Null | Nodes(nodes: seq<TransformedNode>)

  /** `item.childTemplent && item.childTemplent.length > 0` */
  predicate HasChildren(item: TreeNode) {
    item.childTemplent.Present? && |item.childTemplent.nodes| > 0
  }

  // ---------------------------------------------------------------------------------------------
  // transformTreeData
  // ---------------------------------------------------------------------------------------------

  /** `data.map(...)`: one transformed node per node, in order. */
  function TransformTreeData(data: seq<TreeNode>): (r: seq<TransformedNode>)
    ensures |r| == |data|
    decreases data
  {
    seq(|data|, i requires 0 <= i < |data| => TransformNode(data[i]))
  }

  /** The object built for one `item`. */
  function TransformNode(item: TreeNode): TransformedNode
    decreases item
  {
    TransformedNode(item.id, item.name, item.childTemplent, item.name, item.id, HasChildren(item),
                    if HasChildren(item) then Nodes(TransformTreeData(item.childTemplent.nodes)) else Null)
  }

  /** The `(id, name)` pairs of a forest in pre-order. */
  function ForestLabels(data: seq<TreeNode>): seq<(string, string)>
    decreases data
  {
    if |data| == 0 then [] else NodeLabels(data[0]) + ForestLabels(data[1..])
  }

  function NodeLabels(item: TreeNode): seq<(string, string)>
    decreases item
  {
    [(item.id, item.name)] + (if item.childTemplent.Present? then ForestLabels(item.childTemplent.nodes) else [])
  }

  /** The `(key, title)` pairs of a transformed forest in pre-order. */
  function TransformedLabels(r: seq<TransformedNode>): seq<(string, string)>
    decreases r
  {
    if |r| == 0 then [] else TransformedNodeLabels(r[0]) + TransformedLabels(r[1..])
  }

  function TransformedNodeLabels(n: TransformedNode): seq<(string, string)>
    decreases n
  {
    [(n.key, n.title)] + (if n.children.Nodes? then TransformedLabels(n.children.nodes) else [])
  }

  /**
   * Every node keeps its original fields, gets `title = name` and `key = id`, is disabled exactly
   * when it has children, and has `children = null` exactly when `childTemplent` is missing or
   * empty, the transformed children otherwise.
   */
  lemma TransformedFields(data: seq<TreeNode>, i: int)
    requires 0 <= i < |data|
    ensures var n := TransformTreeData(data)[i];
      && n.id == data[i].id && n.name == data[i].name && n.childTemplent == data[i].childTemplent
      && n.title == data[i].name && n.key == data[i].id
      && (n.disabled <==> data[i].childTemplent.Present? && |data[i].childTemplent.nodes| > 0)
      && (n.children.Null? <==> data[i].childTemplent.Absent? || data[i].childTemplent.nodes == [])
      && (n.children.Nodes? ==> n.children.nodes == TransformTreeData(data[i].childTemplent.nodes))
  {
  }

  /** A node is disabled exactly when the widget gets a non-empty `children` list for it. */
  lemma {:induction false} DisabledIffInner(item: TreeNode)
    ensures var n := TransformNode(item);
      n.disabled <==> (n.children.Nodes? && |n.children.nodes| > 0)
  {
    if HasChildren(item) {
      assert |TransformTreeData(item.childTemplent.nodes)| == |item.childTemplent.nodes|;
    }
  }

  /**
   * The shape is preserved at every depth: the transformed forest lists, in pre-order, exactly the
   * original `(id, name)` pairs as `(key, title)`.
   */
  lemma {:induction false} TransformPreservesLabels(data: seq<TreeNode>)
    ensures TransformedLabels(TransformTreeData(data)) == ForestLabels(data)
    decreases data
  {
    if |data| > 0 {
      var r := TransformTreeData(data);
      NodePreservesLabels(data[0]);
      TransformPreservesLabels(data[1..]);
      assert r[1..] == TransformTreeData(data[1..]);
    }
  }

  lemma {:induction false} NodePreservesLabels(item: TreeNode)
    ensures TransformedNodeLabels(TransformNode(item)) == NodeLabels(item)
    decreases item
  {
    if item.childTemplent.Present? {
      TransformPreservesLabels(item.childTemplent.nodes);
      if !HasChildren(item) {
        assert ForestLabels(item.childTemplent.nodes) == [];
      }
    }
  }

  // ---------------------------------------------------------------------------------------------
  // findNodeTitleById
  // ---------------------------------------------------------------------------------------------

  /**
   * The search, as the loop performs it: a node is compared with the id before its children, its subtree before
   * its later siblings; a nested result counts only when truthy, so a nested match named `""`
   * does not stop the search, while a match in `data` itself returns its name whatever it is.
   */
  function FindTitle(data: seq<TreeNode>, id: string): (title: Option<string>)
    decreases data
  {
    if |data| == 0 then None
    else if data[0].id == id then Some(data[0].name)
    else
      var found := FindInChildren(data[0], id);
      if Truthy(found) then found else FindTitle(data[1..], id)
  }

  /** The recursive call on `item.childTemplent` (made whenever it is present, even empty). */
  function FindInChildren(item: TreeNode, id: string): Option<string>
    decreases item
  {
    if item.childTemplent.Present? then FindTitle(item.childTemplent.nodes, id) else None
  }

  /** The number of nodes of a forest, to measure the recursion of the search. */
  function ForestSize(data: seq<TreeNode>): nat
    decreases data
  {
    if |data| == 0 then 0 else NodeSize(data[0]) + ForestSize(data[1..])
  }

  function NodeSize(item: TreeNode): nat
    decreases item
  {
    1 + (if item.childTemplent.Present? then ForestSize(item.childTemplent.nodes) else 0)
  }

  /** A node's children form a smaller forest than any forest the node belongs to. */
  lemma {:induction false} ChildrenSmaller(data: seq<TreeNode>, i: int)
    requires 0 <= i < |data| && data[i].childTemplent.Present?
    ensures ForestSize(data[i].childTemplent.nodes) < ForestSize(data)
    decreases i
  {
    if i > 0 {
      ChildrenSmaller(data[1..], i - 1);
    }
  }

  /** `findNodeTitleById`: the `for...of` loop with its early returns. */
  method FindNodeTitleById(data: seq<TreeNode>, id: string) returns (r: Option<string>)
    ensures r == FindTitle(data, id)
    decreases ForestSize(data)
  {
    var i := 0;
    while i < |data|
      invariant 0 <= i <= |data|
      invariant FindTitle(data, id) == FindTitle(data[i..], id)
    {
      var item := data[i];
      assert data[i..][0] == item && data[i..][1..] == data[i + 1..];
      if item.id == id {
        return Some(item.name);
      }
      if item.childTemplent.Present? {
        ChildrenSmaller(data, i);
        var found := FindNodeTitleById(item.childTemplent.nodes, id);
        if found.Some? && found.value != "" {
          return found;
        }
      }
      i := i + 1;
    }
    r := None;
  }

  /** Whether some node of the forest has this id. */
  predicate ForestHasId(data: seq<TreeNode>, id: string)
    decreases data
  {
    |data| > 0 && (NodeHasId(data[0], id) || ForestHasId(data[1..], id))
  }

  predicate NodeHasId(item: TreeNode, id: string)
    decreases item
  {
    item.id == id || (item.childTemplent.Present? && ForestHasId(item.childTemplent.nodes, id))
  }

  /** Whether some node of the forest has this id and this name. */
  predicate ForestHasNode(data: seq<TreeNode>, id: string, name: string)
    decreases data
  {
    |data| > 0 && (NodeHasNode(data[0], id, name) || ForestHasNode(data[1..], id, name))
  }

  predicate NodeHasNode(item: TreeNode, id: string, name: string)
    decreases item
  {
    (item.id == id && item.name == name)
    || (item.childTemplent.Present? && ForestHasNode(item.childTemplent.nodes, id, name))
  }

  /** No node has the id: the search returns `null`. */
  lemma {:induction false} NotFoundIsNull(data: seq<TreeNode>, id: string)
    requires !ForestHasId(data, id)
    ensures FindTitle(data, id) == None
    decreases data
  {
    if |data| > 0 {
      if data[0].childTemplent.Present? {
        NotFoundIsNull(data[0].childTemplent.nodes, id);
      }
      NotFoundIsNull(data[1..], id);
    }
  }

  /** A title the search returns is the name of a node with that id. */
  lemma {:induction false} FoundIsNamed(data: seq<TreeNode>, id: string)
    requires FindTitle(data, id).Some?
    ensures ForestHasNode(data, id, FindTitle(data, id).value)
    decreases data
  {
    if data[0].id != id {
      var found := FindInChildren(data[0], id);
      if Truthy(found) {
        FoundIsNamed(data[0].childTemplent.nodes, id);
      } else {
        FoundIsNamed(data[1..], id);
      }
    }
  }

  /**
   * Earlier siblings' subtrees are searched first: on `a + b` the search returns what it finds in
   * `a`, and only when that is nothing goes on into `b`.
   */
  lemma {:induction false} SearchSiblingOrder(a: seq<TreeNode>, b: seq<TreeNode>, id: string)
    ensures FindTitle(a + b, id) == if FindTitle(a, id).Some? then FindTitle(a, id) else FindTitle(b, id)
    decreases |a|
  {
    if |a| == 0 {
      assert a + b == b;
    } else {
      assert (a + b)[0] == a[0] && (a + b)[1..] == a[1..] + b;
      SearchSiblingOrder(a[1..], b, id);
    }
  }

  /** A node is compared with the id before its own children: a matching node returns its own name. */
  lemma NodeBeforeChildren(item: TreeNode, rest: seq<TreeNode>, id: string)
    requires item.id == id
    ensures FindTitle([item] + rest, id) == Some(item.name)
  {
  }

  /** A matching node in the searched list returns its name even when it is `""`. */
  lemma TopLevelEmptyName()
    ensures FindTitle([TreeNode("x", "", Absent)], "x") == Some("")
  {
  }

  /**
   * A nested match named `""` is falsy and does not stop the search: when a node does not have the
   * id and every node below it with the id is named `""`, the search goes on to the later siblings
   * as if the node were not there.
   */
  lemma NestedEmptyNameSkipped(item: TreeNode, rest: seq<TreeNode>, id: string)
    requires item.id != id
    requires forall n :: NodeHasNode(item, id, n) ==> n == ""
    ensures FindTitle([item] + rest, id) == FindTitle(rest, id)
  {
    assert ([item] + rest)[0] == item && ([item] + rest)[1..] == rest;
    var found := FindInChildren(item, id);
    if found.Some? {
      FoundIsNamed(item.childTemplent.nodes, id);
      assert NodeHasNode(item, id, found.value);
    }
  }

  /** The same on one tree: the nested `""` is passed over for the later sibling, or for nothing at all. */
  lemma NestedEmptyNameExample()
    ensures FindTitle([TreeNode("p", "P", Present([TreeNode("x", "", Absent)])), TreeNode("x", "Second", Absent)], "x")
            == Some("Second")
    ensures FindTitle([TreeNode("p", "P", Present([TreeNode("x", "", Absent)]))], "x") == None
  {
    var leaf := TreeNode("x", "", Absent);
    assert FindTitle([leaf], "x") == Some("");
    var tail := [TreeNode("x", "Second", Absent)];
    assert [TreeNode("p", "P", Present([leaf])), TreeNode("x", "Second", Absent)][1..] == tail;
    assert [TreeNode("p", "P", Present([leaf]))][1..] == [];
  }

  /** When no node with the id is named `""`, a node with the id is always found, with a non-empty name. */
  lemma {:induction false} PresentIsFound(data: seq<TreeNode>, id: string)
    requires ForestHasId(data, id) && !ForestHasNode(data, id, "")
    ensures FindTitle(data, id).Some? && FindTitle(data, id).value != ""
    decreases data
  {
    if data[0].id != id {
      var found := FindInChildren(data[0], id);
      if !Truthy(found) {
        if NodeHasId(data[0], id) {
          assert !ForestHasNode(data[0].childTemplent.nodes, id, "");
          PresentIsFound(data[0].childTemplent.nodes, id);
          assert false;
        }
        PresentIsFound(data[1..], id);
      }
    }
  }

  /** The name of the first pair with this id, in the given order. */
  function FirstName(labels: seq<(string, string)>, id: string): Option<string>
    decreases |labels|
  {
    if |labels| == 0 then None
    else if labels[0].0 == id then Some(labels[0].1)
    else FirstName(labels[1..], id)
  }

  lemma {:induction false} FirstNameConcat(a: seq<(string, string)>, b: seq<(string, string)>, id: string)
    ensures FirstName(a + b, id) == if FirstName(a, id).Some? then FirstName(a, id) else FirstName(b, id)
    decreases |a|
  {
    if |a| == 0 {
      assert a + b == b;
    } else {
      assert (a + b)[0] == a[0] && (a + b)[1..] == a[1..] + b;
      FirstNameConcat(a[1..], b, id);
    }
  }

  /**
   * When no node with the id is named `""`, the search returns the name of the first node with the
   * id in pre-order: the truthiness test then never skips a match.
   */
  lemma {:induction false} FindIsFirst(data: seq<TreeNode>, id: string)
    requires !ForestHasNode(data, id, "")
    ensures FindTitle(data, id) == FirstName(ForestLabels(data), id)
    decreases data
  {
    if |data| > 0 {
      var item := data[0];
      var children := if item.childTemplent.Present? then ForestLabels(item.childTemplent.nodes) else [];
      assert NodeLabels(item) == [(item.id, item.name)] + children;
      FirstNameConcat(NodeLabels(item), ForestLabels(data[1..]), id);
      FirstNameConcat([(item.id, item.name)], children, id);
      if item.id != id {
        assert FirstName([(item.id, item.name)], id) == None by {
          assert [(item.id, item.name)][1..] == [];
        }
        if item.childTemplent.Present? {
          assert !ForestHasNode(item.childTemplent.nodes, id, "");
          FindIsFirst(item.childTemplent.nodes, id);
          var found := FindTitle(item.childTemplent.nodes, id);
          if found.Some? {
            FoundIsNamed(item.childTemplent.nodes, id);
          }
        }
        FindIsFirst(data[1..], id);
      }
    }
  }

  // ---------------------------------------------------------------------------------------------
  // The Step1 component's selection state
  // ---------------------------------------------------------------------------------------------

  /**
   * `selectedKey` and `selectedTitle` of the first step. A missing selected key (an empty
   * `selectedKeys`) is falsy everywhere the component reads it, so it is `""` here.
   */
  class Step1State {
    var selectedKey: string
    var selectedTitle: string

    constructor ()
      ensures selectedKey == "" && selectedTitle == ""
    {
      selectedKey := "";
      selectedTitle := "";
    }

    /** The effect: with nothing selected yet, preselect `templentId` and look up its title. */
    method SyncTemplentId(categoryTree: seq<TreeNode>, templentId: Option<string>)
      modifies this
      ensures old(selectedKey) == "" && Truthy(templentId) ==>
        && selectedKey == templentId.value
        && selectedTitle == (if Truthy(FindTitle(categoryTree, templentId.value))
                             then FindTitle(categoryTree, templentId.value).value else old(selectedTitle))
      ensures !(old(selectedKey) == "" && Truthy(templentId)) ==>
        selectedKey == old(selectedKey) && selectedTitle == old(selectedTitle)
    {
      if selectedKey == "" && templentId.Some? && templentId.value != "" {
        selectedKey := templentId.value;
        var title := FindNodeTitleById(categoryTree, templentId.value);
        if title.Some? && title.value != "" {
          selectedTitle := title.value;
        }
      }
    }

    /** `onSelect`: only a node without children can be selected. */
    method OnSelect(selectedKeys: seq<string>, node: TransformedNode)
      modifies this
      ensures node.children.Nodes? && |node.children.nodes| > 0 ==>
        selectedKey == old(selectedKey) && selectedTitle == old(selectedTitle)
      ensures !(node.children.Nodes? && |node.children.nodes| > 0) ==>
        selectedKey == (if |selectedKeys| > 0 then selectedKeys[0] else "") && selectedTitle == node.title
    {
      if node.children.Nodes? && |node.children.nodes| > 0 {
        return;
      }
      selectedKey := if |selectedKeys| > 0 then selectedKeys[0] else "";
      selectedTitle := node.title;
    }

    /** `handleNextStep`: the key handed to `onNext`, which is called only with a non-empty selection. */
    method HandleNextStep() returns (next: Option<string>)
      ensures next.Some? <==> selectedKey != ""
      ensures next.Some? ==> next.value == selectedKey
    {
      next := None;
      if selectedKey != "" {
        next := Some(selectedKey);
      }
    }
  }

  /** Selecting a disabled node of the transformed tree changes nothing. */
  method SelectDisabledIsIgnored(s: Step1State, keys: seq<string>, data: seq<TreeNode>, i: int)
    requires 0 <= i < |data| && HasChildren(data[i])
    modifies s
    ensures s.selectedKey == old(s.selectedKey) && s.selectedTitle == old(s.selectedTitle)
  {
    DisabledIffInner(data[i]);
    s.OnSelect(keys, TransformTreeData(data)[i]);
  }
}
