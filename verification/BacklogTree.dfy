/** The backlog as four tables, and the name lookups that grid entry uses. */
module BacklogTree {
  import opened Common

  type Id = string
  type Key = string

  /** A name in the two forms in use: the trimmed text that is stored, and its normalised form for comparison. */
  datatype Name = Name(text: string, key: Key)

  datatype Kind = EpicRow | FeatureRow | StoryRow | TaskRow

  /** An epic, feature, story or task. An epic's parent is the project, written "". */
  datatype Node = Node(id: Id, name: Name, parentId: Id)

  datatype Tree = Tree(epics: seq<Node>, features: seq<Node>, stories: seq<Node>, tasks: seq<Node>)

  function Table(tree: Tree, kind: Kind): seq<Node> {
    match kind
    case EpicRow => tree.epics
    case FeatureRow => tree.features
    case StoryRow => tree.stories
    case TaskRow => tree.tasks
  }

  function Rank(kind: Kind): nat {
    match kind
    case EpicRow => 0
    case FeatureRow => 1
    case StoryRow => 2
    case TaskRow => 3
  }

  function ParentKind(kind: Kind): Kind {
    match kind
    case TaskRow => StoryRow
    case StoryRow => FeatureRow
    case _ => EpicRow
  }

  ghost predicate DistinctNodes(nodes: seq<Node>) {
    forall i, j :: 0 <= i < j < |nodes| ==> nodes[i].id != nodes[j].id
  }

  ghost predicate HasId(nodes: seq<Node>, id: Id) {
    exists n :: n in nodes && n.id == id
  }

  ghost predicate Parented(nodes: seq<Node>, parents: seq<Node>) {
    forall n :: n in nodes ==> HasId(parents, n.parentId)
  }

  /** Identifiers are unique in each table, and every parent reference points at a row. */
  ghost predicate SoundTree(tree: Tree) {
    && DistinctNodes(tree.epics) && DistinctNodes(tree.features) && DistinctNodes(tree.stories) && DistinctNodes(tree.tasks)
    && (forall n :: n in tree.epics ==> n.parentId == "")
    && Parented(tree.features, tree.epics) && Parented(tree.stories, tree.features) && Parented(tree.tasks, tree.stories)
  }

  predicate Siblings(a: Node, b: Node) {
    a.parentId == b.parentId && a.name.key == b.name.key
  }

  /** No two rows of a table share parent and normalised name. */
  ghost predicate UniqueSiblings(nodes: seq<Node>) {
    forall i, j :: 0 <= i < j < |nodes| ==> !Siblings(nodes[i], nodes[j])
  }

  ghost predicate UniqueNames(tree: Tree) {
    UniqueSiblings(tree.epics) && UniqueSiblings(tree.features) && UniqueSiblings(tree.stories) && UniqueSiblings(tree.tasks)
  }

  // ── Lookups ────────────────────────────────────────────────────────────────

  function Filter<T>(s: seq<T>, keep: T -> bool): seq<T> {
    if s == [] then []
    else Filter(s[..|s| - 1], keep) + if keep(s[|s| - 1]) then [s[|s| - 1]] else []
  }

  lemma {:induction false} FilterMembers<T>(s: seq<T>, keep: T -> bool)
    ensures forall x :: x in Filter(s, keep) <==> x in s && keep(x)
  {
    if s == [] {
    } else {
      FilterMembers(s[..|s| - 1], keep);
      assert s == s[..|s| - 1] + [s[|s| - 1]];
    }
  }

  function FindById(nodes: seq<Node>, id: Id): Option<Node> {
    if nodes == [] then None
    else if nodes[0].id == id then Some(nodes[0])
    else FindById(nodes[1..], id)
  }

  lemma {:induction false} FindByIdIs(nodes: seq<Node>, id: Id)
    ensures FindById(nodes, id).None? <==> !HasId(nodes, id)
    ensures FindById(nodes, id).Some? ==> FindById(nodes, id).value in nodes && FindById(nodes, id).value.id == id
    ensures DistinctNodes(nodes) ==> forall n :: n in nodes && n.id == id ==> FindById(nodes, id) == Some(n)
  {
    if nodes != [] && nodes[0].id != id {
      FindByIdIs(nodes[1..], id);
      assert nodes == [nodes[0]] + nodes[1..];
    } else if nodes != [] {
      assert nodes[0] in nodes;
    }
  }

  function Children(nodes: seq<Node>, parentId: Id): seq<Node> {
    Filter(nodes, (n: Node) => n.parentId == parentId)
  }

  function Matching(items: seq<Node>, name: Name): seq<Node> {
    Filter(items, (n: Node) => n.name.key == name.key)
  }

  datatype Lookup = Missing | Ambiguous | Found(node: Node)

  function FindUniqueByName(items: seq<Node>, name: Name): Lookup {
    var matches := Matching(items, name);
    if |matches| > 1 then Ambiguous else if matches == [] then Missing else Found(matches[0])
  }

  lemma ChildrenMembers(nodes: seq<Node>, parentId: Id)
    ensures forall n :: n in Children(nodes, parentId) <==> n in nodes && n.parentId == parentId
  {
    FilterMembers(nodes, (n: Node) => n.parentId == parentId);
  }

  lemma LookupSound(items: seq<Node>, name: Name)
    ensures FindUniqueByName(items, name).Missing? <==> forall n :: n in items ==> n.name.key != name.key
    ensures FindUniqueByName(items, name).Found? ==>
              FindUniqueByName(items, name).node in items && FindUniqueByName(items, name).node.name.key == name.key
  {
    var matches := Matching(items, name);
    FilterMembers(items, (n: Node) => n.name.key == name.key);
    if matches != [] {
      assert matches[0] in matches;
    }
  }

  lemma {:induction false} FilterKeepsUnique(nodes: seq<Node>, keep: Node -> bool)
    requires UniqueSiblings(nodes)
    ensures UniqueSiblings(Filter(nodes, keep))
  {
    if nodes == [] {
    } else {
      var last := |nodes| - 1;
      FilterKeepsUnique(nodes[..last], keep);
      FilterMembers(nodes[..last], keep);
      forall n | n in Filter(nodes[..last], keep)
        ensures !Siblings(n, nodes[last])
      {
        assert n in nodes[..last];
      }
    }
  }

  lemma TwoSiblings(nodes: seq<Node>, node: Node)
    requires |nodes| > 1 && forall n :: n in nodes ==> Siblings(n, node)
    ensures !UniqueSiblings(nodes)
  {
    assert nodes[0] in nodes && nodes[1] in nodes;
    assert Siblings(nodes[0], nodes[1]);
  }

  /** Among uniquely named siblings a name finds its node and no other. */
  lemma UniqueChildFound(nodes: seq<Node>, node: Node, name: Name)
    requires UniqueSiblings(nodes) && node in nodes && node.name.key == name.key
    ensures FindUniqueByName(Children(nodes, node.parentId), name) == Found(node)
  {
    var children := Children(nodes, node.parentId);
    ChildrenMembers(nodes, node.parentId);
    FilterKeepsUnique(nodes, (n: Node) => n.parentId == node.parentId);
    FilterKeepsUnique(children, (n: Node) => n.name.key == name.key);
    FilterMembers(children, (n: Node) => n.name.key == name.key);
    var matches := Matching(children, name);
    if |matches| > 1 {
      TwoSiblings(matches, node);
    }
    assert node in matches;
  }

  /** Epics are the children of the project. */
  lemma {:induction false} AllEpicsAreTopLevel(epics: seq<Node>)
    requires forall n :: n in epics ==> n.parentId == ""
    ensures Children(epics, "") == epics
  {
    if epics == [] {
    } else {
      var last := |epics| - 1;
      assert epics == epics[..last] + [epics[last]];
      AllEpicsAreTopLevel(epics[..last]);
      FilterSplit(epics, (n: Node) => n.parentId == "");
    }
  }

  lemma FilterSplit(nodes: seq<Node>, keep: Node -> bool)
    requires nodes != []
    ensures Filter(nodes, keep)
         == Filter(nodes[..|nodes| - 1], keep) + if keep(nodes[|nodes| - 1]) then [nodes[|nodes| - 1]] else []
  {
  }
}
