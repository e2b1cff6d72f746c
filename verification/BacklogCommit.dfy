/**
 * The grid-entry commit: rows are written in rank order under the parents found by name,
 * and what the validator accepted leaves every level of the tree uniquely named.
 */
module BacklogCommit {
  import opened Common
  import opened BacklogPaths
  import opened BacklogTree
  import opened BacklogValidation

  // ── Where the commit puts a row ────────────────────────────────────────────

  /** The names from the epic down to the given node, before the batch. */
  function OriginalKeys(tree: Tree, kind: Kind, node: Node): seq<Key> {
    FinalKeys(tree, [], kind, node)
  }

  function ParentPath(row: GridRow): seq<Key> {
    RawKeys(row)[..Rank(row.kind)]
  }

  predicate Creates(row: GridRow, kind: Kind) {
    IsNew(row) && row.kind == kind
  }

  /** Identifiers by joined name path, as the commit first loads them; a later node replaces an earlier one. */
  function ExistingIds(tree: Tree, kind: Kind, nodes: seq<Node>): map<string, Id> {
    if nodes == [] then map[]
    else
      var last := nodes[|nodes| - 1];
      ExistingIds(tree, kind, nodes[..|nodes| - 1])[Join(OriginalKeys(tree, kind, last)) := last.id]
  }

  /** The identifiers known by joined name path once the first n rows are written; a later entry replaces an earlier one. */
  function KnownIds(tree: Tree, rows: seq<GridRow>, ids: seq<Id>, kind: Kind, n: nat): map<string, Id>
    requires n <= |rows| == |ids|
  {
    if n == 0 then ExistingIds(tree, kind, Table(tree, kind))
    else
      var before := KnownIds(tree, rows, ids, kind, n - 1);
      if Creates(rows[n - 1], kind) then before[Join(RawKeys(rows[n - 1])) := ids[n - 1]] else before
  }

  function ParentOf(tree: Tree, rows: seq<GridRow>, ids: seq<Id>, row: GridRow): Option<Id>
    requires |rows| == |ids|
  {
    if row.kind == EpicRow then Some("")
    else
      var known := KnownIds(tree, rows, ids, ParentKind(row.kind), |rows|);
      var path := Join(ParentPath(row));
      if path in known then Some(known[path]) else None
  }

  function Renamed(nodes: seq<Node>, rows: seq<GridRow>, kind: Kind): (r: seq<Node>)
    ensures |r| == |nodes|
    ensures forall i :: 0 <= i < |r| ==> r[i] == nodes[i].(name := FinalName(rows, kind, nodes[i]))
  {
    seq(|nodes|, i requires 0 <= i < |nodes| => nodes[i].(name := FinalName(rows, kind, nodes[i])))
  }

  function NewNode(tree: Tree, rows: seq<GridRow>, ids: seq<Id>, i: nat): Node
    requires i < |rows| == |ids|
  {
    var parent := ParentOf(tree, rows, ids, rows[i]);
    Node(ids[i], rows[i].name, if parent.Some? then parent.value else "")
  }

  function Created(tree: Tree, rows: seq<GridRow>, ids: seq<Id>, kind: Kind, n: nat): seq<Node>
    requires n <= |rows| == |ids|
  {
    if n == 0 then []
    else
      Created(tree, rows, ids, kind, n - 1) + if Creates(rows[n - 1], kind) then [NewNode(tree, rows, ids, n - 1)] else []
  }

  function CommittedTable(tree: Tree, rows: seq<GridRow>, ids: seq<Id>, kind: Kind): seq<Node>
    requires |rows| == |ids|
  {
    Renamed(Table(tree, kind), rows, kind) + Created(tree, rows, ids, kind, |rows|)
  }

  function CommittedTree(tree: Tree, rows: seq<GridRow>, ids: seq<Id>): Tree
    requires |rows| == |ids|
  {
    Tree(CommittedTable(tree, rows, ids, EpicRow), CommittedTable(tree, rows, ids, FeatureRow),
         CommittedTable(tree, rows, ids, StoryRow), CommittedTable(tree, rows, ids, TaskRow))
  }

  /** The store hands out identifiers that are new and distinct. */
  ghost predicate FreshIds(ids: seq<Id>, tree: Tree, rows: seq<GridRow>) {
    && |ids| == |rows|
    && NoDuplicates(ids)
    && forall kind, n, i :: n in Table(tree, kind) && 0 <= i < |ids| ==> n.id != ids[i]
  }

  // ── What the name maps know ────────────────────────────────────────────────

  ghost predicate NodeEntry(tree: Tree, kind: Kind, nodes: seq<Node>, keys: seq<Key>, id: Id) {
    exists n :: n in nodes && n.id == id && OriginalKeys(tree, kind, n) == keys
  }

  ghost predicate RowEntry(rows: seq<GridRow>, ids: seq<Id>, kind: Kind, n: nat, keys: seq<Key>, id: Id)
    requires n <= |rows| == |ids|
  {
    exists i :: 0 <= i < n && Creates(rows[i], kind) && ids[i] == id && RawKeys(rows[i]) == keys
  }

  /** The identifier belongs to a node, or to one of the first n rows, of exactly these names. */
  ghost predicate Names(tree: Tree, rows: seq<GridRow>, ids: seq<Id>, kind: Kind, n: nat, keys: seq<Key>, id: Id)
    requires n <= |rows| == |ids|
  {
    NodeEntry(tree, kind, Table(tree, kind), keys, id) || RowEntry(rows, ids, kind, n, keys, id)
  }

  function LastExisting(tree: Tree, kind: Kind, nodes: seq<Node>, path: string): Option<seq<Key>> {
    if nodes == [] then None
    else
      var keys := OriginalKeys(tree, kind, nodes[|nodes| - 1]);
      if Join(keys) == path then Some(keys) else LastExisting(tree, kind, nodes[..|nodes| - 1], path)
  }

  /** The names last entered under a joined path, by the nodes in table order and then the rows in batch order. */
  function LastNames(tree: Tree, rows: seq<GridRow>, kind: Kind, n: nat, path: string): Option<seq<Key>>
    requires n <= |rows|
  {
    if n == 0 then LastExisting(tree, kind, Table(tree, kind), path)
    else if Creates(rows[n - 1], kind) && Join(RawKeys(rows[n - 1])) == path then Some(RawKeys(rows[n - 1]))
    else LastNames(tree, rows, kind, n - 1, path)
  }

  lemma {:induction false} ExistingIdsMean(tree: Tree, kind: Kind, nodes: seq<Node>, path: string)
    ensures path in ExistingIds(tree, kind, nodes) <==> LastExisting(tree, kind, nodes, path).Some?
    ensures path in ExistingIds(tree, kind, nodes) ==>
              var keys := LastExisting(tree, kind, nodes, path).value;
              Join(keys) == path && NodeEntry(tree, kind, nodes, keys, ExistingIds(tree, kind, nodes)[path])
    ensures forall n :: n in nodes && Join(OriginalKeys(tree, kind, n)) == path ==> path in ExistingIds(tree, kind, nodes)
  {
    hide Join, OriginalKeys;
    if nodes == [] {
    } else {
      var last := |nodes| - 1;
      ExistingIdsMean(tree, kind, nodes[..last], path);
      assert nodes == nodes[..last] + [nodes[last]];
    }
  }

  /** A joined path is known exactly when something was entered under it, and then leads to what was entered last. */
  lemma {:induction false} KnownMeans(tree: Tree, rows: seq<GridRow>, ids: seq<Id>, kind: Kind, n: nat, path: string)
    requires n <= |rows| == |ids|
    ensures path in KnownIds(tree, rows, ids, kind, n) <==> LastNames(tree, rows, kind, n, path).Some?
    ensures path in KnownIds(tree, rows, ids, kind, n) ==>
              var keys := LastNames(tree, rows, kind, n, path).value;
              Join(keys) == path && Names(tree, rows, ids, kind, n, keys, KnownIds(tree, rows, ids, kind, n)[path])
    ensures forall node :: node in Table(tree, kind) && Join(OriginalKeys(tree, kind, node)) == path ==>
              path in KnownIds(tree, rows, ids, kind, n)
    ensures forall i :: 0 <= i < n && Creates(rows[i], kind) && Join(RawKeys(rows[i])) == path ==>
              path in KnownIds(tree, rows, ids, kind, n)
  {
    hide Join, OriginalKeys, RawKeys;
    if n == 0 {
      ExistingIdsMean(tree, kind, Table(tree, kind), path);
    } else {
      KnownMeans(tree, rows, ids, kind, n - 1, path);
      forall keys, id | RowEntry(rows, ids, kind, n - 1, keys, id)
        ensures RowEntry(rows, ids, kind, n, keys, id)
      {
      }
    }
  }

  lemma NodeIsKnown(tree: Tree, rows: seq<GridRow>, ids: seq<Id>, kind: Kind, node: Node)
    requires |rows| == |ids| && node in Table(tree, kind)
    ensures Join(OriginalKeys(tree, kind, node)) in KnownIds(tree, rows, ids, kind, |rows|)
  {
    KnownMeans(tree, rows, ids, kind, |rows|, Join(OriginalKeys(tree, kind, node)));
  }

  lemma RowIsKnown(tree: Tree, rows: seq<GridRow>, ids: seq<Id>, kind: Kind, i: nat)
    requires i < |rows| == |ids| && Creates(rows[i], kind)
    ensures Join(RawKeys(rows[i])) in KnownIds(tree, rows, ids, kind, |rows|)
  {
    KnownMeans(tree, rows, ids, kind, |rows|, Join(RawKeys(rows[i])));
  }

  /** An identifier has one list of names only. */
  lemma NamedOnce(tree: Tree, rows: seq<GridRow>, ids: seq<Id>, kind: Kind, a: seq<Key>, b: seq<Key>, id: Id)
    requires FreshIds(ids, tree, rows) && DistinctNodes(Table(tree, kind))
    requires Names(tree, rows, ids, kind, |rows|, a, id) && Names(tree, rows, ids, kind, |rows|, b, id)
    ensures a == b
  {
    if NodeEntry(tree, kind, Table(tree, kind), a, id) {
      OneNodeEntry(tree, rows, ids, kind, a, b, id);
    } else if NodeEntry(tree, kind, Table(tree, kind), b, id) {
      OneNodeEntry(tree, rows, ids, kind, b, a, id);
    }
  }

  lemma OneNodeEntry(tree: Tree, rows: seq<GridRow>, ids: seq<Id>, kind: Kind, a: seq<Key>, b: seq<Key>, id: Id)
    requires FreshIds(ids, tree, rows) && DistinctNodes(Table(tree, kind)) && NodeEntry(tree, kind, Table(tree, kind), a, id)
    ensures NodeEntry(tree, kind, Table(tree, kind), b, id) ==> a == b
    ensures !RowEntry(rows, ids, kind, |rows|, b, id)
  {
    FindByIdIs(Table(tree, kind), id);
  }

  // ── Which rows find the parent they name ───────────────────────────────────

  /** Other names were entered last under the joined path of the row's parent. */
  predicate Misled(tree: Tree, rows: seq<GridRow>, row: GridRow) {
    && row.kind != EpicRow
    && LastNames(tree, rows, ParentKind(row.kind), |rows|, Join(ParentPath(row))) != Some(ParentPath(row))
  }

  /** The parent a row is written under bears the names the row gives exactly when the row is not misled. */
  lemma ParentBearsNamesExactly(tree: Tree, rows: seq<GridRow>, ids: seq<Id>, row: GridRow)
    requires SoundTree(tree) && FreshIds(ids, tree, rows) && row.kind != EpicRow
    requires ParentOf(tree, rows, ids, row).Some?
    ensures Names(tree, rows, ids, ParentKind(row.kind), |rows|, ParentPath(row), ParentOf(tree, rows, ids, row).value)
       <==> !Misled(tree, rows, row)
  {
    hide Join, OriginalKeys, RawKeys;
    var kind := ParentKind(row.kind);
    var path := Join(ParentPath(row));
    KnownMeans(tree, rows, ids, kind, |rows|, path);
    var keys := LastNames(tree, rows, kind, |rows|, path).value;
    if Names(tree, rows, ids, kind, |rows|, ParentPath(row), ParentOf(tree, rows, ids, row).value) {
      NamedOnce(tree, rows, ids, kind, keys, ParentPath(row), ParentOf(tree, rows, ids, row).value);
    }
  }

  // ── Accepted batches always find their parents ─────────────────────────────

  lemma ParentKeys(tree: Tree, rows: seq<GridRow>, kind: Kind, node: Node, parent: Node)
    requires SoundTree(tree) && kind != EpicRow
    requires node in Table(tree, kind) && parent in Table(tree, ParentKind(kind)) && parent.id == node.parentId
    ensures FinalKeys(tree, rows, kind, node)
         == FinalKeys(tree, rows, ParentKind(kind), parent) + [FinalName(rows, kind, node).key]
  {
    FindByIdIs(Table(tree, ParentKind(kind)), node.parentId);
  }

  lemma ParentPathIs(row: GridRow)
    requires row.kind != EpicRow
    ensures ParentPath(row) ==
            match row.kind
            case FeatureRow => [row.epicName.key]
            case StoryRow => [row.epicName.key, row.featureName.key]
            case _ => [row.epicName.key, row.featureName.key, row.storyName.key]
  {
  }

  lemma EpicKeys(tree: Tree, rows: seq<GridRow>, epic: Node)
    ensures FinalKeys(tree, rows, EpicRow, epic) == [FinalName(rows, EpicRow, epic).key]
  {
  }

  /** The original path of a node is its parent's, then its own name. */
  lemma OriginalSplits(tree: Tree, kind: Kind, node: Node, parent: Node)
    requires SoundTree(tree) && kind != EpicRow
    requires node in Table(tree, kind) && parent in Table(tree, ParentKind(kind)) && parent.id == node.parentId
    ensures var keys := OriginalKeys(tree, kind, node);
            keys != [] && keys[|keys| - 1] == node.name.key && keys[..|keys| - 1] == OriginalKeys(tree, ParentKind(kind), parent)
  {
    ParentKeys(tree, [], kind, node, parent);
  }

  lemma ResolvedEpicIsKnown(tree: Tree, rows: seq<GridRow>, ids: seq<Id>, row: GridRow)
    requires |rows| == |ids|
    requires var epic := ResolveEpic(tree, rows, row); epic.ExistingEpic? || epic.StagedEpic?
    ensures Join([row.epicName.key]) in KnownIds(tree, rows, ids, EpicRow, |rows|)
  {
    hide Join;
    LookupSound(tree.epics, row.epicName);
    if FindUniqueByName(tree.epics, row.epicName).Found? {
      var epic := FindUniqueByName(tree.epics, row.epicName).node;
      EpicKeys(tree, [], epic);
      NodeIsKnown(tree, rows, ids, EpicRow, epic);
    } else {
      StagedMembers(rows, EpicRow);
      var r :| r in StagedRows(rows, EpicRow) && r.name.key == row.epicName.key;
      var i :| 0 <= i < |rows| && rows[i] == r;
      RowIsKnown(tree, rows, ids, EpicRow, i);
    }
  }

  lemma ResolvedFeatureIsKnown(tree: Tree, rows: seq<GridRow>, ids: seq<Id>, row: GridRow)
    requires SoundTree(tree) && |rows| == |ids|
    requires var feature := FindUniqueByName(EpicFeatures(tree, ResolveEpic(tree, rows, row)), row.featureName);
             StagedFeatureFor(rows, row) || feature.Found?
    ensures Join([row.epicName.key, row.featureName.key]) in KnownIds(tree, rows, ids, FeatureRow, |rows|)
  {
    hide Join;
    if StagedFeatureFor(rows, row) {
      StagedMembers(rows, FeatureRow);
      var r :| r in StagedRows(rows, FeatureRow) && r.epicName.key == row.epicName.key && r.name.key == row.featureName.key;
      var i :| 0 <= i < |rows| && rows[i] == r;
      RowIsKnown(tree, rows, ids, FeatureRow, i);
    } else {
      var feature := FoundFeature(tree, rows, row);
      NodeIsKnown(tree, rows, ids, FeatureRow, feature);
    }
  }

  /** A feature found by name under an epic found by name carries both names. */
  lemma FoundFeature(tree: Tree, rows: seq<GridRow>, row: GridRow) returns (feature: Node)
    requires SoundTree(tree)
    requires FindUniqueByName(EpicFeatures(tree, ResolveEpic(tree, rows, row)), row.featureName).Found?
    ensures feature == FindUniqueByName(EpicFeatures(tree, ResolveEpic(tree, rows, row)), row.featureName).node
    ensures feature in tree.features && OriginalKeys(tree, FeatureRow, feature) == [row.epicName.key, row.featureName.key]
  {
    var epic := ResolveEpic(tree, rows, row);
    LookupSound(EpicFeatures(tree, epic), row.featureName);
    LookupSound(tree.epics, row.epicName);
    ChildrenMembers(tree.features, epic.id);
    var node := FindUniqueByName(tree.epics, row.epicName).node;
    feature := FindUniqueByName(EpicFeatures(tree, epic), row.featureName).node;
    ParentKeys(tree, [], FeatureRow, feature, node);
  }

  lemma ResolvedStoryIsKnown(tree: Tree, rows: seq<GridRow>, ids: seq<Id>, row: GridRow)
    requires SoundTree(tree) && |rows| == |ids|
    requires var feature := FindUniqueByName(EpicFeatures(tree, ResolveEpic(tree, rows, row)), row.featureName);
             StagedStoryFor(rows, row) || FindUniqueByName(FeatureStories(tree, feature), row.storyName).Found?
    ensures Join([row.epicName.key, row.featureName.key, row.storyName.key]) in KnownIds(tree, rows, ids, StoryRow, |rows|)
  {
    hide Join;
    if StagedStoryFor(rows, row) {
      StagedMembers(rows, StoryRow);
      var r :| r in StagedRows(rows, StoryRow)
        && r.epicName.key == row.epicName.key && r.featureName.key == row.featureName.key && r.name.key == row.storyName.key;
      var i :| 0 <= i < |rows| && rows[i] == r;
      RowIsKnown(tree, rows, ids, StoryRow, i);
    } else {
      var story := FoundStory(tree, rows, row);
      NodeIsKnown(tree, rows, ids, StoryRow, story);
    }
  }

  lemma FoundStory(tree: Tree, rows: seq<GridRow>, row: GridRow) returns (story: Node)
    requires SoundTree(tree)
    requires var feature := FindUniqueByName(EpicFeatures(tree, ResolveEpic(tree, rows, row)), row.featureName);
             FindUniqueByName(FeatureStories(tree, feature), row.storyName).Found?
    ensures story in tree.stories
    ensures OriginalKeys(tree, StoryRow, story) == [row.epicName.key, row.featureName.key, row.storyName.key]
  {
    var found := FindUniqueByName(EpicFeatures(tree, ResolveEpic(tree, rows, row)), row.featureName);
    LookupSound(FeatureStories(tree, found), row.storyName);
    var feature := FoundFeature(tree, rows, row);
    ChildrenMembers(tree.stories, feature.id);
    story := FindUniqueByName(FeatureStories(tree, found), row.storyName).node;
    ParentKeys(tree, [], StoryRow, story, feature);
  }

  /** None of the three unresolved-parent errors can follow an accepted validation. */
  lemma AcceptedParentsResolve(tree: Tree, rows: seq<GridRow>, ids: seq<Id>, resourceTypes: seq<ResourceType>, row: GridRow)
    requires SoundTree(tree) && |rows| == |ids| && Accepted(tree, rows, resourceTypes)
    requires row in rows && IsNew(row)
    ensures ParentOf(tree, rows, ids, row).Some?
  {
    if row.kind != EpicRow {
      ParentPathIs(row);
      assert GoodRow(tree, row, resourceTypes) && NeedsParent(row) && ParentsResolve(tree, rows, row);
      match row.kind
      case FeatureRow => ResolvedEpicIsKnown(tree, rows, ids, row);
      case StoryRow => ResolvedFeatureIsKnown(tree, rows, ids, row);
      case _ => ResolvedStoryIsKnown(tree, rows, ids, row);
    }
  }

  // ── The validator's prediction is where the commit puts the row ────────────

  lemma UniqueTable(tree: Tree, kind: Kind)
    requires UniqueNames(tree)
    ensures UniqueSiblings(Table(tree, kind))
  {
  }

  /** A name path that leads to an existing node resolves to it, under its final name. */
  lemma FinalEpicFound(tree: Tree, rows: seq<GridRow>, epic: Node, name: Name)
    requires SoundTree(tree) && UniqueNames(tree) && epic in tree.epics && epic.name.key == name.key
    ensures ResolveFinalEpic(tree, rows, name) == Resolved(Some(epic.id), FinalName(rows, EpicRow, epic))
  {
    AllEpicsAreTopLevel(tree.epics);
    UniqueChildFound(tree.epics, epic, name);
  }

  lemma ParentNode(tree: Tree, kind: Kind, node: Node) returns (parent: Node)
    requires SoundTree(tree) && kind != EpicRow && node in Table(tree, kind)
    ensures parent in Table(tree, ParentKind(kind)) && parent.id == node.parentId
  {
    assert HasId(Table(tree, ParentKind(kind)), node.parentId);
    parent :| parent in Table(tree, ParentKind(kind)) && parent.id == node.parentId;
  }

  lemma FinalFeatureFound(tree: Tree, rows: seq<GridRow>, feature: Node, epicName: Name, name: Name)
    requires SoundTree(tree) && UniqueNames(tree) && feature in tree.features
    requires OriginalKeys(tree, FeatureRow, feature) == [epicName.key, name.key]
    ensures ResolveFinalFeature(tree, rows, epicName, name) == Resolved(Some(feature.id), FinalName(rows, FeatureRow, feature))
    ensures ResolveFinalEpic(tree, rows, epicName).Resolved?
    ensures FinalKeys(tree, rows, FeatureRow, feature)
         == [ResolveFinalEpic(tree, rows, epicName).finalName.key, FinalName(rows, FeatureRow, feature).key]
  {
    var epic := ParentNode(tree, FeatureRow, feature);
    OriginalSplits(tree, FeatureRow, feature, epic);
    EpicKeys(tree, [], epic);
    assert OriginalKeys(tree, EpicRow, epic)[0] == epicName.key;
    EpicKeys(tree, rows, epic);
    ParentKeys(tree, rows, FeatureRow, feature, epic);
    FinalEpicFound(tree, rows, epic, epicName);
    UniqueChildFound(tree.features, feature, name);
  }

  lemma FinalStoryFound(tree: Tree, rows: seq<GridRow>, story: Node, epicName: Name, featureName: Name, name: Name)
    requires SoundTree(tree) && UniqueNames(tree) && story in tree.stories
    requires OriginalKeys(tree, StoryRow, story) == [epicName.key, featureName.key, name.key]
    ensures ResolveFinalStory(tree, rows, epicName, featureName, name) == Resolved(Some(story.id), FinalName(rows, StoryRow, story))
    ensures ResolveFinalEpic(tree, rows, epicName).Resolved? && ResolveFinalFeature(tree, rows, epicName, featureName).Resolved?
    ensures FinalKeys(tree, rows, StoryRow, story)
         == [ResolveFinalEpic(tree, rows, epicName).finalName.key,
             ResolveFinalFeature(tree, rows, epicName, featureName).finalName.key,
             FinalName(rows, StoryRow, story).key]
  {
    var feature := ParentNode(tree, StoryRow, story);
    OriginalSplits(tree, StoryRow, story, feature);
    ParentKeys(tree, rows, StoryRow, story, feature);
    FinalFeatureFound(tree, rows, feature, epicName, featureName);
    StoryUnderFeature(tree, rows, story, epicName, featureName, name);
  }

  lemma StoryUnderFeature(tree: Tree, rows: seq<GridRow>, story: Node, epicName: Name, featureName: Name, name: Name)
    requires UniqueNames(tree) && story in tree.stories && story.name.key == name.key
    requires var feature := ResolveFinalFeature(tree, rows, epicName, featureName);
             feature.Resolved? && feature.id == Some(story.parentId)
    ensures ResolveFinalStory(tree, rows, epicName, featureName, name) == Resolved(Some(story.id), FinalName(rows, StoryRow, story))
  {
    UniqueChildFound(tree.stories, story, name);
  }

  lemma ExistingParentPath(tree: Tree, rows: seq<GridRow>, ids: seq<Id>, row: GridRow, parent: Node)
    requires SoundTree(tree) && FreshIds(ids, tree, rows) && row.kind != EpicRow && !Misled(tree, rows, row)
    requires parent in Table(tree, ParentKind(row.kind)) && ParentOf(tree, rows, ids, row) == Some(parent.id)
    ensures OriginalKeys(tree, ParentKind(row.kind), parent) == ParentPath(row)
  {
    ParentBearsNamesExactly(tree, rows, ids, row);
    assert NodeEntry(tree, ParentKind(row.kind), Table(tree, ParentKind(row.kind)), OriginalKeys(tree, ParentKind(row.kind), parent), parent.id);
    NamedOnce(tree, rows, ids, ParentKind(row.kind), ParentPath(row), OriginalKeys(tree, ParentKind(row.kind), parent), parent.id);
  }

  /** The parent that the commit finds, when it already exists and the row is not misled, is the one the proposed path goes through. */
  lemma ProposedUnderExisting(tree: Tree, rows: seq<GridRow>, ids: seq<Id>, row: GridRow, parent: Node)
    requires SoundTree(tree) && UniqueNames(tree) && FreshIds(ids, tree, rows)
    requires IsNew(row) && row.kind != EpicRow && !Misled(tree, rows, row)
    requires parent in Table(tree, ParentKind(row.kind)) && ParentOf(tree, rows, ids, row) == Some(parent.id)
    ensures RowPath(tree, rows, row)
         == Some(GridPath(row.kind, Join(FinalKeys(tree, rows, ParentKind(row.kind), parent) + [row.name.key])))
  {
    hide Join;
    ExistingParentPath(tree, rows, ids, row, parent);
    ProposedKeysAre(tree, rows, row, parent);
  }

  lemma ProposedKeysAre(tree: Tree, rows: seq<GridRow>, row: GridRow, parent: Node)
    requires SoundTree(tree) && UniqueNames(tree) && row.kind != EpicRow
    requires parent in Table(tree, ParentKind(row.kind)) && OriginalKeys(tree, ParentKind(row.kind), parent) == ParentPath(row)
    ensures ProposedKeys(tree, rows, row) == Some(FinalKeys(tree, rows, ParentKind(row.kind), parent) + [row.name.key])
  {
    ParentPathIs(row);
    match row.kind
    case FeatureRow =>
      assert ParentPath(row)[0] == row.epicName.key;
      EpicKeys(tree, [], parent);
      EpicKeys(tree, rows, parent);
      FinalEpicFound(tree, rows, parent, row.epicName);
      assert FinalKeys(tree, rows, EpicRow, parent) + [row.name.key] == [FinalName(rows, EpicRow, parent).key, row.name.key];
    case StoryRow =>
      FinalFeatureFound(tree, rows, parent, row.epicName, row.featureName);
      var e := ResolveFinalEpic(tree, rows, row.epicName).finalName.key;
      var f := FinalName(rows, FeatureRow, parent).key;
      assert [e, f] + [row.name.key] == [e, f, row.name.key];
    case TaskRow =>
      FinalStoryFound(tree, rows, parent, row.epicName, row.featureName, row.storyName);
      var e := ResolveFinalEpic(tree, rows, row.epicName).finalName.key;
      var f := ResolveFinalFeature(tree, rows, row.epicName, row.featureName).finalName.key;
      var s := FinalName(rows, StoryRow, parent).key;
      assert [e, f, s] + [row.name.key] == [e, f, s, row.name.key];
  }

  // ── Uniqueness of the committed tree ───────────────────────────────────────

  lemma {:induction false} UnsubmittedKeepsName(rows: seq<GridRow>, kind: Kind, node: Node)
    requires !Submitted(rows, kind, node.id)
    ensures FinalName(rows, kind, node) == node.name
  {
    if rows == [] {
    } else {
      var last := |rows| - 1;
      assert rows[last] in rows;
      assert forall r :: r in rows[..last] ==> r in rows;
      UnsubmittedKeepsName(rows[..last], kind, node);
    }
  }

  lemma SameFinalPath(tree: Tree, rows: seq<GridRow>, kind: Kind, a: Node, b: Node)
    requires a.parentId == b.parentId && FinalName(rows, kind, a).key == FinalName(rows, kind, b).key
    ensures FinalPath(tree, rows, kind, a) == FinalPath(tree, rows, kind, b)
  {
  }

  lemma SubmittedRow(tree: Tree, rows: seq<GridRow>, kind: Kind, node: Node) returns (i: nat)
    requires SoundTree(tree) && node in Table(tree, kind) && Submitted(rows, kind, node.id)
    ensures i < |rows| && Renames(rows[i], kind, node.id) && RowPath(tree, rows, rows[i]) == Some(FinalPath(tree, rows, kind, node))
  {
    var r :| r in rows && Renames(r, kind, node.id);
    i :| 0 <= i < |rows| && rows[i] == r;
    FindByIdIs(Table(tree, kind), node.id);
  }

  lemma RowsMiss(tree: Tree, rows: seq<GridRow>, i: nat, j: nat)
    requires PathsFree(tree, rows) && i < |rows| && j < |rows| && i != j && RowPath(tree, rows, rows[i]).Some?
    ensures RowPath(tree, rows, rows[i]) != RowPath(tree, rows, rows[j])
  {
    if i < j {
      assert RowsApart(tree, rows, i, j);
    } else {
      assert RowsApart(tree, rows, j, i);
    }
  }

  /** A row of the batch does not land on an existing node, mentioned or not, other than its own. */
  lemma RowMissesNode(tree: Tree, rows: seq<GridRow>, i: nat, kind: Kind, node: Node)
    requires SoundTree(tree) && PathsFree(tree, rows) && i < |rows|
    requires node in Table(tree, kind) && !Renames(rows[i], kind, node.id)
    ensures RowPath(tree, rows, rows[i]) != Some(FinalPath(tree, rows, kind, node))
  {
    if Submitted(rows, kind, node.id) {
      var j := SubmittedRow(tree, rows, kind, node);
      RowsMiss(tree, rows, j, i);
    } else {
      assert RowOffNode(tree, rows, rows[i], kind, node);
    }
  }

  lemma ExistingStayApart(tree: Tree, rows: seq<GridRow>, kind: Kind, a: Node, b: Node)
    requires SoundTree(tree) && UniqueNames(tree) && PathsFree(tree, rows)
    requires a in Table(tree, kind) && b in Table(tree, kind) && a.id != b.id && a.parentId == b.parentId
    ensures FinalName(rows, kind, a).key != FinalName(rows, kind, b).key
  {
    if FinalName(rows, kind, a).key == FinalName(rows, kind, b).key {
      SameFinalPath(tree, rows, kind, a, b);
      if Submitted(rows, kind, a.id) {
        var i := SubmittedRow(tree, rows, kind, a);
        RowMissesNode(tree, rows, i, kind, b);
      } else if Submitted(rows, kind, b.id) {
        var i := SubmittedRow(tree, rows, kind, b);
        RowMissesNode(tree, rows, i, kind, a);
      } else {
        UnsubmittedKeepsName(rows, kind, a);
        UnsubmittedKeepsName(rows, kind, b);
        NotSiblings(tree, kind, a, b);
      }
    }
  }

  lemma NotSiblings(tree: Tree, kind: Kind, a: Node, b: Node)
    requires UniqueNames(tree) && a in Table(tree, kind) && b in Table(tree, kind) && a.id != b.id
    ensures !Siblings(a, b)
  {
    UniqueTable(tree, kind);
    var nodes := Table(tree, kind);
    var i :| 0 <= i < |nodes| && nodes[i] == a;
    var j :| 0 <= j < |nodes| && nodes[j] == b;
    assert !Siblings(nodes[if i < j then i else j], nodes[if i < j then j else i]);
  }

  lemma NewMissesExisting(tree: Tree, rows: seq<GridRow>, ids: seq<Id>, kind: Kind, node: Node, i: nat)
    requires SoundTree(tree) && UniqueNames(tree) && FreshIds(ids, tree, rows) && PathsFree(tree, rows)
    requires node in Table(tree, kind) && i < |rows| && Creates(rows[i], kind) && !Misled(tree, rows, rows[i])
    requires ParentOf(tree, rows, ids, rows[i]) == Some(node.parentId)
    ensures FinalName(rows, kind, node).key != rows[i].name.key
  {
    RowMissesNode(tree, rows, i, kind, node);
    if kind == EpicRow {
      EpicKeys(tree, rows, node);
    } else {
      var parent := ParentNode(tree, kind, node);
      ProposedUnderExisting(tree, rows, ids, rows[i], parent);
      ParentKeys(tree, rows, kind, node, parent);
    }
  }

  lemma NewStayApart(tree: Tree, rows: seq<GridRow>, ids: seq<Id>, kind: Kind, i: nat, j: nat)
    requires SoundTree(tree) && FreshIds(ids, tree, rows) && NoRepeatedNewPaths(rows)
    requires i < |rows| && j < |rows| && i != j && Creates(rows[i], kind) && Creates(rows[j], kind)
    requires !Misled(tree, rows, rows[i]) && !Misled(tree, rows, rows[j])
    requires ParentOf(tree, rows, ids, rows[i]).Some? && ParentOf(tree, rows, ids, rows[i]) == ParentOf(tree, rows, ids, rows[j])
    ensures rows[i].name.key != rows[j].name.key
  {
    hide Join;
    assert RawPath(rows[i]) != RawPath(rows[j]) by {
      assert i < j || j < i;
    }
    if kind != EpicRow {
      ParentBearsNamesExactly(tree, rows, ids, rows[i]);
      ParentBearsNamesExactly(tree, rows, ids, rows[j]);
      NamedOnce(tree, rows, ids, ParentKind(kind), ParentPath(rows[i]), ParentPath(rows[j]), ParentOf(tree, rows, ids, rows[i]).value);
    }
    KeysSplit(rows[i]);
    KeysSplit(rows[j]);
  }

  lemma KeysSplit(row: GridRow)
    ensures RawKeys(row) == ParentPath(row) + [row.name.key]
  {
  }

  lemma {:induction false} CreatedAre(tree: Tree, rows: seq<GridRow>, ids: seq<Id>, kind: Kind, n: nat)
    requires n <= |rows| == |ids| && NoDuplicates(ids)
    ensures forall x :: x in Created(tree, rows, ids, kind, n) <==>
              exists i :: 0 <= i < n && Creates(rows[i], kind) && x == NewNode(tree, rows, ids, i)
    ensures DistinctNodes(Created(tree, rows, ids, kind, n))
  {
    if n == 0 {
    } else {
      CreatedAre(tree, rows, ids, kind, n - 1);
      var before := Created(tree, rows, ids, kind, n - 1);
      forall k | 0 <= k < |before|
        ensures before[k].id != ids[n - 1]
      {
        assert before[k] in before;
      }
    }
  }

  lemma RenamedAre(nodes: seq<Node>, rows: seq<GridRow>, kind: Kind, x: Node)
    ensures x in Renamed(nodes, rows, kind) <==> exists n :: n in nodes && x == n.(name := FinalName(rows, kind, n))
  {
    var renamed := Renamed(nodes, rows, kind);
    if n :| n in nodes && x == n.(name := FinalName(rows, kind, n)) {
      var i :| 0 <= i < |nodes| && nodes[i] == n;
      assert renamed[i] == x;
    }
  }

  ghost predicate FromNode(tree: Tree, rows: seq<GridRow>, kind: Kind, x: Node) {
    exists n :: n in Table(tree, kind) && x == n.(name := FinalName(rows, kind, n))
  }

  ghost predicate FromRow(tree: Tree, rows: seq<GridRow>, ids: seq<Id>, kind: Kind, x: Node)
    requires |rows| == |ids|
  {
    exists i :: 0 <= i < |rows| && Creates(rows[i], kind) && x == NewNode(tree, rows, ids, i)
  }

  /** Where a committed node comes from: an existing node, or a new row. */
  lemma Provenance(tree: Tree, rows: seq<GridRow>, ids: seq<Id>, kind: Kind, x: Node)
    requires FreshIds(ids, tree, rows) && x in CommittedTable(tree, rows, ids, kind)
    ensures FromNode(tree, rows, kind, x) || FromRow(tree, rows, ids, kind, x)
  {
    RenamedAre(Table(tree, kind), rows, kind, x);
    CreatedAre(tree, rows, ids, kind, |rows|);
  }

  /** The name a new row brings is taken under the parent it is written under, by an existing node or another new row. */
  ghost predicate Collides(tree: Tree, rows: seq<GridRow>, ids: seq<Id>, i: nat)
    requires i < |rows| == |ids|
  {
    CollidesWithNode(tree, rows, ids, i) || exists j :: 0 <= j < |rows| && CollidesWithRow(tree, rows, ids, i, j)
  }

  ghost predicate CollidesWithNode(tree: Tree, rows: seq<GridRow>, ids: seq<Id>, i: nat)
    requires i < |rows| == |ids|
  {
    exists n :: n in Table(tree, rows[i].kind) && ParentOf(tree, rows, ids, rows[i]) == Some(n.parentId)
      && FinalName(rows, rows[i].kind, n).key == rows[i].name.key
  }

  ghost predicate CollidesWithRow(tree: Tree, rows: seq<GridRow>, ids: seq<Id>, i: nat, j: nat)
    requires i < |rows| == |ids| && j < |rows|
  {
    && j != i && Creates(rows[j], rows[i].kind) && rows[j].name.key == rows[i].name.key
    && ParentOf(tree, rows, ids, rows[j]) == ParentOf(tree, rows, ids, rows[i])
  }

  /** Wherever a misled row ends up, its name is free there. */
  ghost predicate MisledRowsFit(tree: Tree, rows: seq<GridRow>, ids: seq<Id>)
    requires |rows| == |ids|
  {
    forall i :: 0 <= i < |rows| && IsNew(rows[i]) && Misled(tree, rows, rows[i]) ==> !Collides(tree, rows, ids, i)
  }

  /** Every new row then brings a free name: only misled rows can take another's. */
  lemma NewRowsFit(tree: Tree, rows: seq<GridRow>, ids: seq<Id>, resourceTypes: seq<ResourceType>, i: nat)
    requires SoundTree(tree) && UniqueNames(tree) && FreshIds(ids, tree, rows) && Accepted(tree, rows, resourceTypes)
    requires MisledRowsFit(tree, rows, ids) && i < |rows| && IsNew(rows[i])
    ensures !Collides(tree, rows, ids, i)
  {
    if !Misled(tree, rows, rows[i]) {
      if CollidesWithNode(tree, rows, ids, i) {
        var n :| n in Table(tree, rows[i].kind) && ParentOf(tree, rows, ids, rows[i]) == Some(n.parentId)
          && FinalName(rows, rows[i].kind, n).key == rows[i].name.key;
        NewMissesExisting(tree, rows, ids, rows[i].kind, n, i);
      }
      forall j | 0 <= j < |rows|
        ensures !CollidesWithRow(tree, rows, ids, i, j)
      {
        if CollidesWithRow(tree, rows, ids, i, j) {
          NotWithRow(tree, rows, ids, resourceTypes, i, j);
        }
      }
    }
  }

  lemma NotWithRow(tree: Tree, rows: seq<GridRow>, ids: seq<Id>, resourceTypes: seq<ResourceType>, i: nat, j: nat)
    requires SoundTree(tree) && FreshIds(ids, tree, rows) && Accepted(tree, rows, resourceTypes) && MisledRowsFit(tree, rows, ids)
    requires i < |rows| && j < |rows| && IsNew(rows[i]) && !Misled(tree, rows, rows[i])
    ensures !CollidesWithRow(tree, rows, ids, i, j)
  {
    hide ParentOf, Join, LastNames;
    if CollidesWithRow(tree, rows, ids, i, j) {
      assert CollidesWithRow(tree, rows, ids, j, i);
      assert !Misled(tree, rows, rows[j]);
      AcceptedParentsResolve(tree, rows, ids, resourceTypes, rows[i]);
      NewStayApart(tree, rows, ids, rows[i].kind, i, j);
    }
  }

  lemma NewNodeApart(tree: Tree, rows: seq<GridRow>, ids: seq<Id>, resourceTypes: seq<ResourceType>, kind: Kind, x: Node, y: Node)
    requires SoundTree(tree) && UniqueNames(tree) && FreshIds(ids, tree, rows) && Accepted(tree, rows, resourceTypes)
    requires MisledRowsFit(tree, rows, ids) && x.id != y.id
    requires FromRow(tree, rows, ids, kind, x) && (FromNode(tree, rows, kind, y) || FromRow(tree, rows, ids, kind, y))
    ensures !Siblings(x, y)
  {
    hide ParentOf, FinalName, Accepted;
    var i :| 0 <= i < |rows| && Creates(rows[i], kind) && x == NewNode(tree, rows, ids, i);
    NewRowsFit(tree, rows, ids, resourceTypes, i);
    AcceptedParentsResolve(tree, rows, ids, resourceTypes, rows[i]);
    if FromNode(tree, rows, kind, y) {
      var n :| n in Table(tree, kind) && y == n.(name := FinalName(rows, kind, n));
      assert !CollidesWithNode(tree, rows, ids, i);
    } else {
      var j :| 0 <= j < |rows| && Creates(rows[j], kind) && y == NewNode(tree, rows, ids, j);
      AcceptedParentsResolve(tree, rows, ids, resourceTypes, rows[j]);
      assert !CollidesWithRow(tree, rows, ids, i, j);
    }
  }

  lemma CommittedApart(tree: Tree, rows: seq<GridRow>, ids: seq<Id>, resourceTypes: seq<ResourceType>, kind: Kind, x: Node, y: Node)
    requires SoundTree(tree) && UniqueNames(tree) && FreshIds(ids, tree, rows) && Accepted(tree, rows, resourceTypes)
    requires MisledRowsFit(tree, rows, ids)
    requires x in CommittedTable(tree, rows, ids, kind) && y in CommittedTable(tree, rows, ids, kind) && x.id != y.id
    ensures !Siblings(x, y)
  {
    hide FinalName, NewNode, SoundTree, UniqueNames;
    Provenance(tree, rows, ids, kind, x);
    Provenance(tree, rows, ids, kind, y);
    if FromRow(tree, rows, ids, kind, x) {
      NewNodeApart(tree, rows, ids, resourceTypes, kind, x, y);
    } else if FromRow(tree, rows, ids, kind, y) {
      NewNodeApart(tree, rows, ids, resourceTypes, kind, y, x);
    } else if x.parentId == y.parentId {
      var a :| a in Table(tree, kind) && x == a.(name := FinalName(rows, kind, a));
      var b :| b in Table(tree, kind) && y == b.(name := FinalName(rows, kind, b));
      ExistingStayApart(tree, rows, kind, a, b);
    }
  }

  lemma Duplicates(nodes: seq<Node>, x: Node, y: Node)
    requires x in nodes && y in nodes && x.id != y.id && Siblings(x, y)
    ensures !UniqueSiblings(nodes)
  {
    var i :| 0 <= i < |nodes| && nodes[i] == x;
    var j :| 0 <= j < |nodes| && nodes[j] == y;
    assert Siblings(nodes[if i < j then i else j], nodes[if i < j then j else i]);
  }

  /** A collision is a pair of siblings of one name in the committed tree. */
  lemma CollisionDuplicates(tree: Tree, rows: seq<GridRow>, ids: seq<Id>, i: nat)
    requires FreshIds(ids, tree, rows) && i < |rows| && IsNew(rows[i]) && ParentOf(tree, rows, ids, rows[i]).Some?
    requires Collides(tree, rows, ids, i)
    ensures !UniqueSiblings(CommittedTable(tree, rows, ids, rows[i].kind))
  {
    hide ParentOf, FinalName;
    var kind := rows[i].kind;
    var x := NewNode(tree, rows, ids, i);
    CreatedAre(tree, rows, ids, kind, |rows|);
    if CollidesWithNode(tree, rows, ids, i) {
      var n :| n in Table(tree, kind) && ParentOf(tree, rows, ids, rows[i]) == Some(n.parentId)
        && FinalName(rows, kind, n).key == rows[i].name.key;
      var y := n.(name := FinalName(rows, kind, n));
      RenamedAre(Table(tree, kind), rows, kind, y);
      Duplicates(CommittedTable(tree, rows, ids, kind), x, y);
    } else {
      var j :| 0 <= j < |rows| && CollidesWithRow(tree, rows, ids, i, j);
      Duplicates(CommittedTable(tree, rows, ids, kind), x, NewNode(tree, rows, ids, j));
    }
  }

  lemma CommittedDistinct(tree: Tree, rows: seq<GridRow>, ids: seq<Id>, kind: Kind)
    requires SoundTree(tree) && FreshIds(ids, tree, rows)
    ensures DistinctNodes(CommittedTable(tree, rows, ids, kind))
  {
    var renamed, created := Renamed(Table(tree, kind), rows, kind), Created(tree, rows, ids, kind, |rows|);
    CreatedAre(tree, rows, ids, kind, |rows|);
    forall i, j | 0 <= i < |renamed| && 0 <= j < |created|
      ensures renamed[i].id != created[j].id
    {
      assert Table(tree, kind)[i] in Table(tree, kind) && created[j] in created;
    }
  }

  lemma FittingKeepsUnique(tree: Tree, rows: seq<GridRow>, ids: seq<Id>, resourceTypes: seq<ResourceType>, kind: Kind)
    requires SoundTree(tree) && UniqueNames(tree) && FreshIds(ids, tree, rows) && Accepted(tree, rows, resourceTypes)
    requires MisledRowsFit(tree, rows, ids)
    ensures UniqueSiblings(CommittedTable(tree, rows, ids, kind))
  {
    var nodes := CommittedTable(tree, rows, ids, kind);
    CommittedDistinct(tree, rows, ids, kind);
    forall i, j | 0 <= i < j < |nodes|
      ensures !Siblings(nodes[i], nodes[j])
    {
      CommittedApart(tree, rows, ids, resourceTypes, kind, nodes[i], nodes[j]);
    }
  }

  /** Exactly when an accepted batch leaves every level uniquely named: no misled row lands on a name that is taken. */
  lemma NamesStayUniqueExactly(tree: Tree, rows: seq<GridRow>, ids: seq<Id>, resourceTypes: seq<ResourceType>)
    requires SoundTree(tree) && UniqueNames(tree) && FreshIds(ids, tree, rows) && Accepted(tree, rows, resourceTypes)
    ensures UniqueNames(CommittedTree(tree, rows, ids)) <==> MisledRowsFit(tree, rows, ids)
  {
    hide CommittedTable, Collides, SoundTree, Accepted;
    if MisledRowsFit(tree, rows, ids) {
      forall kind
        ensures UniqueSiblings(CommittedTable(tree, rows, ids, kind))
      {
        FittingKeepsUnique(tree, rows, ids, resourceTypes, kind);
      }
    } else {
      var i :| 0 <= i < |rows| && IsNew(rows[i]) && Misled(tree, rows, rows[i]) && Collides(tree, rows, ids, i);
      AcceptedParentsResolve(tree, rows, ids, resourceTypes, rows[i]);
      CollisionDuplicates(tree, rows, ids, i);
      assert Table(CommittedTree(tree, rows, ids), rows[i].kind) == CommittedTable(tree, rows, ids, rows[i].kind);
    }
  }

  // ── Batches that mislead no row ────────────────────────────────────────────

  ghost predicate NoRowMisled(tree: Tree, rows: seq<GridRow>) {
    forall r :: r in rows && IsNew(r) ==> !Misled(tree, rows, r)
  }

  /** The committed tree is again uniquely named, at every level, when no row is misled. */
  lemma CommitKeepsNamesUnique(tree: Tree, rows: seq<GridRow>, ids: seq<Id>, resourceTypes: seq<ResourceType>)
    requires SoundTree(tree) && UniqueNames(tree) && FreshIds(ids, tree, rows) && Accepted(tree, rows, resourceTypes)
    requires NoRowMisled(tree, rows)
    ensures UniqueNames(CommittedTree(tree, rows, ids))
  {
    NamesStayUniqueExactly(tree, rows, ids, resourceTypes);
  }

  ghost predicate NodePath(tree: Tree, kind: Kind, keys: seq<Key>) {
    exists n :: n in Table(tree, kind) && OriginalKeys(tree, kind, n) == keys
  }

  predicate GivesPath(row: GridRow, kind: Kind, keys: seq<Key>) {
    || (row.kind == kind && RawKeys(row) == keys)
    || (row.kind != EpicRow && ParentKind(row.kind) == kind && ParentPath(row) == keys)
  }

  ghost predicate RowNames(rows: seq<GridRow>, kind: Kind, keys: seq<Key>) {
    exists r :: r in rows && IsNew(r) && GivesPath(r, kind, keys)
  }

  /** A path that leads to an existing node, or that a new row gives for itself or its parent. */
  ghost predicate InUse(tree: Tree, rows: seq<GridRow>, kind: Kind, keys: seq<Key>) {
    NodePath(tree, kind, keys) || RowNames(rows, kind, keys)
  }

  /** No two paths in use are written alike. */
  ghost predicate Unconfused(tree: Tree, rows: seq<GridRow>) {
    forall kind, a, b :: InUse(tree, rows, kind, a) && InUse(tree, rows, kind, b) && Join(a) == Join(b) ==> a == b
  }

  lemma {:induction false} LastExistingIsPath(tree: Tree, kind: Kind, nodes: seq<Node>, path: string)
    requires LastExisting(tree, kind, nodes, path).Some?
    ensures exists n :: n in nodes && OriginalKeys(tree, kind, n) == LastExisting(tree, kind, nodes, path).value
    ensures Join(LastExisting(tree, kind, nodes, path).value) == path
  {
    hide Join, OriginalKeys;
    var last := |nodes| - 1;
    if Join(OriginalKeys(tree, kind, nodes[last])) == path {
      assert nodes[last] in nodes;
    } else {
      LastExistingIsPath(tree, kind, nodes[..last], path);
    }
  }

  lemma {:induction false} LastNamesInUse(tree: Tree, rows: seq<GridRow>, kind: Kind, n: nat, path: string)
    requires n <= |rows| && LastNames(tree, rows, kind, n, path).Some?
    ensures InUse(tree, rows, kind, LastNames(tree, rows, kind, n, path).value)
    ensures Join(LastNames(tree, rows, kind, n, path).value) == path
  {
    hide Join, OriginalKeys, RawKeys, ParentPath;
    if n == 0 {
      LastExistingIsPath(tree, kind, Table(tree, kind), path);
    } else if Creates(rows[n - 1], kind) && Join(RawKeys(rows[n - 1])) == path {
      assert rows[n - 1] in rows && GivesPath(rows[n - 1], kind, RawKeys(rows[n - 1]));
    } else {
      LastNamesInUse(tree, rows, kind, n - 1, path);
    }
  }

  /** Where no two paths in use are written alike, every accepted new row finds the parent it names. */
  lemma UnconfusedMisleadsNobody(tree: Tree, rows: seq<GridRow>, ids: seq<Id>, resourceTypes: seq<ResourceType>)
    requires SoundTree(tree) && |rows| == |ids| && Accepted(tree, rows, resourceTypes) && Unconfused(tree, rows)
    ensures NoRowMisled(tree, rows)
  {
    hide Join, OriginalKeys, RawKeys, ParentPath, LastNames, Accepted;
    forall r | r in rows && IsNew(r) && r.kind != EpicRow
      ensures !Misled(tree, rows, r)
    {
      var kind, path := ParentKind(r.kind), Join(ParentPath(r));
      AcceptedParentsResolve(tree, rows, ids, resourceTypes, r);
      KnownMeans(tree, rows, ids, kind, |rows|, path);
      LastNamesInUse(tree, rows, kind, |rows|, path);
      assert GivesPath(r, kind, ParentPath(r));
      assert InUse(tree, rows, kind, ParentPath(r));
    }
  }

  ghost predicate ColonFreeNames(tree: Tree, rows: seq<GridRow>) {
    && (forall kind, n :: n in Table(tree, kind) ==> ':' !in n.name.key)
    && (forall r :: r in rows ==> ColonFree([r.epicName.key, r.featureName.key, r.storyName.key, r.name.key]))
  }

  lemma OriginalColonFree(tree: Tree, kind: Kind, node: Node)
    requires forall k, n :: n in Table(tree, k) ==> ':' !in n.name.key
    requires node in Table(tree, kind)
    ensures ColonFree(OriginalKeys(tree, kind, node)) && OriginalKeys(tree, kind, node) != []
    decreases Rank(kind)
  {
    if kind != EpicRow {
      var parents := Table(tree, ParentKind(kind));
      FindByIdIs(parents, node.parentId);
      var parent := FindById(parents, node.parentId);
      if parent.Some? {
        OriginalColonFree(tree, ParentKind(kind), parent.value);
      }
    }
  }

  lemma RowColonFree(row: GridRow)
    requires ColonFree([row.epicName.key, row.featureName.key, row.storyName.key, row.name.key])
    ensures ColonFree(RawKeys(row)) && (row.kind != EpicRow ==> ColonFree(ParentPath(row)) && ParentPath(row) != [])
  {
    var all := [row.epicName.key, row.featureName.key, row.storyName.key, row.name.key];
    assert all[0] in all && all[1] in all && all[2] in all && all[3] in all;
  }

  /** Names without colons are never confused. */
  lemma ColonFreeIsUnconfused(tree: Tree, rows: seq<GridRow>)
    requires ColonFreeNames(tree, rows)
    ensures Unconfused(tree, rows)
  {
    hide Join, OriginalKeys, RawKeys, ParentPath;
    forall kind, a, b | InUse(tree, rows, kind, a) && InUse(tree, rows, kind, b) && Join(a) == Join(b)
      ensures a == b
    {
      InUseColonFree(tree, rows, kind, a);
      InUseColonFree(tree, rows, kind, b);
      JoinIsFaithful(a, b);
    }
  }

  lemma InUseColonFree(tree: Tree, rows: seq<GridRow>, kind: Kind, keys: seq<Key>)
    requires ColonFreeNames(tree, rows) && InUse(tree, rows, kind, keys)
    ensures ColonFree(keys) && keys != []
  {
    hide OriginalKeys;
    if NodePath(tree, kind, keys) {
      var n :| n in Table(tree, kind) && OriginalKeys(tree, kind, n) == keys;
      OriginalColonFree(tree, kind, n);
    } else {
      var r :| r in rows && IsNew(r) && GivesPath(r, kind, keys);
      RowColonFree(r);
    }
  }

  // ── What stays in place ────────────────────────────────────────────────────

  /** An existing node keeps identity and parent, and its name unless the batch submits it. */
  ghost predicate KeepsItsPlace(node: Node, after: seq<Node>, submitted: bool) {
    exists x :: x in after && x.id == node.id && x.parentId == node.parentId && (!submitted ==> x.name == node.name)
  }

  lemma ExistingKeepTheirPlace(tree: Tree, rows: seq<GridRow>, ids: seq<Id>, kind: Kind, node: Node)
    requires |rows| == |ids| && node in Table(tree, kind)
    ensures KeepsItsPlace(node, CommittedTable(tree, rows, ids, kind), Submitted(rows, kind, node.id))
  {
    var x := node.(name := FinalName(rows, kind, node));
    RenamedAre(Table(tree, kind), rows, kind, x);
    if !Submitted(rows, kind, node.id) {
      UnsubmittedKeepsName(rows, kind, node);
    }
    assert x in CommittedTable(tree, rows, ids, kind);
  }

  lemma CommitKeepsTreeSound(tree: Tree, rows: seq<GridRow>, ids: seq<Id>, resourceTypes: seq<ResourceType>)
    requires SoundTree(tree) && FreshIds(ids, tree, rows) && Accepted(tree, rows, resourceTypes)
    ensures SoundTree(CommittedTree(tree, rows, ids))
  {
    forall kind
      ensures DistinctNodes(CommittedTable(tree, rows, ids, kind))
    {
      CommittedDistinct(tree, rows, ids, kind);
    }
    forall x | x in CommittedTable(tree, rows, ids, EpicRow)
      ensures x.parentId == ""
    {
      Provenance(tree, rows, ids, EpicRow, x);
    }
    forall kind, x | kind != EpicRow && x in CommittedTable(tree, rows, ids, kind)
      ensures HasId(CommittedTable(tree, rows, ids, ParentKind(kind)), x.parentId)
    {
      CommittedHasParent(tree, rows, ids, resourceTypes, kind, x);
    }
  }

  lemma CommittedHasParent(tree: Tree, rows: seq<GridRow>, ids: seq<Id>, resourceTypes: seq<ResourceType>, kind: Kind, x: Node)
    requires SoundTree(tree) && FreshIds(ids, tree, rows) && Accepted(tree, rows, resourceTypes)
    requires kind != EpicRow && x in CommittedTable(tree, rows, ids, kind)
    ensures HasId(CommittedTable(tree, rows, ids, ParentKind(kind)), x.parentId)
  {
    Provenance(tree, rows, ids, kind, x);
    if n :| n in Table(tree, kind) && x == n.(name := FinalName(rows, kind, n)) {
      var parent := ParentNode(tree, kind, n);
      ExistingKeepTheirPlace(tree, rows, ids, ParentKind(kind), parent);
    } else {
      var i :| 0 <= i < |rows| && Creates(rows[i], kind) && x == NewNode(tree, rows, ids, i);
      AcceptedParentsResolve(tree, rows, ids, resourceTypes, rows[i]);
      KnownIsCommitted(tree, rows, ids, ParentKind(kind), Join(ParentPath(rows[i])));
    }
  }

  lemma KnownIsCommitted(tree: Tree, rows: seq<GridRow>, ids: seq<Id>, kind: Kind, path: string)
    requires FreshIds(ids, tree, rows) && path in KnownIds(tree, rows, ids, kind, |rows|)
    ensures HasId(CommittedTable(tree, rows, ids, kind), KnownIds(tree, rows, ids, kind, |rows|)[path])
  {
    var id := KnownIds(tree, rows, ids, kind, |rows|)[path];
    KnownMeans(tree, rows, ids, kind, |rows|, path);
    var keys := LastNames(tree, rows, kind, |rows|, path).value;
    if NodeEntry(tree, kind, Table(tree, kind), keys, id) {
      var n :| n in Table(tree, kind) && n.id == id;
      ExistingKeepTheirPlace(tree, rows, ids, kind, n);
    } else {
      var j :| 0 <= j < |rows| && Creates(rows[j], kind) && ids[j] == id;
      CreatedAre(tree, rows, ids, kind, |rows|);
      assert NewNode(tree, rows, ids, j) in CommittedTable(tree, rows, ids, kind);
    }
  }

  // ── The store and its commit ───────────────────────────────────────────────

  function Rename(nodes: seq<Node>, id: Id, name: Name): (r: seq<Node>)
    ensures |r| == |nodes|
    ensures forall i :: 0 <= i < |r| ==> r[i] == if nodes[i].id == id then nodes[i].(name := name) else nodes[i]
  {
    seq(|nodes|, i requires 0 <= i < |nodes| => if nodes[i].id == id then nodes[i].(name := name) else nodes[i])
  }

  /** A table when the first n rows of its kind are written. */
  function TableAfter(tree: Tree, rows: seq<GridRow>, ids: seq<Id>, kind: Kind, n: nat): seq<Node>
    requires n <= |rows| == |ids|
  {
    Renamed(Table(tree, kind), rows[..n], kind) + Created(tree, rows, ids, kind, n)
  }

  lemma NothingWritten(tree: Tree, rows: seq<GridRow>, ids: seq<Id>, kind: Kind)
    requires |rows| == |ids|
    ensures TableAfter(tree, rows, ids, kind, 0) == Table(tree, kind)
  {
  }

  lemma AllWritten(tree: Tree, rows: seq<GridRow>, ids: seq<Id>, kind: Kind)
    requires |rows| == |ids|
    ensures TableAfter(tree, rows, ids, kind, |rows|) == CommittedTable(tree, rows, ids, kind)
  {
    assert rows[..|rows|] == rows;
  }

  lemma AfterUpdate(tree: Tree, rows: seq<GridRow>, ids: seq<Id>, kind: Kind, n: nat)
    requires FreshIds(ids, tree, rows) && n < |rows| && rows[n].kind == kind && !IsNew(rows[n])
    requires FindById(Table(tree, kind), rows[n].id.value).Some?
    ensures Rename(TableAfter(tree, rows, ids, kind, n), rows[n].id.value, rows[n].name)
         == TableAfter(tree, rows, ids, kind, n + 1)
  {
    assert rows[..n + 1] == rows[..n] + [rows[n]] && rows[..n + 1][..n] == rows[..n];
    var created := Created(tree, rows, ids, kind, n);
    CreatedAre(tree, rows, ids, kind, n);
    FindByIdIs(Table(tree, kind), rows[n].id.value);
    forall k | 0 <= k < |created|
      ensures created[k].id != rows[n].id.value
    {
      assert created[k] in created;
    }
  }

  lemma AfterOther(tree: Tree, rows: seq<GridRow>, ids: seq<Id>, kind: Kind, n: nat)
    requires n < |rows| == |ids| && (rows[n].kind != kind || IsNew(rows[n]))
    ensures TableAfter(tree, rows, ids, kind, n + 1)
         == TableAfter(tree, rows, ids, kind, n) + if Creates(rows[n], kind) then [NewNode(tree, rows, ids, n)] else []
  {
    assert rows[..n + 1] == rows[..n] + [rows[n]] && rows[..n + 1][..n] == rows[..n];
    assert Renamed(Table(tree, kind), rows[..n + 1], kind) == Renamed(Table(tree, kind), rows[..n], kind);
  }

  datatype CommitResult = Committed(rowIds: seq<Id>) | Rejected(errors: seq<GridError>) | ParentNotResolved

  function RowId(row: GridRow, id: Id): Id {
    if IsNew(row) then id else row.id.value
  }

  class Backlog {
    var epics: seq<Node>
    var features: seq<Node>
    var stories: seq<Node>
    var tasks: seq<Node>

    constructor (tree: Tree)
      ensures Contents() == tree
    {
      epics, features, stories, tasks := tree.epics, tree.features, tree.stories, tree.tasks;
    }

    function Contents(): Tree
      reads this
    {
      Tree(epics, features, stories, tasks)
    }

    method Store(kind: Kind, nodes: seq<Node>)
      modifies this
      ensures Table(Contents(), kind) == nodes
      ensures forall other :: other != kind ==> Table(Contents(), other) == Table(old(Contents()), other)
    {
      match kind
      case EpicRow => epics := nodes;
      case FeatureRow => features := nodes;
      case StoryRow => stories := nodes;
      case TaskRow => tasks := nodes;
    }

    /** Write the rows of one kind: existing ones renamed in place, new ones appended under the parent their names lead to. */
    method CommitKind(tree: Tree, rows: seq<GridRow>, ids: seq<Id>, kind: Kind, parentIds: map<string, Id>)
      returns (ok: bool, known: map<string, Id>)
      requires FreshIds(ids, tree, rows) && Table(Contents(), kind) == Table(tree, kind)
      requires kind != EpicRow ==> parentIds == KnownIds(tree, rows, ids, ParentKind(kind), |rows|)
      modifies this
      ensures ok <==> forall r :: r in rows && r.kind == kind ==> Writable(tree, rows, ids, r)
      ensures ok ==> Table(Contents(), kind) == CommittedTable(tree, rows, ids, kind)
      ensures ok ==> known == KnownIds(tree, rows, ids, kind, |rows|)
      ensures forall other :: other != kind ==> Table(Contents(), other) == Table(old(Contents()), other)
    {
      hide CommittedTable, Renamed, Created, FinalName, Writable;
      known := ExistingIds(tree, kind, Table(tree, kind));
      NothingWritten(tree, rows, ids, kind);
      for i := 0 to |rows|
        invariant Table(Contents(), kind) == TableAfter(tree, rows, ids, kind, i)
        invariant known == KnownIds(tree, rows, ids, kind, i)
        invariant forall k :: 0 <= k < i && rows[k].kind == kind ==> Writable(tree, rows, ids, rows[k])
        invariant forall other :: other != kind ==> Table(Contents(), other) == Table(old(Contents()), other)
      {
        ok, known := WriteRow(tree, rows, ids, kind, parentIds, i, known);
        if !ok {
          assert rows[i] in rows;
          return;
        }
      }
      AllWritten(tree, rows, ids, kind);
      ok := true;
    }

    method WriteRow(tree: Tree, rows: seq<GridRow>, ids: seq<Id>, kind: Kind, parentIds: map<string, Id>,
                    i: nat, known: map<string, Id>)
      returns (ok: bool, after: map<string, Id>)
      requires FreshIds(ids, tree, rows) && i < |rows|
      requires kind != EpicRow ==> parentIds == KnownIds(tree, rows, ids, ParentKind(kind), |rows|)
      requires Table(Contents(), kind) == TableAfter(tree, rows, ids, kind, i) && known == KnownIds(tree, rows, ids, kind, i)
      modifies this
      ensures ok <==> rows[i].kind != kind || Writable(tree, rows, ids, rows[i])
      ensures ok ==> Table(Contents(), kind) == TableAfter(tree, rows, ids, kind, i + 1)
      ensures ok ==> after == KnownIds(tree, rows, ids, kind, i + 1)
      ensures forall other :: other != kind ==> Table(Contents(), other) == Table(old(Contents()), other)
    {
      var row := rows[i];
      after := known;
      ok := true;
      if row.kind != kind {
        AfterOther(tree, rows, ids, kind, i);
      } else if !IsNew(row) {
        if FindById(Table(tree, kind), row.id.value).None? {
          return false, known;
        }
        AfterUpdate(tree, rows, ids, kind, i);
        Store(kind, Rename(Table(Contents(), kind), row.id.value, row.name));
      } else {
        var parentPath := Join(ParentPath(row));
        if kind != EpicRow && parentPath !in parentIds {
          return false, known;
        }
        AfterOther(tree, rows, ids, kind, i);
        var parentId := if kind == EpicRow then "" else parentIds[parentPath];
        Store(kind, Table(Contents(), kind) + [Node(ids[i], row.name, parentId)]);
        after := known[Join(RawKeys(row)) := ids[i]];
      }
    }

    /**
     * Validate, then write epics, features, stories and tasks. A rejected batch writes nothing. An accepted
     * one always commits, and keeps names unique at every level exactly when no misled row lands on a taken name.
     */
    method CommitBacklogGrid(rows: seq<GridRow>, resourceTypes: seq<ResourceType>, ids: seq<Id>)
      returns (result: CommitResult)
      requires SoundTree(Contents()) && FreshIds(ids, Contents(), rows)
      modifies this
      ensures result.Rejected? <==> !Accepted(old(Contents()), rows, resourceTypes)
      ensures result.Rejected? ==> Contents() == old(Contents())
      ensures !result.ParentNotResolved?
      ensures result.Committed? ==>
                && Contents() == CommittedTree(old(Contents()), rows, ids) && SoundTree(Contents())
                && |result.rowIds| == |rows|
                && forall i :: 0 <= i < |rows| ==> result.rowIds[i] == RowId(rows[i], ids[i])
      ensures result.Committed? && UniqueNames(old(Contents())) ==>
                (UniqueNames(Contents()) <==> MisledRowsFit(old(Contents()), rows, ids))
      ensures result.Committed? && UniqueNames(old(Contents())) && Unconfused(old(Contents()), rows) ==> UniqueNames(Contents())
      ensures result.Committed? ==> forall kind, node :: node in Table(old(Contents()), kind) ==>
                KeepsItsPlace(node, Table(Contents(), kind), Submitted(rows, kind, node.id))
    {
      var tree := Contents();
      var errors := ValidateBacklogGrid(tree, rows, resourceTypes);
      if errors != [] {
        return Rejected(errors);
      }
      forall r | r in rows
        ensures Writable(tree, rows, ids, r)
      {
        assert GoodRow(tree, r, resourceTypes);
        if IsNew(r) {
          AcceptedParentsResolve(tree, rows, ids, resourceTypes, r);
        }
      }
      var ok, epicIds := CommitKind(tree, rows, ids, EpicRow, map[]);
      if !ok { return ParentNotResolved; }
      var featureIds, storyIds, taskIds;
      ok, featureIds := CommitKind(tree, rows, ids, FeatureRow, epicIds);
      if !ok { return ParentNotResolved; }
      ok, storyIds := CommitKind(tree, rows, ids, StoryRow, featureIds);
      if !ok { return ParentNotResolved; }
      ok, taskIds := CommitKind(tree, rows, ids, TaskRow, storyIds);
      if !ok { return ParentNotResolved; }
      CommitFacts(tree, rows, ids, resourceTypes);
      result := Committed(seq(|rows|, i requires 0 <= i < |rows| => RowId(rows[i], ids[i])));
    }
  }

  predicate Writable(tree: Tree, rows: seq<GridRow>, ids: seq<Id>, row: GridRow)
    requires |rows| == |ids|
  {
    if IsNew(row) then ParentOf(tree, rows, ids, row).Some? else FindById(Table(tree, row.kind), row.id.value).Some?
  }

  lemma CommitFacts(tree: Tree, rows: seq<GridRow>, ids: seq<Id>, resourceTypes: seq<ResourceType>)
    requires SoundTree(tree) && FreshIds(ids, tree, rows) && Accepted(tree, rows, resourceTypes)
    ensures SoundTree(CommittedTree(tree, rows, ids))
    ensures UniqueNames(tree) ==> (UniqueNames(CommittedTree(tree, rows, ids)) <==> MisledRowsFit(tree, rows, ids))
    ensures UniqueNames(tree) && Unconfused(tree, rows) ==> UniqueNames(CommittedTree(tree, rows, ids))
    ensures forall kind, node :: node in Table(tree, kind) ==>
              KeepsItsPlace(node, CommittedTable(tree, rows, ids, kind), Submitted(rows, kind, node.id))
  {
    CommitKeepsTreeSound(tree, rows, ids, resourceTypes);
    if UniqueNames(tree) {
      NamesStayUniqueExactly(tree, rows, ids, resourceTypes);
    }
    if UniqueNames(tree) && Unconfused(tree, rows) {
      UnconfusedMisleadsNobody(tree, rows, ids, resourceTypes);
      CommitKeepsNamesUnique(tree, rows, ids, resourceTypes);
    }
    forall kind, node | node in Table(tree, kind)
      ensures KeepsItsPlace(node, CommittedTable(tree, rows, ids, kind), Submitted(rows, kind, node.id))
    {
      ExistingKeepTheirPlace(tree, rows, ids, kind, node);
    }
  }
}
