/** Two places where the grid-entry code is narrower than its names and identifiers suggest. */
module BacklogNames {
  import opened Common
  import opened BacklogTree
  import opened BacklogPaths
  import opened BacklogValidation
  import opened BacklogCommit

  // ── A batch that is accepted and leaves two stories of one name ────────────

  function Plain(s: string): Name { Name(s, s) }

  /** Epic "web:api" with feature "login", and epic "web" with feature "api:login", which has a story. */
  function ConfusingTree(): Tree {
    Tree([Node("1", Plain("web:api"), ""), Node("22", Plain("web"), "")],
         [Node("1", Plain("login"), "1"), Node("22", Plain("api:login"), "22")],
         [Node("1", Plain("story"), "22")],
         [])
  }

  /** Rename the second feature, and add to the first one a story named as the one there is. */
  function ConfusingRows(): seq<GridRow> {
    [GridRow(Some("22"), FeatureRow, Plain("web"), Plain(""), Plain(""), Plain("signin"), None, Plain(""), None, None),
     GridRow(None, StoryRow, Plain("web:api"), Plain("login"), Plain(""), Plain("story"), None, Plain(""), None, None)]
  }

  lemma ConfusingTreeIsSound()
    ensures SoundTree(ConfusingTree()) && UniqueNames(ConfusingTree())
  {
    var tree := ConfusingTree();
    assert tree.epics[0] in tree.epics && tree.epics[1] in tree.epics && tree.features[1] in tree.features;
  }

  function ConfusingName(kind: Kind, node: Node): Name {
    if kind == FeatureRow && node.id == "22" then Plain("signin") else node.name
  }

  lemma ConfusingFinalName(kind: Kind, node: Node)
    ensures FinalName(ConfusingRows(), kind, node) == ConfusingName(kind, node)
  {
    var rows := ConfusingRows();
    assert !Renames(rows[1], kind, node.id);
    var first := rows[..1];
    assert first[0] == rows[0] && first[..0] == [];
    assert |first| == 1 && FinalName(first[..0], kind, node) == node.name;
    assert Renames(first[0], kind, node.id) <==> kind == FeatureRow && node.id == "22";
    assert FinalName(rows, kind, node) == FinalName(first, kind, node);
  }

  lemma ConfusingKeys(kind: Kind, node: Node)
    requires node in Table(ConfusingTree(), kind)
    ensures var tree, rows := ConfusingTree(), ConfusingRows();
            FinalKeys(tree, rows, kind, node) == match kind
              case EpicRow => [node.name.key]
              case FeatureRow => if node.id == "1" then ["web:api", "login"] else ["web", "signin"]
              case _ => ["web", "signin", "story"]
    ensures kind == FeatureRow ==>
              OriginalKeys(ConfusingTree(), kind, node) == if node.id == "1" then ["web:api", "login"] else ["web", "api:login"]
  {
    hide SoundTree, UniqueNames;
    var tree, rows := ConfusingTree(), ConfusingRows();
    ConfusingTreeIsSound();
    ConfusingFinalName(kind, node);
    ConfusingFinalName(FeatureRow, tree.features[1]);
    ConfusingFinalName(EpicRow, tree.epics[0]);
    ConfusingFinalName(EpicRow, tree.epics[1]);
    if kind == FeatureRow {
      var epic := if node.id == "1" then tree.epics[0] else tree.epics[1];
      ParentKeys(tree, rows, FeatureRow, node, epic);
      ParentKeys(tree, [], FeatureRow, node, epic);
    } else if kind == StoryRow {
      ParentKeys(tree, rows, FeatureRow, tree.features[1], tree.epics[1]);
      ParentKeys(tree, rows, StoryRow, node, tree.features[1]);
    }
  }

  lemma Join3(a: Key, b: Key, c: Key)
    ensures Join([a, b, c]) == a + ":" + (b + ":" + c)
  {
    assert [a, b, c][1..] == [b, c];
    JoinPair(b, c);
  }

  /** Where the validator expects the two rows, and that nothing else is there. */
  lemma ConfusingPathsFree()
    ensures PathsFree(ConfusingTree(), ConfusingRows())
  {
    hide Join, ProposedKeys, FinalKeys, FinalName;
    var tree, rows := ConfusingTree(), ConfusingRows();
    ConfusingTreeIsSound();
    var renamed, kept := tree.features[1], tree.features[0];
    ConfusingKeys(FeatureRow, renamed);
    ConfusingKeys(FeatureRow, kept);
    ConfusingKeys(StoryRow, tree.stories[0]);
    FindByIdIs(tree.features, "22");
    ParentPathIs(rows[1]);
    ProposedKeysAre(tree, rows, rows[1], kept);
    JoinPair("web", "signin");
    JoinPair("web:api", "login");
    Join3("web:api", "login", "story");
    Join3("web", "signin", "story");
    assert RowPath(tree, rows, rows[0]) == Some(GridPath(FeatureRow, Join(["web", "signin"])));
    assert ["web:api", "login"] + ["story"] == ["web:api", "login", "story"];
    assert RowPath(tree, rows, rows[1]) == Some(GridPath(StoryRow, Join(["web:api", "login", "story"])));
    forall row, kind, node | row in rows
      ensures RowOffNode(tree, rows, row, kind, node)
    {
      if node in Table(tree, kind) {
        assert node == renamed ==> Renames(rows[0], FeatureRow, "22") && rows[0] in rows;
      }
    }
  }

  lemma ConfusingParents()
    ensures ParentsResolve(ConfusingTree(), ConfusingRows(), ConfusingRows()[1])
  {
    var tree, rows := ConfusingTree(), ConfusingRows();
    ConfusingTreeIsSound();
    var row := rows[1];
    AllEpicsAreTopLevel(tree.epics);
    UniqueChildFound(tree.epics, tree.epics[0], row.epicName);
    UniqueChildFound(tree.features, tree.features[0], row.featureName);
    var feature := FindUniqueByName(EpicFeatures(tree, ResolveEpic(tree, rows, row)), row.featureName);
    assert feature == Found(tree.features[0]);
    ChildrenMembers(tree.stories, "1");
    LookupSound(FeatureStories(tree, feature), row.name);
  }

  lemma ConfusingRowsSound()
    ensures RowsSound(ConfusingTree(), ConfusingRows(), [])
  {
    hide Join;
    var tree, rows := ConfusingTree(), ConfusingRows();
    FindByIdIs(tree.features, "22");
    assert tree.features[1] in tree.features;
    assert !ExistingRenameConflict(tree.features, "22", rows[0].name);
    assert GoodRow(tree, rows[0], []) && GoodRow(tree, rows[1], []);
  }

  lemma ConfusingBatchAccepted()
    ensures Accepted(ConfusingTree(), ConfusingRows(), [])
  {
    hide PathsFree, RowsSound, ParentsResolve;
    var tree, rows := ConfusingTree(), ConfusingRows();
    ConfusingRowsSound();
    ConfusingPathsFree();
    ConfusingParents();
    assert !NeedsParent(rows[0]);
  }

  /** The joined path of the first feature leads to the second. */
  lemma ConfusingLookup(ids: seq<Id>)
    requires |ids| == 2
    ensures ParentOf(ConfusingTree(), ConfusingRows(), ids, ConfusingRows()[1]) == Some("22")
    ensures Misled(ConfusingTree(), ConfusingRows(), ConfusingRows()[1])
  {
    hide Join, OriginalKeys;
    var tree, rows := ConfusingTree(), ConfusingRows();
    var last := tree.features[1];
    ConfusingKeys(FeatureRow, last);
    JoinPair("web:api", "login");
    JoinPair("web", "api:login");
    assert "web:api" + ":" + "login" == "web:api:login" == "web" + ":" + "api:login";
    ParentPathIs(rows[1]);
    assert Join(ParentPath(rows[1])) == Join(OriginalKeys(tree, FeatureRow, last));
    assert KnownIds(tree, rows, ids, FeatureRow, 2) == KnownIds(tree, rows, ids, FeatureRow, 1) == ExistingIds(tree, FeatureRow, tree.features);
    assert ["web:api", "login"][0] != ["web", "api:login"][0];
  }

  /**
   * The validator accepts the batch, the commit puts the new story beside the other of its name,
   * under a feature the batch did not name.
   */
  lemma ConfusingBatchDuplicates(ids: seq<Id>)
    requires FreshIds(ids, ConfusingTree(), ConfusingRows())
    ensures SoundTree(ConfusingTree()) && UniqueNames(ConfusingTree())
    ensures Accepted(ConfusingTree(), ConfusingRows(), [])
    ensures !UniqueNames(CommittedTree(ConfusingTree(), ConfusingRows(), ids))
  {
    hide Join, ParentOf, Misled;
    var tree, rows := ConfusingTree(), ConfusingRows();
    ConfusingTreeIsSound();
    ConfusingBatchAccepted();
    ConfusingLookup(ids);
    ConfusingFinalName(StoryRow, tree.stories[0]);
    assert tree.stories[0] in tree.stories;
    assert CollidesWithNode(tree, rows, ids, 1);
    NamesStayUniqueExactly(tree, rows, ids, []);
  }

  // ── Resource types ─────────────────────────────────────────────────────────

  /** The commit takes any identifier that is given, else the first type of the given name. */
  function CommittedResourceType(row: GridRow, resourceTypes: seq<ResourceType>): Option<Id> {
    if row.resourceTypeId.Some? then row.resourceTypeId
    else
      var named := NamedTypes(resourceTypes, row.resourceTypeName);
      if named == [] then None else Some(named[0].id)
  }

  predicate Offered(id: Option<Id>, resourceTypes: seq<ResourceType>) {
    id.Some? && exists t :: t in resourceTypes && t.id == id.value
  }

  /**
   * An accepted task is written with a type of the project unless its identifier was the empty string,
   * which the validator skips over and the commit does not.
   */
  lemma AcceptedTaskIsTyped(tree: Tree, row: GridRow, resourceTypes: seq<ResourceType>)
    requires GoodRow(tree, row, resourceTypes) && row.kind == TaskRow
    requires forall t :: t in resourceTypes ==> t.id != ""
    ensures Offered(CommittedResourceType(row, resourceTypes), resourceTypes) <==> row.resourceTypeId != Some("")
  {
    var named := NamedTypes(resourceTypes, row.resourceTypeName);
    FilterMembers(resourceTypes, (t: ResourceType) => t.name.key == row.resourceTypeName.key);
    if named != [] {
      assert named[0] in named;
    }
  }
}
