/** The grid-entry validator: which batches it accepts, and where it predicts each row will end up. */
module BacklogValidation {
  import opened Common
  import opened BacklogPaths
  import opened BacklogTree

  datatype GridRow = GridRow(
    id: Option<Id>,
    kind: Kind,
    epicName: Name,
    featureName: Name,
    storyName: Name,
    name: Name,
    resourceTypeId: Option<Id>,
    resourceTypeName: Name,
    hoursEffort: Option<real>,
    durationDays: Option<real>)

  datatype ResourceType = ResourceType(id: Id, name: Name)

  /** A hierarchy path as the code compares it: the kind of row, and the normalised names from the epic down in one text. */
  datatype GridPath = GridPath(kind: Kind, text: string)

  datatype Field =
    | IdField | NameField | EpicNameField | FeatureNameField | StoryNameField
    | HoursField | DurationField | ResourceTypeField

  datatype GridError = GridError(row: nat, field: Field)

  /** A row without an identifier, or with an empty one, is new. */
  predicate IsNew(row: GridRow) {
    row.id.None? || row.id.value == ""
  }

  predicate Staged(row: GridRow, kind: Kind) {
    IsNew(row) && row.kind == kind && row.name.text != ""
  }

  function StagedRows(rows: seq<GridRow>, kind: Kind): seq<GridRow> {
    Filter(rows, (r: GridRow) => Staged(r, kind))
  }

  lemma StagedMembers(rows: seq<GridRow>, kind: Kind)
    ensures forall r :: r in StagedRows(rows, kind) <==> r in rows && Staged(r, kind)
  {
    FilterMembers(rows, (r: GridRow) => Staged(r, kind));
  }

  /** The names a row gives, from the epic down. */
  function RawKeys(row: GridRow): (r: seq<Key>)
    ensures |r| == Rank(row.kind) + 1
  {
    match row.kind
    case EpicRow => [row.name.key]
    case FeatureRow => [row.epicName.key, row.name.key]
    case StoryRow => [row.epicName.key, row.featureName.key, row.name.key]
    case TaskRow => [row.epicName.key, row.featureName.key, row.storyName.key, row.name.key]
  }

  function RawPath(row: GridRow): GridPath {
    GridPath(row.kind, Join(RawKeys(row)))
  }

  // ── Rules about one row ────────────────────────────────────────────────────

  /** Some other row of the table with the same parent already has this name. */
  predicate ExistingRenameConflict(nodes: seq<Node>, id: Id, name: Name) {
    var existing := FindById(nodes, id);
    existing.Some? && exists n :: n in nodes && n.parentId == existing.value.parentId && n.id != id && n.name.key == name.key
  }

  predicate NamesGiven(row: GridRow) {
    && row.name.text != ""
    && (row.kind != EpicRow ==> row.epicName.text != "")
    && (row.kind == StoryRow || row.kind == TaskRow ==> row.featureName.text != "")
    && (row.kind == TaskRow ==> row.storyName.text != "")
  }

  predicate KnownRow(tree: Tree, row: GridRow) {
    !IsNew(row) ==>
      FindById(Table(tree, row.kind), row.id.value).Some?
      && !ExistingRenameConflict(Table(tree, row.kind), row.id.value, row.name)
  }

  function NamedTypes(resourceTypes: seq<ResourceType>, name: Name): seq<ResourceType> {
    Filter(resourceTypes, (t: ResourceType) => t.name.key == name.key)
  }

  /** The validator reads an empty resource type identifier as none given. */
  predicate ResourceTypeResolves(row: GridRow, resourceTypes: seq<ResourceType>) {
    if row.resourceTypeId.Some? && row.resourceTypeId.value != "" then
      exists t :: t in resourceTypes && t.id == row.resourceTypeId.value
    else |NamedTypes(resourceTypes, row.resourceTypeName)| == 1
  }

  predicate TaskFields(row: GridRow, resourceTypes: seq<ResourceType>) {
    row.kind == TaskRow ==>
      && (row.hoursEffort.Some? ==> row.hoursEffort.value >= 0.0)
      && (row.durationDays.Some? ==> row.durationDays.value > 0.0)
      && ResourceTypeResolves(row, resourceTypes)
  }

  predicate GoodRow(tree: Tree, row: GridRow, resourceTypes: seq<ResourceType>) {
    NamesGiven(row) && KnownRow(tree, row) && TaskFields(row, resourceTypes)
  }

  ghost predicate NoRepeatedIds(rows: seq<GridRow>) {
    forall i, j :: 0 <= i < j < |rows| && !IsNew(rows[i]) && !IsNew(rows[j]) ==> rows[i].id.value != rows[j].id.value
  }

  ghost predicate NoRepeatedNewPaths(rows: seq<GridRow>) {
    forall i, j :: 0 <= i < j < |rows| && IsNew(rows[i]) && IsNew(rows[j]) ==> RawPath(rows[i]) != RawPath(rows[j])
  }

  function AddWhen(errors: seq<GridError>, violated: bool, row: nat, field: Field): (r: seq<GridError>)
    ensures r == [] <==> errors == [] && !violated
  {
    if violated then errors + [GridError(row, field)] else errors
  }

  method CheckRow(tree: Tree, row: GridRow, index: nat, resourceTypes: seq<ResourceType>) returns (errors: seq<GridError>)
    ensures errors == [] <==> GoodRow(tree, row, resourceTypes)
  {
    errors := AddWhen([], row.name.text == "", index, NameField);
    if !IsNew(row) {
      var nodes := Table(tree, row.kind);
      var existing := FindById(nodes, row.id.value);
      errors := AddWhen(errors, existing.None?, index, IdField);
      errors := AddWhen(errors, ExistingRenameConflict(nodes, row.id.value, row.name), index, NameField);
    }
    errors := AddWhen(errors, row.kind != EpicRow && row.epicName.text == "", index, EpicNameField);
    errors := AddWhen(errors, (row.kind == StoryRow || row.kind == TaskRow) && row.featureName.text == "", index, FeatureNameField);
    errors := AddWhen(errors, row.kind == TaskRow && row.storyName.text == "", index, StoryNameField);
    if row.kind == TaskRow {
      errors := AddWhen(errors, row.hoursEffort.Some? && row.hoursEffort.value < 0.0, index, HoursField);
      errors := AddWhen(errors, row.durationDays.Some? && row.durationDays.value <= 0.0, index, DurationField);
      errors := AddWhen(errors, !ResourceTypeResolves(row, resourceTypes), index, ResourceTypeField);
    }
  }

  method CheckRows(tree: Tree, rows: seq<GridRow>, resourceTypes: seq<ResourceType>) returns (errors: seq<GridError>)
    ensures errors == [] <==> RowsSound(tree, rows, resourceTypes)
  {
    hide GoodRow, RawPath, Seen, RowsSound;
    errors := [];
    NothingSeen(tree, resourceTypes);
    var seenIds: set<Id> := {};
    var newPaths: set<GridPath> := {};
    for i := 0 to |rows|
      invariant Seen(rows[..i], seenIds, newPaths)
      invariant errors == [] <==> RowsSound(tree, rows[..i], resourceTypes)
    {
      var row := rows[i];
      assert rows[..i + 1] == rows[..i] + [row];
      var own := CheckRow(tree, row, i, resourceTypes);
      SoundSoFar(tree, rows[..i], row, resourceTypes, seenIds, newPaths);
      errors := errors + own;
      if IsNew(row) {
        errors := AddWhen(errors, RawPath(row) in newPaths, i, NameField);
        newPaths := newPaths + {RawPath(row)};
      } else {
        errors := AddWhen(errors, row.id.value in seenIds, i, IdField);
        seenIds := seenIds + {row.id.value};
      }
    }
    assert rows[..|rows|] == rows;
  }

  ghost predicate RowsSound(tree: Tree, rows: seq<GridRow>, resourceTypes: seq<ResourceType>) {
    (forall r :: r in rows ==> GoodRow(tree, r, resourceTypes)) && NoRepeatedIds(rows) && NoRepeatedNewPaths(rows)
  }

  /** The identifiers and new paths met so far. */
  ghost predicate Seen(rows: seq<GridRow>, seenIds: set<Id>, newPaths: set<GridPath>) {
    && (forall id :: id in seenIds <==> exists r :: r in rows && !IsNew(r) && r.id.value == id)
    && (forall path :: path in newPaths <==> exists r :: r in rows && IsNew(r) && RawPath(r) == path)
  }

  lemma NothingSeen(tree: Tree, resourceTypes: seq<ResourceType>)
    ensures Seen([], {}, {}) && RowsSound(tree, [], resourceTypes)
  {
  }

  lemma SoundSoFar(tree: Tree, rows: seq<GridRow>, row: GridRow, resourceTypes: seq<ResourceType>,
                   seenIds: set<Id>, newPaths: set<GridPath>)
    requires Seen(rows, seenIds, newPaths)
    ensures RowsSound(tree, rows + [row], resourceTypes) <==>
              && RowsSound(tree, rows, resourceTypes) && GoodRow(tree, row, resourceTypes)
              && if IsNew(row) then RawPath(row) !in newPaths else row.id.value !in seenIds
    ensures if IsNew(row) then Seen(rows + [row], seenIds, newPaths + {RawPath(row)})
            else Seen(rows + [row], seenIds + {row.id.value}, newPaths)
  {
    hide GoodRow, RawPath, NoRepeatedIds, NoRepeatedNewPaths;
    IdsSoFar(rows, row, seenIds, newPaths);
    PathsSoFar(rows, row, seenIds, newPaths);
    assert RowsSound(tree, rows + [row], resourceTypes) ==> row in rows + [row] && forall r :: r in rows ==> r in rows + [row];
  }

  lemma IdsSoFar(rows: seq<GridRow>, row: GridRow, seenIds: set<Id>, newPaths: set<GridPath>)
    requires Seen(rows, seenIds, newPaths)
    ensures NoRepeatedIds(rows + [row]) <==> NoRepeatedIds(rows) && (!IsNew(row) ==> row.id.value !in seenIds)
  {
    var all := rows + [row];
    assert forall k :: 0 <= k < |rows| ==> all[k] == rows[k];
    assert all[|rows|] == row;
  }

  lemma PathsSoFar(rows: seq<GridRow>, row: GridRow, seenIds: set<Id>, newPaths: set<GridPath>)
    requires Seen(rows, seenIds, newPaths)
    ensures NoRepeatedNewPaths(rows + [row]) <==> NoRepeatedNewPaths(rows) && (IsNew(row) ==> RawPath(row) !in newPaths)
  {
    var all := rows + [row];
    assert forall k :: 0 <= k < |rows| ==> all[k] == rows[k];
    assert all[|rows|] == row;
  }

  // ── Do the parents of a new row resolve? ───────────────────────────────────

  ghost predicate StagedEpicsAreNew(tree: Tree, rows: seq<GridRow>) {
    forall r :: r in rows && Staged(r, EpicRow) ==> FindUniqueByName(tree.epics, r.name).Missing?
  }

  datatype EpicResolution = NoEpic | AmbiguousEpic | ExistingEpic(id: Id) | StagedEpic

  function ResolveEpic(tree: Tree, rows: seq<GridRow>, row: GridRow): EpicResolution {
    match FindUniqueByName(tree.epics, row.epicName)
    case Ambiguous => AmbiguousEpic
    case Found(node) => ExistingEpic(node.id)
    case Missing =>
      if exists r :: r in StagedRows(rows, EpicRow) && r.name.key == row.epicName.key then StagedEpic else NoEpic
  }

  function EpicFeatures(tree: Tree, epic: EpicResolution): seq<Node> {
    if epic.ExistingEpic? then Children(tree.features, epic.id) else []
  }

  function FeatureStories(tree: Tree, feature: Lookup): seq<Node> {
    if feature.Found? then Children(tree.stories, feature.node.id) else []
  }

  predicate StagedFeatureFor(rows: seq<GridRow>, row: GridRow) {
    exists r :: r in StagedRows(rows, FeatureRow) && r.epicName.key == row.epicName.key && r.name.key == row.featureName.key
  }

  predicate StagedStoryFor(rows: seq<GridRow>, row: GridRow) {
    exists r :: r in StagedRows(rows, StoryRow)
      && r.epicName.key == row.epicName.key && r.featureName.key == row.featureName.key && r.name.key == row.storyName.key
  }

  /** The rows whose parents are checked: staged features and stories, and all new tasks. */
  predicate NeedsParent(row: GridRow) {
    Staged(row, FeatureRow) || Staged(row, StoryRow) || (IsNew(row) && row.kind == TaskRow)
  }

  predicate ParentsResolve(tree: Tree, rows: seq<GridRow>, row: GridRow) {
    var epic := ResolveEpic(tree, rows, row);
    && !epic.AmbiguousEpic? && !epic.NoEpic?
    && match row.kind
       case FeatureRow => epic.ExistingEpic? ==> FindUniqueByName(EpicFeatures(tree, epic), row.name).Missing?
       case StoryRow =>
         var feature := FindUniqueByName(EpicFeatures(tree, epic), row.featureName);
         && (StagedFeatureFor(rows, row) || feature.Found?)
         && (feature.Found? ==> FindUniqueByName(FeatureStories(tree, feature), row.name).Missing?)
       case _ =>
         var feature := FindUniqueByName(EpicFeatures(tree, epic), row.featureName);
         var story := FindUniqueByName(FeatureStories(tree, feature), row.storyName);
         && (StagedFeatureFor(rows, row) || feature.Found?)
         && (StagedStoryFor(rows, row) || story.Found?)
         && (story.Found? ==> FindUniqueByName(Children(tree.tasks, story.node.id), row.name).Missing?)
  }

  method CheckStagedEpics(tree: Tree, rows: seq<GridRow>) returns (errors: seq<GridError>)
    ensures errors == [] <==> StagedEpicsAreNew(tree, rows)
  {
    errors := [];
    for i := 0 to |rows|
      invariant errors == [] <==> StagedEpicsAreNew(tree, rows[..i])
    {
      assert rows[..i + 1] == rows[..i] + [rows[i]];
      errors := AddWhen(errors, Staged(rows[i], EpicRow) && !FindUniqueByName(tree.epics, rows[i].name).Missing?, i, NameField);
    }
    assert rows[..|rows|] == rows;
  }

  method CheckParentsOf(tree: Tree, rows: seq<GridRow>, row: GridRow, index: nat) returns (errors: seq<GridError>)
    requires row.kind != EpicRow
    ensures errors == [] <==> ParentsResolve(tree, rows, row)
  {
    var epic := ResolveEpic(tree, rows, row);
    errors := AddWhen([], epic.AmbiguousEpic? || epic.NoEpic?, index, EpicNameField);
    if row.kind == FeatureRow {
      if epic.ExistingEpic? {
        errors := AddWhen(errors, !FindUniqueByName(EpicFeatures(tree, epic), row.name).Missing?, index, NameField);
      }
      return;
    }
    var existingFeature := FindUniqueByName(EpicFeatures(tree, epic), row.featureName);
    var stagedFeature := StagedFeatureFor(rows, row);
    errors := AddWhen(errors, !stagedFeature && existingFeature.Ambiguous?, index, FeatureNameField);
    errors := AddWhen(errors, !stagedFeature && existingFeature.Missing?, index, FeatureNameField);
    var storyCandidates := FeatureStories(tree, existingFeature);
    if row.kind == StoryRow {
      errors := AddWhen(errors,
        existingFeature.Found? && !FindUniqueByName(storyCandidates, row.name).Missing?, index, NameField);
      return;
    }
    var existingStory := FindUniqueByName(storyCandidates, row.storyName);
    var stagedStory := StagedStoryFor(rows, row);
    errors := AddWhen(errors, !stagedStory && existingStory.Ambiguous?, index, StoryNameField);
    errors := AddWhen(errors, !stagedStory && existingStory.Missing?, index, StoryNameField);
    if existingStory.Found? {
      errors := AddWhen(errors,
        !FindUniqueByName(Children(tree.tasks, existingStory.node.id), row.name).Missing?, index, NameField);
    }
  }

  method CheckParents(tree: Tree, rows: seq<GridRow>) returns (errors: seq<GridError>)
    ensures errors == [] <==> forall r :: r in rows && NeedsParent(r) ==> ParentsResolve(tree, rows, r)
  {
    errors := [];
    for i := 0 to |rows|
      invariant errors == [] <==> forall r :: r in rows[..i] && NeedsParent(r) ==> ParentsResolve(tree, rows, r)
    {
      assert rows[..i + 1] == rows[..i] + [rows[i]];
      if NeedsParent(rows[i]) {
        var own := CheckParentsOf(tree, rows, rows[i], i);
        errors := errors + own;
      }
    }
    assert rows[..|rows|] == rows;
  }

  // ── Where will every row end up? ───────────────────────────────────────────

  predicate Renames(row: GridRow, kind: Kind, id: Id) {
    row.kind == kind && !IsNew(row) && row.id.value == id
  }

  /** The name a node will have after the batch: that of the last row submitted for it. */
  function FinalName(rows: seq<GridRow>, kind: Kind, node: Node): Name {
    if rows == [] then node.name
    else if Renames(rows[|rows| - 1], kind, node.id) then rows[|rows| - 1].name
    else FinalName(rows[..|rows| - 1], kind, node)
  }

  predicate Submitted(rows: seq<GridRow>, kind: Kind, id: Id) {
    exists r :: r in rows && Renames(r, kind, id)
  }

  datatype FinalResolution = Unresolved | AmbiguousName | Resolved(id: Option<Id>, finalName: Name)

  function RenamedTo(nodes: seq<Node>, rows: seq<GridRow>, kind: Kind, name: Name): seq<Node> {
    Filter(nodes, (n: Node) => FinalName(rows, kind, n).key == name.key)
  }

  /** Among several candidates a name is ambiguous; a single one settles it. */
  function OneRenamed(renamed: seq<Node>, rows: seq<GridRow>, kind: Kind, otherwise: FinalResolution): FinalResolution {
    if |renamed| > 1 then AmbiguousName
    else if |renamed| == 1 then Resolved(Some(renamed[0].id), FinalName(rows, kind, renamed[0]))
    else otherwise
  }

  function OneStaged(staged: seq<GridRow>, otherwise: FinalResolution): FinalResolution {
    if |staged| > 1 then AmbiguousName
    else if |staged| == 1 then Resolved(None, staged[0].name)
    else otherwise
  }

  /** An existing epic, else a staged one, else one renamed to this. */
  function ResolveFinalEpic(tree: Tree, rows: seq<GridRow>, name: Name): FinalResolution {
    match FindUniqueByName(tree.epics, name)
    case Ambiguous => AmbiguousName
    case Found(node) => Resolved(Some(node.id), FinalName(rows, EpicRow, node))
    case Missing =>
      var staged := Filter(StagedRows(rows, EpicRow), (r: GridRow) => r.name.key == name.key);
      var renamed := RenamedTo(tree.epics, rows, EpicRow, name);
      OneStaged(staged, OneRenamed(renamed, rows, EpicRow, Unresolved))
  }

  /** An existing feature of the epic, else one renamed to this, else a staged one under an epic of that final name. */
  function ResolveFinalFeature(tree: Tree, rows: seq<GridRow>, epicName: Name, name: Name): FinalResolution {
    var epic := ResolveFinalEpic(tree, rows, epicName);
    if !epic.Resolved? then epic
    else
      var staged := Filter(StagedRows(rows, FeatureRow), (r: GridRow) =>
        var parent := ResolveFinalEpic(tree, rows, r.epicName);
        r.name.key == name.key && parent.Resolved? && parent.finalName.key == epic.finalName.key);
      if epic.id.None? then OneStaged(staged, Unresolved)
      else
        var features := Children(tree.features, epic.id.value);
        match FindUniqueByName(features, name)
        case Ambiguous => AmbiguousName
        case Found(node) => Resolved(Some(node.id), FinalName(rows, FeatureRow, node))
        case Missing => OneRenamed(RenamedTo(features, rows, FeatureRow, name), rows, FeatureRow, OneStaged(staged, Unresolved))
  }

  /** As for features; the staged candidates are compared by the final name of their feature alone. */
  function ResolveFinalStory(tree: Tree, rows: seq<GridRow>, epicName: Name, featureName: Name, name: Name): FinalResolution {
    var feature := ResolveFinalFeature(tree, rows, epicName, featureName);
    if !feature.Resolved? then feature
    else
      var staged := Filter(StagedRows(rows, StoryRow), (r: GridRow) =>
        var parent := ResolveFinalFeature(tree, rows, r.epicName, r.featureName);
        r.name.key == name.key && parent.Resolved? && parent.finalName.key == feature.finalName.key);
      if feature.id.None? then OneStaged(staged, Unresolved)
      else
        var stories := Children(tree.stories, feature.id.value);
        match FindUniqueByName(stories, name)
        case Ambiguous => AmbiguousName
        case Found(node) => Resolved(Some(node.id), FinalName(rows, StoryRow, node))
        case Missing => OneRenamed(RenamedTo(stories, rows, StoryRow, name), rows, StoryRow, OneStaged(staged, Unresolved))
  }

  /** The final names above a new row and its own. */
  function ProposedKeys(tree: Tree, rows: seq<GridRow>, row: GridRow): Option<seq<Key>> {
    if row.kind == EpicRow then Some([row.name.key])
    else
      var epic := ResolveFinalEpic(tree, rows, row.epicName);
      if !epic.Resolved? then None
      else if row.kind == FeatureRow then Some([epic.finalName.key, row.name.key])
      else
        var feature := ResolveFinalFeature(tree, rows, row.epicName, row.featureName);
        if !feature.Resolved? then None
        else if row.kind == StoryRow then Some([epic.finalName.key, feature.finalName.key, row.name.key])
        else
          var story := ResolveFinalStory(tree, rows, row.epicName, row.featureName, row.storyName);
          if !story.Resolved? then None
          else Some([epic.finalName.key, feature.finalName.key, story.finalName.key, row.name.key])
  }

  /** The names from the epic down to the given node, after the batch. */
  function FinalKeys(tree: Tree, rows: seq<GridRow>, kind: Kind, node: Node): seq<Key>
    decreases Rank(kind), 0
  {
    (if kind == EpicRow then [] else KeysById(tree, rows, ParentKind(kind), node.parentId)) + [FinalName(rows, kind, node).key]
  }

  function KeysById(tree: Tree, rows: seq<GridRow>, kind: Kind, id: Id): seq<Key>
    decreases Rank(kind), 1
  {
    var node := FindById(Table(tree, kind), id);
    if node.Some? then FinalKeys(tree, rows, kind, node.value) else []
  }

  function FinalPath(tree: Tree, rows: seq<GridRow>, kind: Kind, node: Node): GridPath {
    GridPath(kind, Join(FinalKeys(tree, rows, kind, node)))
  }

  function RowPath(tree: Tree, rows: seq<GridRow>, row: GridRow): Option<GridPath> {
    if IsNew(row) then
      var proposed := ProposedKeys(tree, rows, row);
      if proposed.None? then None else Some(GridPath(row.kind, Join(proposed.value)))
    else
      var existing := FindById(Table(tree, row.kind), row.id.value);
      if existing.None? then None else Some(FinalPath(tree, rows, row.kind, existing.value))
  }

  ghost predicate RowsApart(tree: Tree, rows: seq<GridRow>, i: nat, j: nat)
    requires i < |rows| && j < |rows|
  {
    RowPath(tree, rows, rows[i]).Some? ==> RowPath(tree, rows, rows[i]) != RowPath(tree, rows, rows[j])
  }

  ghost predicate RowOffNode(tree: Tree, rows: seq<GridRow>, row: GridRow, kind: Kind, node: Node) {
    node in Table(tree, kind) && !Submitted(rows, kind, node.id) ==>
      RowPath(tree, rows, row) != Some(FinalPath(tree, rows, kind, node))
  }

  /** No path is claimed twice with a row of the batch among the claimants. */
  ghost predicate PathsFree(tree: Tree, rows: seq<GridRow>) {
    && (forall i, j :: 0 <= i < j < |rows| ==> RowsApart(tree, rows, i, j))
    && (forall row, kind, node :: row in rows ==> RowOffNode(tree, rows, row, kind, node))
  }

  // ── Collecting the claims on every path ────────────────────────────────────

  /** A claim on a path, by a row of the batch or, with owner -1, by a node the batch does not mention. */
  datatype Claim = Claim(path: GridPath, owner: int)

  function NodeClaims(tree: Tree, rows: seq<GridRow>, kind: Kind, nodes: seq<Node>): seq<Claim> {
    if nodes == [] then []
    else
      var node := nodes[|nodes| - 1];
      NodeClaims(tree, rows, kind, nodes[..|nodes| - 1])
      + if Submitted(rows, kind, node.id) then [] else [Claim(FinalPath(tree, rows, kind, node), -1)]
  }

  function TreeClaims(tree: Tree, rows: seq<GridRow>): seq<Claim> {
    NodeClaims(tree, rows, EpicRow, tree.epics) + NodeClaims(tree, rows, FeatureRow, tree.features)
    + NodeClaims(tree, rows, StoryRow, tree.stories) + NodeClaims(tree, rows, TaskRow, tree.tasks)
  }

  function RowClaims(tree: Tree, rows: seq<GridRow>, n: nat): seq<Claim>
    requires n <= |rows|
  {
    if n == 0 then []
    else
      var path := RowPath(tree, rows, rows[n - 1]);
      RowClaims(tree, rows, n - 1) + if path.Some? then [Claim(path.value, n - 1)] else []
  }

  lemma {:induction false} NodeClaimsAre(tree: Tree, rows: seq<GridRow>, kind: Kind, nodes: seq<Node>)
    ensures forall c :: c in NodeClaims(tree, rows, kind, nodes) <==>
              c.owner == -1 && exists n :: n in nodes && !Submitted(rows, kind, n.id) && c.path == FinalPath(tree, rows, kind, n)
  {
    if nodes == [] {
    } else {
      var last := |nodes| - 1;
      NodeClaimsAre(tree, rows, kind, nodes[..last]);
      assert nodes == nodes[..last] + [nodes[last]];
    }
  }

  ghost predicate ClaimedByNode(tree: Tree, rows: seq<GridRow>, path: GridPath) {
    exists kind, n :: n in Table(tree, kind) && !Submitted(rows, kind, n.id) && path == FinalPath(tree, rows, kind, n)
  }

  lemma TreeClaimsAre(tree: Tree, rows: seq<GridRow>)
    ensures forall c :: c in TreeClaims(tree, rows) <==> c.owner == -1 && ClaimedByNode(tree, rows, c.path)
  {
    hide FinalPath, Submitted, NodeClaims;
    NodeClaimsAre(tree, rows, EpicRow, Table(tree, EpicRow));
    NodeClaimsAre(tree, rows, FeatureRow, Table(tree, FeatureRow));
    NodeClaimsAre(tree, rows, StoryRow, Table(tree, StoryRow));
    NodeClaimsAre(tree, rows, TaskRow, Table(tree, TaskRow));
    forall c: Claim | c.owner == -1 && ClaimedByNode(tree, rows, c.path)
      ensures c in TreeClaims(tree, rows)
    {
      var kind, n :| n in Table(tree, kind) && !Submitted(rows, kind, n.id) && c.path == FinalPath(tree, rows, kind, n);
      assert c in NodeClaims(tree, rows, kind, Table(tree, kind));
    }
  }

  ghost predicate IsRowClaim(tree: Tree, rows: seq<GridRow>, n: nat, c: Claim)
    requires n <= |rows|
  {
    0 <= c.owner < n && RowPath(tree, rows, rows[c.owner]) == Some(c.path)
  }

  lemma {:induction false} RowClaimsAre(tree: Tree, rows: seq<GridRow>, n: nat)
    requires n <= |rows|
    ensures forall c :: c in RowClaims(tree, rows, n) <==> IsRowClaim(tree, rows, n, c)
  {
    if n == 0 {
    } else {
      RowClaimsAre(tree, rows, n - 1);
      forall c
        ensures IsRowClaim(tree, rows, n, c) <==>
                  IsRowClaim(tree, rows, n - 1, c) || (c.owner == n - 1 && RowPath(tree, rows, rows[n - 1]) == Some(c.path))
      {
      }
    }
  }

  lemma {:induction false} RowClaimsOrdered(tree: Tree, rows: seq<GridRow>, n: nat)
    requires n <= |rows|
    ensures forall i, j :: 0 <= i < j < |RowClaims(tree, rows, n)| ==>
              RowClaims(tree, rows, n)[i].owner < RowClaims(tree, rows, n)[j].owner
  {
    if n == 0 {
    } else {
      RowClaimsOrdered(tree, rows, n - 1);
      RowClaimsAre(tree, rows, n - 1);
      var before := RowClaims(tree, rows, n - 1);
      forall i | 0 <= i < |before|
        ensures before[i].owner < n - 1
      {
        assert before[i] in before && IsRowClaim(tree, rows, n - 1, before[i]);
      }
    }
  }

  function OwnersOf(claims: seq<Claim>, path: GridPath): seq<int> {
    if claims == [] then []
    else
      OwnersOf(claims[..|claims| - 1], path)
      + if claims[|claims| - 1].path == path then [claims[|claims| - 1].owner] else []
  }

  /** Two or more owners, one of them a row. */
  predicate Contested(owners: seq<int>) {
    |owners| >= 2 && exists k :: 0 <= k < |owners| && owners[k] >= 0
  }

  /** Only unmentioned nodes may claim a path twice under the same owner. */
  ghost predicate RowsClaimOnce(owners: seq<int>) {
    forall i, j :: 0 <= i < j < |owners| && owners[i] >= 0 ==> owners[i] != owners[j]
  }

  function Owners(claims: seq<Claim>): seq<int> {
    seq(|claims|, i requires 0 <= i < |claims| => claims[i].owner)
  }

  lemma {:induction false} OwnersAre(claims: seq<Claim>, path: GridPath)
    ensures forall o :: o in OwnersOf(claims, path) <==> Claim(path, o) in claims
    ensures RowsClaimOnce(Owners(claims)) ==> RowsClaimOnce(OwnersOf(claims, path))
  {
    if claims == [] {
    } else {
      var last := |claims| - 1;
      OwnersAre(claims[..last], path);
      assert claims == claims[..last] + [claims[last]];
      if RowsClaimOnce(Owners(claims)) {
        forall i, j | 0 <= i < j < last && Owners(claims[..last])[i] >= 0
          ensures Owners(claims[..last])[i] != Owners(claims[..last])[j]
        {
          assert Owners(claims)[i] != Owners(claims)[j];
        }
        forall i | 0 <= i < last && claims[i].owner >= 0
          ensures claims[i].owner != claims[last].owner
        {
          assert Owners(claims)[i] != Owners(claims)[last];
        }
        LastClaimsOnce(claims[..last], path, claims[last].owner);
      }
    }
  }

  lemma LastClaimsOnce(claims: seq<Claim>, path: GridPath, owner: int)
    requires forall i :: 0 <= i < |claims| && claims[i].owner >= 0 ==> claims[i].owner != owner
    requires forall o :: o in OwnersOf(claims, path) <==> Claim(path, o) in claims
    requires RowsClaimOnce(OwnersOf(claims, path))
    ensures RowsClaimOnce(OwnersOf(claims, path) + [owner])
  {
    var owners := OwnersOf(claims, path);
    forall k | 0 <= k < |owners| && owners[k] >= 0
      ensures owners[k] != owner
    {
      assert owners[k] in owners;
    }
  }

  ghost predicate Uncontested(claims: seq<Claim>) {
    forall path :: !Contested(OwnersOf(claims, path))
  }

  /** Rows and unmentioned nodes compete for paths exactly as the claims do. */
  lemma ClaimsDecide(tree: Tree, rows: seq<GridRow>, claims: seq<Claim>)
    requires claims == TreeClaims(tree, rows) + RowClaims(tree, rows, |rows|)
    ensures PathsFree(tree, rows) <==> Uncontested(claims)
  {
    if PathsFree(tree, rows) {
      forall path
        ensures !Contested(OwnersOf(claims, path))
      {
        FreePathUncontested(tree, rows, claims, path);
      }
    }
    if Uncontested(claims) {
      forall i, j | 0 <= i < j < |rows|
        ensures RowsApart(tree, rows, i, j)
      {
        RowsUncontested(tree, rows, claims, i, j);
      }
      forall row, kind, node | row in rows
        ensures RowOffNode(tree, rows, row, kind, node)
      {
        NodeUncontested(tree, rows, claims, row, kind, node);
      }
    }
  }

  lemma RowsUncontested(tree: Tree, rows: seq<GridRow>, claims: seq<Claim>, i: nat, j: nat)
    requires claims == TreeClaims(tree, rows) + RowClaims(tree, rows, |rows|) && Uncontested(claims)
    requires i < j < |rows|
    ensures RowsApart(tree, rows, i, j)
  {
    RowClaimsAre(tree, rows, |rows|);
    var path := RowPath(tree, rows, rows[i]);
    if path.Some? && path == RowPath(tree, rows, rows[j]) {
      assert Claim(path.value, i) in RowClaims(tree, rows, |rows|) && Claim(path.value, j) in RowClaims(tree, rows, |rows|);
      TwoOwners(claims, path.value, i, j);
    }
  }

  lemma NodeUncontested(tree: Tree, rows: seq<GridRow>, claims: seq<Claim>, row: GridRow, kind: Kind, node: Node)
    requires claims == TreeClaims(tree, rows) + RowClaims(tree, rows, |rows|) && Uncontested(claims)
    requires row in rows
    ensures RowOffNode(tree, rows, row, kind, node)
  {
    var path := FinalPath(tree, rows, kind, node);
    RowClaimsAre(tree, rows, |rows|);
    TreeClaimsAre(tree, rows);
    var i :| 0 <= i < |rows| && rows[i] == row;
    if node in Table(tree, kind) && !Submitted(rows, kind, node.id) && RowPath(tree, rows, row) == Some(path) {
      assert ClaimedByNode(tree, rows, path) && Claim(path, -1).owner == -1;
      assert Claim(path, -1) in TreeClaims(tree, rows) && Claim(path, i) in RowClaims(tree, rows, |rows|);
      TwoOwners(claims, path, i, -1);
    }
  }

  lemma TwoOwners(claims: seq<Claim>, path: GridPath, row: nat, other: int)
    requires Claim(path, row) in claims && Claim(path, other) in claims && row != other
    ensures Contested(OwnersOf(claims, path))
  {
    OwnersAre(claims, path);
    var owners := OwnersOf(claims, path);
    var i :| 0 <= i < |owners| && owners[i] == row;
    var j :| 0 <= j < |owners| && owners[j] == other;
    assert i != j;
  }

  lemma FreePathUncontested(tree: Tree, rows: seq<GridRow>, claims: seq<Claim>, path: GridPath)
    requires claims == TreeClaims(tree, rows) + RowClaims(tree, rows, |rows|) && PathsFree(tree, rows)
    ensures !Contested(OwnersOf(claims, path))
  {
    var owners := OwnersOf(claims, path);
    if Contested(owners) {
      var i :| 0 <= i < |owners| && owners[i] >= 0;
      var j := if i == 0 then 1 else 0;
      AllClaimOnce(tree, rows, claims);
      OwnersAre(claims, path);
      assert owners[i] in owners && owners[j] in owners && owners[i] != owners[j];
      ClaimsMean(tree, rows, claims, path, owners[i]);
      ClaimsMean(tree, rows, claims, path, owners[j]);
      NotBoth(tree, rows, path, owners[i], owners[j]);
    }
  }

  /** On free paths a row shares its path with no other claimant. */
  lemma NotBoth(tree: Tree, rows: seq<GridRow>, path: GridPath, row: nat, other: int)
    requires PathsFree(tree, rows) && row != other
    requires row < |rows| && RowPath(tree, rows, rows[row]) == Some(path)
    ensures if other < 0 then !ClaimedByNode(tree, rows, path)
            else other < |rows| ==> RowPath(tree, rows, rows[other]) != Some(path)
  {
    if 0 <= other < |rows| {
      assert RowsApart(tree, rows, if row < other then row else other, if row < other then other else row);
    } else if other < 0 {
      forall kind, n | n in Table(tree, kind) && !Submitted(rows, kind, n.id)
        ensures path != FinalPath(tree, rows, kind, n)
      {
        assert RowOffNode(tree, rows, rows[row], kind, n);
      }
    }
  }

  lemma ClaimsMean(tree: Tree, rows: seq<GridRow>, claims: seq<Claim>, path: GridPath, owner: int)
    requires claims == TreeClaims(tree, rows) + RowClaims(tree, rows, |rows|) && Claim(path, owner) in claims
    ensures if owner < 0 then owner == -1 && ClaimedByNode(tree, rows, path)
            else owner < |rows| && RowPath(tree, rows, rows[owner]) == Some(path)
  {
    TreeClaimsAre(tree, rows);
    RowClaimsAre(tree, rows, |rows|);
    assert Claim(path, owner) in TreeClaims(tree, rows) || Claim(path, owner) in RowClaims(tree, rows, |rows|);
  }

  lemma AllClaimOnce(tree: Tree, rows: seq<GridRow>, claims: seq<Claim>)
    requires claims == TreeClaims(tree, rows) + RowClaims(tree, rows, |rows|)
    ensures RowsClaimOnce(Owners(claims))
  {
    var ofTree, ofRows := TreeClaims(tree, rows), RowClaims(tree, rows, |rows|);
    TreeClaimsAre(tree, rows);
    RowClaimsAre(tree, rows, |rows|);
    RowClaimsOrdered(tree, rows, |rows|);
    forall i | 0 <= i < |ofTree|
      ensures claims[i].owner == -1
    {
      assert ofTree[i] in ofTree;
    }
  }

  ghost predicate Collected(proposedPaths: map<GridPath, seq<int>>, claims: seq<Claim>) {
    forall path :: OwnersOf(claims, path) == if path in proposedPaths then proposedPaths[path] else []
  }

  method CollectPaths(claims: seq<Claim>) returns (proposedPaths: map<GridPath, seq<int>>)
    ensures Collected(proposedPaths, claims)
  {
    proposedPaths := map[];
    for i := 0 to |claims|
      invariant Collected(proposedPaths, claims[..i])
    {
      var path := claims[i].path;
      var owners := if path in proposedPaths then proposedPaths[path] else [];
      assert claims[..i + 1][..i] == claims[..i];
      proposedPaths := proposedPaths[path := owners + [claims[i].owner]];
    }
    assert claims[..|claims|] == claims;
  }

  method CheckProposedPaths(tree: Tree, rows: seq<GridRow>) returns (errors: seq<GridError>)
    ensures errors == [] <==> PathsFree(tree, rows)
  {
    var claims := TreeClaims(tree, rows) + RowClaims(tree, rows, |rows|);
    var proposedPaths := CollectPaths(claims);
    ClaimsDecide(tree, rows, claims);
    errors := ReportContested(proposedPaths);
    MapDecides(claims, proposedPaths);
  }

  lemma MapDecides(claims: seq<Claim>, proposedPaths: map<GridPath, seq<int>>)
    requires Collected(proposedPaths, claims)
    ensures Uncontested(claims) <==> forall path :: path in proposedPaths ==> !Contested(proposedPaths[path])
  {
  }

  method ReportContested(proposedPaths: map<GridPath, seq<int>>) returns (errors: seq<GridError>)
    ensures errors == [] <==> forall path :: path in proposedPaths ==> !Contested(proposedPaths[path])
  {
    errors := [];
    var pending := proposedPaths.Keys;
    while pending != {}
      invariant pending <= proposedPaths.Keys
      invariant errors == [] <==> forall path :: path in proposedPaths && path !in pending ==> !Contested(proposedPaths[path])
      decreases |pending|
    {
      var path :| path in pending;
      pending := pending - {path};
      var owners := proposedPaths[path];
      if |owners| < 2 {
        continue;
      }
      var found := ReportRows(owners);
      errors := errors + found;
    }
  }

  method ReportRows(owners: seq<int>) returns (errors: seq<GridError>)
    ensures errors == [] <==> forall k :: 0 <= k < |owners| ==> owners[k] < 0
  {
    errors := [];
    for k := 0 to |owners|
      invariant errors == [] <==> forall j :: 0 <= j < k ==> owners[j] < 0
    {
      if owners[k] >= 0 {
        errors := errors + [GridError(owners[k], NameField)];
      }
    }
  }

  // ── The validator ──────────────────────────────────────────────────────────

  /** What the validator accepts. */
  ghost predicate Accepted(tree: Tree, rows: seq<GridRow>, resourceTypes: seq<ResourceType>) {
    && RowsSound(tree, rows, resourceTypes)
    && StagedEpicsAreNew(tree, rows)
    && (forall r :: r in rows && NeedsParent(r) ==> ParentsResolve(tree, rows, r))
    && PathsFree(tree, rows)
  }

  method ValidateBacklogGrid(tree: Tree, rows: seq<GridRow>, resourceTypes: seq<ResourceType>) returns (errors: seq<GridError>)
    ensures errors == [] <==> Accepted(tree, rows, resourceTypes)
  {
    var rowErrors := CheckRows(tree, rows, resourceTypes);
    var epicErrors := CheckStagedEpics(tree, rows);
    var parentErrors := CheckParents(tree, rows);
    var pathErrors := CheckProposedPaths(tree, rows);
    errors := rowErrors + epicErrors + parentErrors + pathErrors;
  }
}
