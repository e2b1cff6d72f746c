/**
 * The ownership audit of capacity profiles: what makes two rows the same authoritative
 * state, what a valid owner is, and which groups of duplicates may be repaired.
 */
module OwnershipAudit {
  import opened Common
  import Sorting

  type Text = string

  datatype Segment = Segment(startWeek: real, endWeek: real, percent: real, source: Text)

  datatype Profile = Profile(
    id: Text,
    projectId: Text,
    resourceTypeId: Option<Text>,
    namedResourceId: Option<Text>,
    ownerKind: Text,
    planningBasis: Text,
    source: Text,
    defaultPercent: Option<real>,
    startWeek: Option<real>,
    endWeek: Option<real>,
    provenance: Option<Text>,
    createdAt: int,
    segments: seq<Segment>)

  // ── Orders ─────────────────────────────────────────────────────────────────

  /** A total order on text, standing for the runtime's locale order. */
  predicate TextLe(a: Text, b: Text) {
    a == [] || (b != [] && (a[0] < b[0] || (a[0] == b[0] && TextLe(a[1..], b[1..]))))
  }

  lemma {:induction false} TextTotal(a: Text, b: Text)
    ensures TextLe(a, b) || TextLe(b, a)
    ensures TextLe(a, b) && TextLe(b, a) ==> a == b
  {
    if a != [] && b != [] {
      TextTotal(a[1..], b[1..]);
      assert a == [a[0]] + a[1..] && b == [b[0]] + b[1..];
    }
  }

  lemma {:induction false} TextTransitive(a: Text, b: Text, c: Text)
    requires TextLe(a, b) && TextLe(b, c)
    ensures TextLe(a, c)
  {
    if a != [] && a[0] == b[0] && b[0] == c[0] {
      TextTransitive(a[1..], b[1..], c[1..]);
    }
  }

  lemma TextOrder()
    ensures Sorting.TotalOrder(TextLe)
  {
    forall a, b
      ensures TextLe(a, b) || TextLe(b, a)
      ensures TextLe(a, b) && TextLe(b, a) ==> a == b
    {
      TextTotal(a, b);
    }
    forall a, b, c | TextLe(a, b) && TextLe(b, c)
      ensures TextLe(a, c)
    {
      TextTransitive(a, b, c);
    }
  }

  predicate CompareSegments(a: Segment, b: Segment) {
    if a.startWeek != b.startWeek then a.startWeek < b.startWeek
    else if a.endWeek != b.endWeek then a.endWeek < b.endWeek
    else if a.percent != b.percent then a.percent < b.percent
    else TextLe(a.source, b.source)
  }

  lemma SegmentOrder()
    ensures Sorting.TotalOrder(CompareSegments)
  {
    TextOrder();
  }

  function OrEmpty(id: Option<Text>): Text {
    if id.Some? then id.value else ""
  }

  predicate CompareProfiles(a: Profile, b: Profile) {
    if a.projectId != b.projectId then TextLe(a.projectId, b.projectId)
    else if a.ownerKind != b.ownerKind then TextLe(a.ownerKind, b.ownerKind)
    else if OrEmpty(a.resourceTypeId) != OrEmpty(b.resourceTypeId) then
      TextLe(OrEmpty(a.resourceTypeId), OrEmpty(b.resourceTypeId))
    else if OrEmpty(a.namedResourceId) != OrEmpty(b.namedResourceId) then
      TextLe(OrEmpty(a.namedResourceId), OrEmpty(b.namedResourceId))
    else TextLe(a.id, b.id)
  }

  /** Created earlier, or at the same moment with the smaller id. */
  predicate Earlier(a: Profile, b: Profile) {
    if a.createdAt != b.createdAt then a.createdAt < b.createdAt else TextLe(a.id, b.id)
  }

  lemma SurvivalOrder()
    ensures Sorting.TotalPreorder(Earlier)
    ensures forall a, b :: Earlier(a, b) && Earlier(b, a) ==> a.id == b.id
  {
    TextOrder();
  }

  // ── Semantic equality ──────────────────────────────────────────────────────

  predicate SameScalars(a: Profile, b: Profile) {
    && a.projectId == b.projectId && a.resourceTypeId == b.resourceTypeId && a.namedResourceId == b.namedResourceId
    && a.ownerKind == b.ownerKind && a.planningBasis == b.planningBasis && a.source == b.source
    && a.defaultPercent == b.defaultPercent && a.startWeek == b.startWeek && a.endWeek == b.endWeek
    && a.provenance == b.provenance
  }

  predicate ProfilesAreSemanticEqual(a: Profile, b: Profile) {
    && SameScalars(a, b)
    && |a.segments| == |b.segments|
    && Sorting.SortBy(a.segments, CompareSegments) == Sorting.SortBy(b.segments, CompareSegments)
  }

  /** Equal scalar fields and the same segments, counted, in any order; identity and timestamps are ignored. */
  lemma SemanticEqualityIs(a: Profile, b: Profile)
    ensures ProfilesAreSemanticEqual(a, b) <==> SameScalars(a, b) && multiset(a.segments) == multiset(b.segments)
  {
    SegmentOrder();
    Sorting.SortIsCanonical(a.segments, b.segments, CompareSegments);
    assert |multiset(a.segments)| == |a.segments| && |multiset(b.segments)| == |b.segments|;
  }

  lemma SemanticEqualityIsAnEquivalence(a: Profile, b: Profile, c: Profile)
    ensures ProfilesAreSemanticEqual(a, a)
    ensures ProfilesAreSemanticEqual(a, b) <==> ProfilesAreSemanticEqual(b, a)
    ensures ProfilesAreSemanticEqual(a, b) && ProfilesAreSemanticEqual(b, c) ==> ProfilesAreSemanticEqual(a, c)
  {
  }

  ghost predicate AllAlike(profiles: seq<Profile>) {
    forall p, q :: p in profiles && q in profiles ==> ProfilesAreSemanticEqual(p, q)
  }

  /** Comparing every member with one of them settles the whole group. */
  lemma OneReferenceSuffices(profiles: seq<Profile>, reference: Profile)
    requires reference in profiles
    ensures (forall p :: p in profiles ==> ProfilesAreSemanticEqual(p, reference)) <==> AllAlike(profiles)
  {
  }

  function SelectSurvivor(profiles: seq<Profile>): (survivor: Profile)
    requires profiles != []
  {
    Sorting.SortBy(profiles, Earlier)[0]
  }

  lemma SurvivorIsEarliest(profiles: seq<Profile>)
    requires profiles != []
    ensures SelectSurvivor(profiles) in profiles
    ensures forall p :: p in profiles ==> Earlier(SelectSurvivor(profiles), p)
  {
    SurvivalOrder();
    var sorted := Sorting.SortBy(profiles, Earlier);
    Sorting.SortSorts(profiles, Earlier);
    Sorting.SortMembers(profiles, Earlier, sorted[0]);
    forall p | p in profiles
      ensures Earlier(sorted[0], p)
    {
      Sorting.SortMembers(profiles, Earlier, p);
      var k :| 0 <= k < |sorted| && sorted[k] == p;
      assert Earlier(sorted[0], sorted[0]) || k > 0;
    }
  }

  // ── Owner shape ────────────────────────────────────────────────────────────

  /** The project of every known owner. */
  datatype Owners = Owners(rtToProject: map<Text, Text>, nrToProject: map<Text, Text>)

  /** The owner lookup never asks for an empty identifier. */
  predicate ValidOwners(owners: Owners) {
    "" !in owners.rtToProject && "" !in owners.nrToProject
  }

  predicate PersonKind(kind: Text) {
    kind == "NAMED_PERSON" || kind == "PLANNED_RESOURCE"
  }

  predicate ProfileHasValidOwnerShape(p: Profile, owners: Owners) {
    var hasRt, hasNr := p.resourceTypeId.Some?, p.namedResourceId.Some?;
    if hasRt == hasNr then false
    else if p.ownerKind == "ROLE" && (!hasRt || hasNr) then false
    else if PersonKind(p.ownerKind) && (!hasNr || hasRt) then false
    else if hasRt && p.resourceTypeId.value !in owners.rtToProject then false
    else if hasNr && p.namedResourceId.value !in owners.nrToProject then false
    else if hasRt && owners.rtToProject[p.resourceTypeId.value] != p.projectId then false
    else !(hasNr && owners.nrToProject[p.namedResourceId.value] != p.projectId)
  }

  datatype FindingType =
    | BothOwnerFksSet | NeitherOwnerFkSet | OwnerKindFkMismatch | MissingOwner | CrossProjectOwner
    | DuplicatePhysicalOwner | IdenticalDuplicateGroup | ConflictingDuplicateGroup

  datatype Finding = Finding(kind: FindingType, isError: bool, profileIds: seq<Text>)

  ghost predicate HasError(findings: seq<Finding>) {
    exists f :: f in findings && f.isError
  }

  predicate Foreign(id: Option<Text>, projects: map<Text, Text>) {
    id.Some? && id.value !in projects
  }

  predicate CrossProject(id: Option<Text>, projects: map<Text, Text>, projectId: Text) {
    id.Some? && (id.value !in projects || projects[id.value] != projectId)
  }

  /** What each kind of per-row finding means. */
  predicate Violates(p: Profile, owners: Owners, kind: FindingType) {
    match kind
    case BothOwnerFksSet => p.resourceTypeId.Some? && p.namedResourceId.Some?
    case NeitherOwnerFkSet => p.resourceTypeId.None? && p.namedResourceId.None?
    case OwnerKindFkMismatch =>
      || (p.ownerKind == "ROLE" && (p.resourceTypeId.None? || p.namedResourceId.Some?))
      || (PersonKind(p.ownerKind) && (p.namedResourceId.None? || p.resourceTypeId.Some?))
    case MissingOwner => Foreign(p.resourceTypeId, owners.rtToProject) || Foreign(p.namedResourceId, owners.nrToProject)
    case CrossProjectOwner =>
      CrossProject(p.resourceTypeId, owners.rtToProject, p.projectId)
      || CrossProject(p.namedResourceId, owners.nrToProject, p.projectId)
    case _ => false
  }

  function ReportWhen(findings: seq<Finding>, violated: bool, kind: FindingType, id: Text): (r: seq<Finding>)
    ensures forall f :: f in r <==> f in findings || (violated && f == Finding(kind, true, [id]))
    ensures r == [] <==> findings == [] && !violated
  {
    if violated then findings + [Finding(kind, true, [id])] else findings
  }

  predicate IsFindingOf(f: Finding, p: Profile, owners: Owners) {
    f == Finding(f.kind, true, [p.id]) && Violates(p, owners, f.kind)
  }

  /** The row checks and the shape test used for grouping agree. */
  lemma NothingViolatedIffValidShape(p: Profile, owners: Owners)
    ensures (forall kind :: !Violates(p, owners, kind)) <==> ProfileHasValidOwnerShape(p, owners)
  {
    if forall kind :: !Violates(p, owners, kind) {
      assert !Violates(p, owners, BothOwnerFksSet) && !Violates(p, owners, NeitherOwnerFkSet);
      assert !Violates(p, owners, OwnerKindFkMismatch);
      assert !Violates(p, owners, MissingOwner) && !Violates(p, owners, CrossProjectOwner);
    }
  }

  predicate AboutTheOwner(f: Finding) {
    f.kind == MissingOwner || f.kind == CrossProjectOwner
  }

  method CheckReferences(p: Profile, ghost owners: Owners) returns (findings: seq<Finding>)
    ensures forall f :: f in findings <==> !AboutTheOwner(f) && IsFindingOf(f, p, owners)
  {
    var hasRt, hasNr := p.resourceTypeId.Some?, p.namedResourceId.Some?;
    findings := [];
    findings := ReportWhen(findings, hasRt && hasNr, BothOwnerFksSet, p.id);
    findings := ReportWhen(findings, !hasRt && !hasNr, NeitherOwnerFkSet, p.id);
    findings := ReportWhen(findings, p.ownerKind == "ROLE" && !hasRt, OwnerKindFkMismatch, p.id);
    findings := ReportWhen(findings, p.ownerKind == "ROLE" && hasNr, OwnerKindFkMismatch, p.id);
    findings := ReportWhen(findings, PersonKind(p.ownerKind) && !hasNr, OwnerKindFkMismatch, p.id);
    findings := ReportWhen(findings, PersonKind(p.ownerKind) && hasRt, OwnerKindFkMismatch, p.id);
  }

  method CheckOwners(p: Profile, owners: Owners) returns (findings: seq<Finding>)
    ensures forall f :: f in findings <==> AboutTheOwner(f) && IsFindingOf(f, p, owners)
  {
    findings := [];
    findings := ReportWhen(findings, Foreign(p.resourceTypeId, owners.rtToProject), MissingOwner, p.id);
    findings := ReportWhen(findings, Foreign(p.namedResourceId, owners.nrToProject), MissingOwner, p.id);
    findings := ReportWhen(findings, CrossProject(p.resourceTypeId, owners.rtToProject, p.projectId), CrossProjectOwner, p.id);
    findings := ReportWhen(findings, CrossProject(p.namedResourceId, owners.nrToProject, p.projectId), CrossProjectOwner, p.id);
  }

  method CheckProfile(p: Profile, owners: Owners) returns (findings: seq<Finding>)
    ensures forall f :: f in findings <==> IsFindingOf(f, p, owners)
    ensures findings == [] <==> ProfileHasValidOwnerShape(p, owners)
  {
    var references := CheckReferences(p, owners);
    var known := CheckOwners(p, owners);
    findings := references + known;
    NothingViolatedIffValidShape(p, owners);
    if !ProfileHasValidOwnerShape(p, owners) {
      ghost var kind :| Violates(p, owners, kind);
      assert IsFindingOf(Finding(kind, true, [p.id]), p, owners);
    } else if findings != [] {
      assert findings[0] in findings;
    }
  }

  // ── Duplicate groups ───────────────────────────────────────────────────────

  /** A physical owner: a resource type or a named resource. */
  datatype OwnerKey = RoleKey(id: Text) | PersonKey(id: Text)

  /** Does the row reference this owner at all? A row with both references belongs to two groups. */
  predicate References(p: Profile, key: OwnerKey) {
    key.id != "" && (if key.RoleKey? then p.resourceTypeId == Some(key.id) else p.namedResourceId == Some(key.id))
  }

  function Rows(profiles: seq<Profile>, key: OwnerKey): seq<Profile> {
    if profiles == [] then []
    else
      Rows(profiles[..|profiles| - 1], key)
      + if References(profiles[|profiles| - 1], key) then [profiles[|profiles| - 1]] else []
  }

  lemma {:induction false} RowsMembers(profiles: seq<Profile>, key: OwnerKey, p: Profile)
    ensures p in Rows(profiles, key) <==> p in profiles && References(p, key)
  {
    if profiles == [] {
    } else {
      RowsMembers(profiles[..|profiles| - 1], key, p);
      assert profiles == profiles[..|profiles| - 1] + [profiles[|profiles| - 1]];
    }
  }

  function RowsAppend(profiles: seq<Profile>, p: Profile, key: OwnerKey): (r: seq<Profile>)
    ensures r == Rows(profiles + [p], key)
  {
    assert (profiles + [p])[..|profiles|] == profiles;
    Rows(profiles, key) + if References(p, key) then [p] else []
  }

  datatype Group = Group(key: OwnerKey, profiles: seq<Profile>, isIdentical: bool, survivorId: Option<Text>)

  datatype Classification = Classification(group: Group, finding: Finding)

  function Ids(profiles: seq<Profile>): seq<Text> {
    seq(|profiles|, i requires 0 <= i < |profiles| => profiles[i].id)
  }

  function ClassifyDuplicateGroup(profiles: seq<Profile>, key: OwnerKey, owners: Owners): Option<Classification> {
    if |profiles| < 2 then None
    else
      var sortedProfiles := Sorting.SortBy(profiles, CompareProfiles);
      var allValid := forall p :: p in sortedProfiles ==> ProfileHasValidOwnerShape(p, owners);
      var isIdentical := allValid && forall p :: p in sortedProfiles ==> ProfilesAreSemanticEqual(p, sortedProfiles[0]);
      var survivor := if isIdentical then Some(SelectSurvivor(sortedProfiles).id) else None;
      Some(Classification(
             Group(key, sortedProfiles, isIdentical, survivor),
             Finding(DuplicatePhysicalOwner, allValid && !isIdentical, Ids(sortedProfiles))))
  }

  ghost predicate ValidAndAlike(profiles: seq<Profile>, owners: Owners) {
    AllAlike(profiles) && forall p :: p in profiles ==> ProfileHasValidOwnerShape(p, owners)
  }

  /** A group is repairable exactly when all its rows are valid and pairwise the same state. */
  lemma ClassificationDecides(profiles: seq<Profile>, key: OwnerKey, owners: Owners)
    requires |profiles| >= 2
    ensures var group := ClassifyDuplicateGroup(profiles, key, owners).value.group;
            && (group.isIdentical <==> ValidAndAlike(profiles, owners))
            && multiset(group.profiles) == multiset(profiles)
            && (group.isIdentical ==> group.survivorId == Some(SelectSurvivor(group.profiles).id))
  {
    var sorted := Sorting.SortBy(profiles, CompareProfiles);
    forall p
      ensures p in sorted <==> p in profiles
    {
      Sorting.SortMembers(profiles, CompareProfiles, p);
    }
    Sorting.SortKeepsElements(profiles, CompareProfiles);
    OneReferenceSuffices(sorted, sorted[0]);
  }

  // ── The audit ──────────────────────────────────────────────────────────────

  datatype AuditReport = AuditReport(
    findings: seq<Finding>,
    repairableGroups: seq<Group>,
    conflictingGroups: seq<Group>,
    isClean: bool)

  ghost predicate HasGroup(groups: seq<Group>, key: OwnerKey) {
    exists g :: g in groups && g.key == key
  }

  ghost predicate Covers(report: AuditReport, key: OwnerKey) {
    HasGroup(report.repairableGroups, key) || HasGroup(report.conflictingGroups, key)
  }

  ghost predicate OneGroupPerKey(groups: seq<Group>) {
    forall i, j :: 0 <= i < j < |groups| ==> groups[i].key != groups[j].key
  }

  ghost predicate IsGroupOf(g: Group, profiles: seq<Profile>) {
    && g.key.id != "" && |g.profiles| >= 2 && multiset(g.profiles) == multiset(Rows(profiles, g.key))
  }

  ghost predicate AllValid(profiles: seq<Profile>, owners: Owners) {
    forall p :: p in profiles ==> ProfileHasValidOwnerShape(p, owners)
  }

  /** All owners, the owners of one kind, or the owners handled so far. */
  datatype Scope = Everything | Kind(roles: bool) | Listed(keys: seq<OwnerKey>)

  predicate InScope(key: OwnerKey, scope: Scope) {
    match scope
    case Everything => true
    case Kind(roles) => key.RoleKey? == roles
    case Listed(keys) => key in keys
  }

  /** Every listed group holds all rows of its owner, and those rows are alike exactly as claimed. */
  ghost predicate Faithful(groups: seq<Group>, profiles: seq<Profile>, owners: Owners, scope: Scope, alike: bool) {
    forall g :: g in groups ==>
      InScope(g.key, scope) && IsGroupOf(g, profiles) && ValidAndAlike(Rows(profiles, g.key), owners) == alike
  }

  ghost predicate Complete(report: AuditReport, profiles: seq<Profile>, scope: Scope) {
    forall key :: InScope(key, scope) && |Rows(profiles, key)| >= 2 ==> Covers(report, key)
  }

  /** The groups reported over some owners. */
  ghost predicate GroupsOver(report: AuditReport, profiles: seq<Profile>, owners: Owners, scope: Scope) {
    && Faithful(report.repairableGroups, profiles, owners, scope, true)
    && Faithful(report.conflictingGroups, profiles, owners, scope, false)
    && OneGroupPerKey(report.repairableGroups)
    && Complete(report, profiles, scope)
  }

  /** A correct audit of these rows. */
  ghost predicate IsAudit(report: AuditReport, profiles: seq<Profile>, owners: Owners) {
    && GroupsOver(report, profiles, owners, Everything)
    && (HasError(report.findings) <==> !AllValid(profiles, owners) || report.conflictingGroups != [])
    && (report.isClean <==>
          !HasError(report.findings) && report.conflictingGroups == [] && report.repairableGroups == [])
  }

  /** Rows by owner, with the owners in order of first appearance. */
  method GroupByOwner(profiles: seq<Profile>, roles: bool) returns (keys: seq<OwnerKey>, groups: map<OwnerKey, seq<Profile>>)
    ensures NoDuplicates(keys)
    ensures forall key :: key in keys <==> key.RoleKey? == roles && Rows(profiles, key) != []
    ensures forall key :: key in keys ==> key in groups && groups[key] == Rows(profiles, key)
  {
    keys, groups := [], map[];
    for i := 0 to |profiles|
      invariant GroupedSoFar(profiles[..i], roles, keys, groups)
    {
      keys, groups := GroupOne(profiles[..i], roles, keys, groups, profiles[i]);
      assert profiles[..i + 1] == profiles[..i] + [profiles[i]];
    }
    assert profiles[..|profiles|] == profiles;
  }

  ghost predicate GroupedSoFar(profiles: seq<Profile>, roles: bool, keys: seq<OwnerKey>, groups: map<OwnerKey, seq<Profile>>) {
    && NoDuplicates(keys)
    && (forall key :: key in keys <==> key in groups)
    && (forall key :: key in groups <==> key.RoleKey? == roles && Rows(profiles, key) != [])
    && (forall key :: key in groups ==> groups[key] == Rows(profiles, key))
  }

  method GroupOne(ghost before: seq<Profile>, roles: bool, keys: seq<OwnerKey>, groups: map<OwnerKey, seq<Profile>>, p: Profile)
    returns (newKeys: seq<OwnerKey>, newGroups: map<OwnerKey, seq<Profile>>)
    requires GroupedSoFar(before, roles, keys, groups)
    ensures GroupedSoFar(before + [p], roles, newKeys, newGroups)
  {
    newKeys, newGroups := keys, groups;
    forall key
      ensures Rows(before + [p], key) == Rows(before, key) + if References(p, key) then [p] else []
    {
      var r := RowsAppend(before, p, key);
    }
    var reference := if roles then p.resourceTypeId else p.namedResourceId;
    if reference.Some? && reference.value != "" {
      var key := if roles then RoleKey(reference.value) else PersonKey(reference.value);
      if key !in groups {
        newKeys := keys + [key];
        newGroups := groups[key := [p]];
      } else {
        newGroups := groups[key := groups[key] + [p]];
      }
    }
  }

  /** The findings and groups that the duplicates of one kind of owner add. */
  method ClassifyGroups(profiles: seq<Profile>, roles: bool, owners: Owners) returns (report: AuditReport)
    ensures GroupsOver(report, profiles, owners, Kind(roles))
    ensures HasError(report.findings) <==> report.conflictingGroups != []
  {
    var keys, groups := GroupByOwner(profiles, roles);
    report := AuditReport([], [], [], true);
    for i := 0 to |keys|
      invariant GroupsOver(report, profiles, owners, Listed(keys[..i]))
      invariant HasError(report.findings) <==> report.conflictingGroups != []
    {
      report := ClassifyOne(report, profiles, keys[..i], keys[i], owners, groups[keys[i]]);
      assert keys[..i + 1] == keys[..i] + [keys[i]];
    }
    assert keys[..|keys|] == keys;
    forall key: OwnerKey | key.RoleKey? == roles && |Rows(profiles, key)| >= 2
      ensures Covers(report, key)
    {
      assert key in keys;
    }
  }

  method ClassifyOne(before: AuditReport, profiles: seq<Profile>, ghost done: seq<OwnerKey>, key: OwnerKey,
                     owners: Owners, group: seq<Profile>)
    returns (after: AuditReport)
    requires GroupsOver(before, profiles, owners, Listed(done))
    requires HasError(before.findings) <==> before.conflictingGroups != []
    requires key !in done && group == Rows(profiles, key)
    ensures GroupsOver(after, profiles, owners, Listed(done + [key]))
    ensures HasError(after.findings) <==> after.conflictingGroups != []
  {
    hide ValidAndAlike, Rows, Faithful, Complete, OneGroupPerKey, Sorting.SortBy, ProfilesAreSemanticEqual, ProfileHasValidOwnerShape;
    after := before;
    var result := ClassifyDuplicateGroup(group, key, owners);
    if result.Some? {
      ClassificationDecides(group, key, owners);
      RowsMembers(profiles, key, group[0]);
      var Classification(found, finding) := result.value;
      var kind := if found.isIdentical then IdenticalDuplicateGroup else ConflictingDuplicateGroup;
      var extra := Finding(kind, !found.isIdentical, finding.profileIds);
      after := AddGroup(before, found, [finding, extra]);
      assert extra in after.findings;
      GroupsGrow(before, found, [finding, extra], profiles, owners, done);
    } else {
      GroupsStay(before, profiles, owners, done, key);
    }
  }

  function AddGroup(report: AuditReport, group: Group, findings: seq<Finding>): AuditReport {
    if group.isIdentical then
      report.(findings := report.findings + findings, repairableGroups := report.repairableGroups + [group])
    else
      report.(findings := report.findings + findings, conflictingGroups := report.conflictingGroups + [group])
  }

  lemma CoverageGrows(before: AuditReport, found: Group, findings: seq<Finding>, key: OwnerKey)
    requires Covers(before, key) || found.key == key
    ensures Covers(AddGroup(before, found, findings), key)
  {
    var after := AddGroup(before, found, findings);
    assert found in after.repairableGroups || found in after.conflictingGroups;
    if g :| g in before.repairableGroups && g.key == key {
      assert g in after.repairableGroups;
    } else if g :| g in before.conflictingGroups && g.key == key {
      assert g in after.conflictingGroups;
    }
  }

  lemma FaithfulGrows(groups: seq<Group>, extra: seq<Group>, profiles: seq<Profile>, owners: Owners,
                      done: seq<OwnerKey>, key: OwnerKey, alike: bool)
    requires Faithful(groups, profiles, owners, Listed(done), alike)
    requires forall g :: g in extra ==>
               g.key == key && IsGroupOf(g, profiles) && ValidAndAlike(Rows(profiles, key), owners) == alike
    ensures Faithful(groups + extra, profiles, owners, Listed(done + [key]), alike)
  {
  }

  /** Handling one more owner with several rows adds its group. */
  lemma GroupsGrow(before: AuditReport, found: Group, findings: seq<Finding>, profiles: seq<Profile>, owners: Owners,
                   done: seq<OwnerKey>)
    requires GroupsOver(before, profiles, owners, Listed(done)) && found.key !in done
    requires IsGroupOf(found, profiles) && (found.isIdentical <==> ValidAndAlike(Rows(profiles, found.key), owners))
    ensures GroupsOver(AddGroup(before, found, findings), profiles, owners, Listed(done + [found.key]))
  {
    var after := AddGroup(before, found, findings);
    var repairable, conflicting := if found.isIdentical then [found] else [], if found.isIdentical then [] else [found];
    FaithfulGrows(before.repairableGroups, repairable, profiles, owners, done, found.key, true);
    FaithfulGrows(before.conflictingGroups, conflicting, profiles, owners, done, found.key, false);
    assert after.repairableGroups == before.repairableGroups + repairable;
    assert after.conflictingGroups == before.conflictingGroups + conflicting;
    assert Complete(after, profiles, Listed(done + [found.key])) by {
      forall k | InScope(k, Listed(done + [found.key])) && |Rows(profiles, k)| >= 2
        ensures Covers(after, k)
      {
        assert k != found.key ==> InScope(k, Listed(done));
        CoverageGrows(before, found, findings, k);
      }
    }
    forall g | g in before.repairableGroups
      ensures g.key != found.key
    {
      assert InScope(g.key, Listed(done));
    }
    assert OneGroupPerKey(after.repairableGroups);
  }

  /** An owner with fewer than two rows adds nothing. */
  lemma GroupsStay(report: AuditReport, profiles: seq<Profile>, owners: Owners, done: seq<OwnerKey>, key: OwnerKey)
    requires GroupsOver(report, profiles, owners, Listed(done)) && |Rows(profiles, key)| < 2
    ensures GroupsOver(report, profiles, owners, Listed(done + [key]))
  {
  }

  method RunOwnershipAudit(profiles: seq<Profile>, owners: Owners) returns (report: AuditReport)
    ensures IsAudit(report, profiles, owners)
  {
    var findings: seq<Finding> := [];
    for i := 0 to |profiles|
      invariant HasError(findings) <==> !AllValid(profiles[..i], owners)
    {
      var found := CheckProfile(profiles[i], owners);
      ghost var before := findings;
      findings := findings + found;
      assert profiles[..i + 1] == profiles[..i] + [profiles[i]];
      assert HasError(findings) <==> HasError(before) || found != [] by {
        if found != [] {
          assert found[0] in found;
          assert found[0] in findings && found[0].isError;
        }
      }
    }
    assert profiles[..|profiles|] == profiles;
    var roles := ClassifyGroups(profiles, true, owners);
    var people := ClassifyGroups(profiles, false, owners);
    ghost var shape := findings;
    findings := findings + roles.findings + people.findings;
    var repairableGroups := roles.repairableGroups + people.repairableGroups;
    var conflictingGroups := roles.conflictingGroups + people.conflictingGroups;
    var anyError := exists f :: f in findings && f.isError;
    report := AuditReport(findings, repairableGroups, conflictingGroups,
                          !anyError && conflictingGroups == [] && repairableGroups == []);
    GroupsJoin(report, roles, people, profiles, owners);
    assert HasError(findings) <==> HasError(shape) || HasError(roles.findings) || HasError(people.findings);
  }

  lemma GroupsJoin(report: AuditReport, roles: AuditReport, people: AuditReport, profiles: seq<Profile>, owners: Owners)
    requires GroupsOver(roles, profiles, owners, Kind(true))
    requires GroupsOver(people, profiles, owners, Kind(false))
    requires report.repairableGroups == roles.repairableGroups + people.repairableGroups
    requires report.conflictingGroups == roles.conflictingGroups + people.conflictingGroups
    ensures GroupsOver(report, profiles, owners, Everything)
  {
  }

  // ── What a report says about the store ─────────────────────────────────────

  predicate SharesOwner(p: Profile, q: Profile) {
    || (p.resourceTypeId.Some? && p.resourceTypeId == q.resourceTypeId)
    || (p.namedResourceId.Some? && p.namedResourceId == q.namedResourceId)
  }

  /** Valid rows, no two of the same owner. */
  ghost predicate CleanRows(profiles: seq<Profile>, owners: Owners) {
    AllValid(profiles, owners) && forall i, j :: 0 <= i < j < |profiles| ==> !SharesOwner(profiles[i], profiles[j])
  }

  /** Valid rows whose only trouble is that some owners have several identical ones. */
  ghost predicate RepairableRows(profiles: seq<Profile>, owners: Owners) {
    && AllValid(profiles, owners)
    && forall p, q :: p in profiles && q in profiles && SharesOwner(p, q) ==> ProfilesAreSemanticEqual(p, q)
  }

  function KeyOf(p: Profile): OwnerKey
    requires p.resourceTypeId.Some? || p.namedResourceId.Some?
  {
    if p.resourceTypeId.Some? then RoleKey(p.resourceTypeId.value) else PersonKey(p.namedResourceId.value)
  }

  /** On valid rows, sharing an owner is referencing the same key. */
  lemma ValidRowsShareByKey(p: Profile, q: Profile, owners: Owners)
    requires ValidOwners(owners) && ProfileHasValidOwnerShape(p, owners) && ProfileHasValidOwnerShape(q, owners)
    ensures SharesOwner(p, q) <==> KeyOf(p) == KeyOf(q)
    ensures References(p, KeyOf(p)) && (References(q, KeyOf(p)) <==> KeyOf(p) == KeyOf(q))
  {
  }

  /** The audit reports no error exactly on repairable rows. */
  lemma NoErrorIffRepairable(report: AuditReport, profiles: seq<Profile>, owners: Owners)
    requires ValidOwners(owners) && IsAudit(report, profiles, owners)
    ensures !HasError(report.findings) <==> RepairableRows(profiles, owners)
  {
    if !HasError(report.findings) {
      forall p, q | p in profiles && q in profiles && SharesOwner(p, q)
        ensures ProfilesAreSemanticEqual(p, q)
      {
        SharersAreAlike(report, profiles, owners, p, q);
      }
    }
    if RepairableRows(profiles, owners) && report.conflictingGroups != [] {
      var g := report.conflictingGroups[0];
      assert g in report.conflictingGroups;
      RepairableGroupAlike(profiles, owners, g.key);
    }
  }

  lemma SharersAreAlike(report: AuditReport, profiles: seq<Profile>, owners: Owners, p: Profile, q: Profile)
    requires ValidOwners(owners) && IsAudit(report, profiles, owners) && !HasError(report.findings)
    requires p in profiles && q in profiles && SharesOwner(p, q)
    ensures ProfilesAreSemanticEqual(p, q)
  {
    hide ProfilesAreSemanticEqual, OneGroupPerKey, Rows;
    if p != q {
      var key := KeyOf(p);
      ValidRowsShareByKey(p, q, owners);
      RowsMembers(profiles, key, p);
      RowsMembers(profiles, key, q);
      var rows := Rows(profiles, key);
      assert |rows| >= 2 by {
        var i :| 0 <= i < |rows| && rows[i] == p;
        var j :| 0 <= j < |rows| && rows[j] == q;
        assert i != j;
      }
      var g :| g in report.repairableGroups && g.key == key;
      assert ValidAndAlike(rows, owners);
    } else {
      SemanticEqualityIsAnEquivalence(p, p, p);
    }
  }

  lemma RepairableGroupAlike(profiles: seq<Profile>, owners: Owners, key: OwnerKey)
    requires RepairableRows(profiles, owners) && key.id != ""
    ensures ValidAndAlike(Rows(profiles, key), owners)
  {
    var rows := Rows(profiles, key);
    forall p | p in rows
      ensures p in profiles && References(p, key)
    {
      RowsMembers(profiles, key, p);
    }
    forall p, q | p in rows && q in rows
      ensures ProfilesAreSemanticEqual(p, q)
    {
      assert SharesOwner(p, q);
    }
  }

  /** The audit is clean exactly when every row is valid and no owner has two. */
  lemma CleanIffOneRowEach(report: AuditReport, profiles: seq<Profile>, owners: Owners)
    requires ValidOwners(owners) && IsAudit(report, profiles, owners)
    ensures report.isClean <==> CleanRows(profiles, owners)
  {
    if report.isClean {
      forall i, j | 0 <= i < j < |profiles|
        ensures !SharesOwner(profiles[i], profiles[j])
      {
        if SharesOwner(profiles[i], profiles[j]) {
          ValidRowsShareByKey(profiles[i], profiles[j], owners);
          TwoRows(profiles, KeyOf(profiles[i]), i, j);
        }
      }
    }
    if CleanRows(profiles, owners) {
      forall key: OwnerKey
        ensures |Rows(profiles, key)| < 2
      {
        AtMostOneRow(profiles, owners, key);
      }
      assert report.repairableGroups == [] by {
        if report.repairableGroups != [] {
          GroupHasTwo(report.repairableGroups[0], profiles);
        }
      }
      assert report.conflictingGroups == [] by {
        if report.conflictingGroups != [] {
          GroupHasTwo(report.conflictingGroups[0], profiles);
        }
      }
    }
  }

  lemma GroupHasTwo(g: Group, profiles: seq<Profile>)
    requires IsGroupOf(g, profiles)
    ensures |Rows(profiles, g.key)| >= 2
  {
  }

  lemma {:induction false} TwoRows(profiles: seq<Profile>, key: OwnerKey, i: nat, j: nat)
    requires i < j < |profiles| && References(profiles[i], key) && References(profiles[j], key)
    ensures |Rows(profiles, key)| >= 2
  {
    var last := |profiles| - 1;
    if j < last {
      TwoRows(profiles[..last], key, i, j);
    } else {
      assert profiles[i] in profiles[..last];
      RowsMembers(profiles[..last], key, profiles[i]);
    }
  }

  lemma {:induction false} AtMostOneRow(profiles: seq<Profile>, owners: Owners, key: OwnerKey)
    requires CleanRows(profiles, owners)
    ensures |Rows(profiles, key)| < 2
  {
    if profiles == [] {
    } else {
      var last := |profiles| - 1;
      AtMostOneRow(profiles[..last], owners, key);
      if References(profiles[last], key) {
        forall i | 0 <= i < last
          ensures !References(profiles[..last][i], key)
        {
          assert !SharesOwner(profiles[i], profiles[last]);
        }
        NoRows(profiles[..last], key);
      }
    }
  }

  lemma {:induction false} NoRows(profiles: seq<Profile>, key: OwnerKey)
    requires forall i :: 0 <= i < |profiles| ==> !References(profiles[i], key)
    ensures Rows(profiles, key) == []
  {
    if profiles == [] {
    } else {
      NoRows(profiles[..|profiles| - 1], key);
    }
  }
}
