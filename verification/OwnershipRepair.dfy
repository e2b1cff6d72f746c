/**
 * Repair of identical duplicate profiles, as one all-or-nothing transition on the profile
 * table: re-read, verify every audited group, delete the redundant rows, audit again.
 */
module OwnershipRepair {
  import opened Common
  import opened OwnershipAudit

  /** The profile rows by id. Deleting a row deletes its segments with it. */
  type Table = map<Text, Profile>

  predicate KeyedById(rows: Table) {
    forall id :: id in rows ==> rows[id].id == id
  }

  predicate Stored(p: Profile, rows: Table) {
    p.id in rows && rows[p.id] == p
  }

  function BuildOwnerKey(p: Profile): Option<OwnerKey> {
    if p.resourceTypeId.Some? then Some(RoleKey(p.resourceTypeId.value))
    else if p.namedResourceId.Some? then Some(PersonKey(p.namedResourceId.value))
    else None
  }

  predicate DistinctIds(profiles: seq<Profile>) {
    forall i, j :: 0 <= i < j < |profiles| ==> profiles[i].id != profiles[j].id
  }

  /** All rows, each once, in whatever order the query returns them. */
  ghost predicate IsListing(profiles: seq<Profile>, rows: Table) {
    DistinctIds(profiles) && forall p :: p in profiles <==> Stored(p, rows)
  }

  // ── What the store looks like ──────────────────────────────────────────────

  ghost predicate AllRowsValid(rows: Table, owners: Owners) {
    forall id :: id in rows ==> ProfileHasValidOwnerShape(rows[id], owners)
  }

  /** Valid rows, one per owner. */
  ghost predicate CleanStore(rows: Table, owners: Owners) {
    && AllRowsValid(rows, owners)
    && forall i, j :: i in rows && j in rows && i != j ==> !SharesOwner(rows[i], rows[j])
  }

  /** Valid rows, all rows of one owner the same authoritative state. */
  ghost predicate RepairableStore(rows: Table, owners: Owners) {
    && AllRowsValid(rows, owners)
    && forall i, j :: i in rows && j in rows && SharesOwner(rows[i], rows[j]) ==> ProfilesAreSemanticEqual(rows[i], rows[j])
  }

  lemma ListingAgrees(profiles: seq<Profile>, rows: Table, owners: Owners)
    requires KeyedById(rows) && IsListing(profiles, rows)
    ensures CleanRows(profiles, owners) <==> CleanStore(rows, owners)
    ensures RepairableRows(profiles, owners) <==> RepairableStore(rows, owners)
  {
    hide ProfilesAreSemanticEqual, ProfileHasValidOwnerShape;
    assert forall id :: id in rows ==> Stored(rows[id], rows) && rows[id] in profiles;
    assert forall k :: 0 <= k < |profiles| ==> Stored(profiles[k], rows);
    if CleanRows(profiles, owners) {
      forall i, j | i in rows && j in rows && i != j
        ensures !SharesOwner(rows[i], rows[j])
      {
        var a :| 0 <= a < |profiles| && profiles[a] == rows[i];
        var b :| 0 <= b < |profiles| && profiles[b] == rows[j];
        assert a < b || b < a;
      }
    }
    if CleanStore(rows, owners) {
      forall a, b | 0 <= a < b < |profiles|
        ensures !SharesOwner(profiles[a], profiles[b])
      {
        assert profiles[a].id != profiles[b].id;
      }
    }
  }

  ghost predicate IsReportOf(report: AuditReport, rows: Table, owners: Owners) {
    exists profiles :: IsListing(profiles, rows) && IsAudit(report, profiles, owners)
  }

  // ── Survivors ──────────────────────────────────────────────────────────────

  /** The earliest row of its owner. */
  ghost predicate IsSurvivor(rows: Table, p: Profile) {
    Stored(p, rows) && forall q :: Stored(q, rows) && BuildOwnerKey(q) == BuildOwnerKey(p) ==> Earlier(p, q)
  }

  ghost function Survivors(rows: Table): Table {
    map id | id in rows && IsSurvivor(rows, rows[id]) :: rows[id]
  }

  /** The table once the redundant rows of some owners are gone. */
  ghost function KeptAfter(rows: Table, handled: set<Option<OwnerKey>>): Table {
    map id | id in rows && (BuildOwnerKey(rows[id]) in handled ==> IsSurvivor(rows, rows[id])) :: rows[id]
  }

  function WithKey(profiles: seq<Profile>, key: Option<OwnerKey>): seq<Profile> {
    if profiles == [] then []
    else
      WithKey(profiles[..|profiles| - 1], key)
      + if BuildOwnerKey(profiles[|profiles| - 1]) == key then [profiles[|profiles| - 1]] else []
  }

  lemma {:induction false} WithKeyIs(profiles: seq<Profile>, key: Option<OwnerKey>)
    ensures forall p :: p in WithKey(profiles, key) <==> p in profiles && BuildOwnerKey(p) == key
    ensures DistinctIds(profiles) ==> DistinctIds(WithKey(profiles, key))
  {
    if profiles == [] {
    } else {
      var last := |profiles| - 1;
      WithKeyIs(profiles[..last], key);
      assert profiles == profiles[..last] + [profiles[last]];
      if DistinctIds(profiles) {
        forall k | 0 <= k < |WithKey(profiles[..last], key)|
          ensures WithKey(profiles[..last], key)[k].id != profiles[last].id
        {
          assert WithKey(profiles[..last], key)[k] in profiles[..last];
        }
      }
    }
  }

  lemma SurvivorExists(profiles: seq<Profile>, rows: Table, key: Option<OwnerKey>)
    requires KeyedById(rows) && IsListing(profiles, rows) && WithKey(profiles, key) != []
    ensures var s := SelectSurvivor(WithKey(profiles, key));
            && BuildOwnerKey(s) == key && IsSurvivor(rows, s)
            && forall p :: IsSurvivor(rows, p) && BuildOwnerKey(p) == key ==> p == s
  {
    var current := WithKey(profiles, key);
    WithKeyIs(profiles, key);
    SurvivorIsEarliest(current);
    SurvivalOrder();
    var s := SelectSurvivor(current);
    forall p | IsSurvivor(rows, p) && BuildOwnerKey(p) == key
      ensures p == s
    {
      assert Earlier(p, s) && p in current && Earlier(s, p);
    }
  }

  /** In a repairable store every row is represented by exactly one survivor of its owner, in the same state. */
  lemma EachOwnerKeepsItsEarliest(rows: Table, owners: Owners, profiles: seq<Profile>, p: Profile)
    requires KeyedById(rows) && ValidOwners(owners) && IsListing(profiles, rows)
    requires RepairableStore(rows, owners) && Stored(p, rows)
    ensures exists s :: Stored(s, Survivors(rows)) && SharesOwner(s, p) && ProfilesAreSemanticEqual(s, p) && Earlier(s, p)
    ensures forall s, t :: Stored(s, Survivors(rows)) && Stored(t, Survivors(rows)) && SharesOwner(s, p) && SharesOwner(t, p)
                           ==> s == t
  {
    var key := BuildOwnerKey(p);
    WithKeyIs(profiles, key);
    assert p in WithKey(profiles, key);
    SurvivorExists(profiles, rows, key);
    var s := SelectSurvivor(WithKey(profiles, key));
    assert Stored(s, Survivors(rows)) && SharesOwner(s, p);
    assert ProfilesAreSemanticEqual(rows[s.id], rows[p.id]);
    forall t | Stored(t, Survivors(rows)) && SharesOwner(t, p)
      ensures t == s
    {
      assert ProfileHasValidOwnerShape(rows[t.id], owners) && ProfileHasValidOwnerShape(rows[p.id], owners);
      ValidRowsShareByKey(t, p, owners);
    }
  }

  // ── Is an audited group still what it was? ─────────────────────────────────

  ghost function CurrentIds(rows: Table, key: Option<OwnerKey>): set<Text> {
    set id | id in rows && BuildOwnerKey(rows[id]) == key
  }

  /** Same number of rows, only audited ids, all still equal to the audited reference. */
  ghost predicate GroupCurrent(group: Group, rows: Table)
    requires group.profiles != []
  {
    var current := CurrentIds(rows, BuildOwnerKey(group.profiles[0]));
    && |current| == |group.profiles|
    && forall id :: id in current ==> id in Ids(group.profiles) && ProfilesAreSemanticEqual(rows[id], group.profiles[0])
  }

  ghost function IdSet(profiles: seq<Profile>): set<Text> {
    set p | p in profiles :: p.id
  }

  lemma IdSetAppend(profiles: seq<Profile>, p: Profile)
    ensures IdSet(profiles + [p]) == IdSet(profiles) + {p.id}
    ensures DistinctIds(profiles + [p]) ==> p.id !in IdSet(profiles)
  {
    if DistinctIds(profiles + [p]) {
      forall k | 0 <= k < |profiles|
        ensures profiles[k].id != p.id
      {
        assert (profiles + [p])[k] == profiles[k] && (profiles + [p])[|profiles|] == p;
      }
    }
  }

  lemma DistinctPrefix(profiles: seq<Profile>, i: nat)
    requires DistinctIds(profiles) && i < |profiles|
    ensures profiles[i].id !in IdSet(profiles[..i])
  {
  }

  lemma {:induction false} DistinctCount(profiles: seq<Profile>)
    requires DistinctIds(profiles)
    ensures |IdSet(profiles)| == |profiles|
  {
    if profiles == [] {
    } else {
      var last := |profiles| - 1;
      DistinctCount(profiles[..last]);
      assert profiles == profiles[..last] + [profiles[last]];
      IdSetAppend(profiles[..last], profiles[last]);
    }
  }

  lemma CurrentCount(profiles: seq<Profile>, rows: Table, key: Option<OwnerKey>)
    requires KeyedById(rows) && IsListing(profiles, rows)
    ensures |WithKey(profiles, key)| == |CurrentIds(rows, key)|
    ensures forall p :: p in WithKey(profiles, key) <==> Stored(p, rows) && BuildOwnerKey(p) == key
  {
    WithKeyIs(profiles, key);
    DistinctCount(WithKey(profiles, key));
    forall id | id in CurrentIds(rows, key)
      ensures exists p :: p in WithKey(profiles, key) && p.id == id
    {
      assert Stored(rows[id], rows);
    }
    assert IdSet(WithKey(profiles, key)) == CurrentIds(rows, key);
  }

  method VerifyGroup(group: Group, freshProfiles: seq<Profile>, ghost before: Table)
    returns (ok: bool, currentGroup: seq<Profile>)
    requires KeyedById(before) && IsListing(freshProfiles, before) && |group.profiles| >= 2
    ensures ok <==> GroupCurrent(group, before)
    ensures ok ==> currentGroup == WithKey(freshProfiles, BuildOwnerKey(group.profiles[0])) && |currentGroup| >= 2
  {
    var reference := group.profiles[0];
    var ownerKey := BuildOwnerKey(reference);
    CurrentCount(freshProfiles, before, ownerKey);
    currentGroup := WithKey(freshProfiles, ownerKey);
    if |currentGroup| != |group.profiles| {
      return false, currentGroup;
    }
    for i := 0 to |currentGroup|
      invariant forall j :: 0 <= j < i ==> Matches(currentGroup[j], group)
    {
      if currentGroup[i].id !in Ids(group.profiles) || !ProfilesAreSemanticEqual(currentGroup[i], reference) {
        assert currentGroup[i] in currentGroup && !Matches(currentGroup[i], group);
        assert currentGroup[i].id in CurrentIds(before, ownerKey);
        return false, currentGroup;
      }
    }
    forall id | id in CurrentIds(before, ownerKey)
      ensures Matches(before[id], group)
    {
      assert Stored(before[id], before) && before[id] in currentGroup;
    }
    return true, currentGroup;
  }

  predicate Matches(p: Profile, group: Group)
    requires group.profiles != []
  {
    p.id in Ids(group.profiles) && ProfilesAreSemanticEqual(p, group.profiles[0])
  }

  function Others(profiles: seq<Profile>, id: Text): seq<Profile> {
    if profiles == [] then []
    else
      Others(profiles[..|profiles| - 1], id)
      + if profiles[|profiles| - 1].id != id then [profiles[|profiles| - 1]] else []
  }

  lemma {:induction false} OthersIs(profiles: seq<Profile>, id: Text)
    ensures forall p :: p in Others(profiles, id) <==> p in profiles && p.id != id
    ensures DistinctIds(profiles) ==> DistinctIds(Others(profiles, id))
  {
    if profiles == [] {
    } else {
      var last := |profiles| - 1;
      OthersIs(profiles[..last], id);
      assert profiles == profiles[..last] + [profiles[last]];
      if DistinctIds(profiles) {
        forall k | 0 <= k < |Others(profiles[..last], id)|
          ensures Others(profiles[..last], id)[k].id != profiles[last].id
        {
          assert Others(profiles[..last], id)[k] in profiles[..last];
        }
      }
    }
  }

  // ── What the loop over groups achieves ─────────────────────────────────────

  /** The owners of the groups that held several rows. */
  function KeysOf(groups: seq<Group>): set<Option<OwnerKey>> {
    if groups == [] then {}
    else
      KeysOf(groups[..|groups| - 1])
      + if |groups[|groups| - 1].profiles| >= 2 then {BuildOwnerKey(groups[|groups| - 1].profiles[0])} else {}
  }

  ghost predicate AllCurrent(groups: seq<Group>, rows: Table) {
    forall g :: g in groups && |g.profiles| >= 2 ==> GroupCurrent(g, rows)
  }

  /** Rows of handled owners are pairwise the same state. */
  ghost predicate HandledAlike(rows: Table, handled: set<Option<OwnerKey>>) {
    forall p, q :: Stored(p, rows) && Stored(q, rows) && BuildOwnerKey(p) == BuildOwnerKey(q) && BuildOwnerKey(p) in handled
                   ==> ProfilesAreSemanticEqual(p, q)
  }

  /** Where the loop stands after some groups. */
  ghost predicate Progress(before: Table, rows: Table, groups: seq<Group>, deleted: nat) {
    && rows == KeptAfter(before, KeysOf(groups)) && |rows| + deleted == |before|
    && HandledAlike(before, KeysOf(groups)) && AllCurrent(groups, before)
  }

  lemma ProgressStart(before: Table)
    ensures Progress(before, before, [], 0)
  {
    assert KeptAfter(before, {}) == before;
  }

  lemma ProgressStep(before: Table, rows: Table, next: Table, groups: seq<Group>, group: Group, deleted: nat, more: nat)
    requires KeyedById(before) && Progress(before, rows, groups, deleted)
    requires if |group.profiles| < 2 then next == rows && more == 0
             else GroupCurrent(group, before) && |next| + more == |rows|
                  && next == KeptAfter(before, KeysOf(groups) + {BuildOwnerKey(group.profiles[0])})
    ensures Progress(before, next, groups + [group], deleted + more)
  {
    assert (groups + [group])[..|groups|] == groups;
    if |group.profiles| >= 2 {
      CurrentGroupAlike(group, before, KeysOf(groups));
    }
  }

  lemma CurrentGroupAlike(group: Group, rows: Table, handled: set<Option<OwnerKey>>)
    requires KeyedById(rows) && group.profiles != [] && GroupCurrent(group, rows) && HandledAlike(rows, handled)
    ensures HandledAlike(rows, handled + {BuildOwnerKey(group.profiles[0])})
  {
    var key := BuildOwnerKey(group.profiles[0]);
    forall p, q | Stored(p, rows) && Stored(q, rows) && BuildOwnerKey(p) == key == BuildOwnerKey(q)
      ensures ProfilesAreSemanticEqual(p, q)
    {
      assert p.id in CurrentIds(rows, key) && q.id in CurrentIds(rows, key);
      SemanticEqualityIsAnEquivalence(p, group.profiles[0], q);
    }
  }

  /** A clean table after the deletions is the table of survivors of a repairable one. */
  lemma CleanMeansRepaired(before: Table, profiles: seq<Profile>, owners: Owners, handled: set<Option<OwnerKey>>)
    requires KeyedById(before) && ValidOwners(owners) && IsListing(profiles, before)
    requires HandledAlike(before, handled) && CleanStore(KeptAfter(before, handled), owners)
    ensures KeptAfter(before, handled) == Survivors(before)
    ensures RepairableStore(before, owners)
  {
    hide ProfilesAreSemanticEqual, ProfileHasValidOwnerShape, IsSurvivor;
    var after := KeptAfter(before, handled);
    forall id | id in before
      ensures ProfileHasValidOwnerShape(before[id], owners)
      ensures id in after && BuildOwnerKey(before[id]) !in handled ==> IsSurvivor(before, before[id])
    {
      RowStaysValid(before, profiles, owners, handled, before[id]);
    }
    forall i, j | i in before && j in before && SharesOwner(before[i], before[j])
      ensures ProfilesAreSemanticEqual(before[i], before[j])
    {
      assert Stored(before[i], before) && Stored(before[j], before);
      ValidRowsShareByKey(before[i], before[j], owners);
      if BuildOwnerKey(before[i]) !in handled {
        assert i in after && j in after;
        SemanticEqualityIsAnEquivalence(before[i], before[i], before[i]);
      }
    }
  }

  lemma RowStaysValid(before: Table, profiles: seq<Profile>, owners: Owners, handled: set<Option<OwnerKey>>, p: Profile)
    requires KeyedById(before) && ValidOwners(owners) && IsListing(profiles, before) && Stored(p, before)
    requires HandledAlike(before, handled) && CleanStore(KeptAfter(before, handled), owners)
    ensures ProfileHasValidOwnerShape(p, owners)
    ensures BuildOwnerKey(p) !in handled ==> IsSurvivor(before, p)
  {
    if BuildOwnerKey(p) in handled {
      HandledRowValid(before, profiles, owners, handled, p);
    } else {
      UnhandledRowAlone(before, owners, handled, p);
    }
  }

  /** A handled row is in the state of its survivor, which is valid. */
  lemma HandledRowValid(before: Table, profiles: seq<Profile>, owners: Owners, handled: set<Option<OwnerKey>>, p: Profile)
    requires KeyedById(before) && IsListing(profiles, before) && Stored(p, before) && BuildOwnerKey(p) in handled
    requires HandledAlike(before, handled) && CleanStore(KeptAfter(before, handled), owners)
    ensures ProfileHasValidOwnerShape(p, owners)
  {
    hide Earlier, SharesOwner, WithKey, ProfileHasValidOwnerShape, ProfilesAreSemanticEqual;
    var after := KeptAfter(before, handled);
    var key := BuildOwnerKey(p);
    WithKeyIs(profiles, key);
    assert p in WithKey(profiles, key);
    SurvivorExists(profiles, before, key);
    var s := SelectSurvivor(WithKey(profiles, key));
    assert s.id in after && ProfileHasValidOwnerShape(after[s.id], owners);
    assert ProfilesAreSemanticEqual(s, p);
    AlikeShareValidity(s, p, owners);
  }

  lemma AlikeShareValidity(a: Profile, b: Profile, owners: Owners)
    requires ProfilesAreSemanticEqual(a, b)
    ensures ProfileHasValidOwnerShape(a, owners) <==> ProfileHasValidOwnerShape(b, owners)
  {
  }

  /** A row of an owner that was not handled is the only one of its owner. */
  lemma UnhandledRowAlone(before: Table, owners: Owners, handled: set<Option<OwnerKey>>, p: Profile)
    requires KeyedById(before) && Stored(p, before) && BuildOwnerKey(p) !in handled
    requires CleanStore(KeptAfter(before, handled), owners)
    ensures ProfileHasValidOwnerShape(p, owners) && IsSurvivor(before, p)
  {
    hide Earlier, ProfilesAreSemanticEqual;
    var after := KeptAfter(before, handled);
    assert p.id in after && ProfileHasValidOwnerShape(after[p.id], owners);
    SurvivalOrder();
    forall q | Stored(q, before) && BuildOwnerKey(q) == BuildOwnerKey(p)
      ensures Earlier(p, q)
    {
      assert q.id in after && ProfileHasValidOwnerShape(after[q.id], owners);
      assert SharesOwner(after[p.id], after[q.id]);
    }
  }

  /** After an up-to-date report on a repairable store, the deletions leave a clean one. */
  lemma RepairableGetsClean(report: AuditReport, before: Table, profiles: seq<Profile>, owners: Owners)
    requires KeyedById(before) && ValidOwners(owners) && IsListing(profiles, before)
    requires IsReportOf(report, before, owners) && RepairableStore(before, owners)
    ensures CleanStore(KeptAfter(before, KeysOf(report.repairableGroups)), owners)
  {
    var handled := KeysOf(report.repairableGroups);
    var after := KeptAfter(before, handled);
    forall i, j | i in after && j in after && i != j
      ensures !SharesOwner(after[i], after[j])
    {
      var p, q := before[i], before[j];
      ValidRowsShareByKey(p, q, owners);
      if SharesOwner(p, q) {
        SharedOwnerIsHandled(report, before, owners, p, q);
        NotBothSurvive(before, p, q);
      }
    }
  }

  lemma FinalAuditDecides(report: AuditReport, before: Table, profiles: seq<Profile>, owners: Owners)
    requires KeyedById(before) && ValidOwners(owners) && IsListing(profiles, before)
    requires HandledAlike(before, KeysOf(report.repairableGroups))
    ensures var after := KeptAfter(before, KeysOf(report.repairableGroups));
            && (CleanStore(after, owners) ==> after == Survivors(before) && RepairableStore(before, owners))
            && (IsReportOf(report, before, owners) && RepairableStore(before, owners) ==> CleanStore(after, owners))
  {
    if CleanStore(KeptAfter(before, KeysOf(report.repairableGroups)), owners) {
      CleanMeansRepaired(before, profiles, owners, KeysOf(report.repairableGroups));
    } else if IsReportOf(report, before, owners) && RepairableStore(before, owners) {
      RepairableGetsClean(report, before, profiles, owners);
    }
  }

  lemma NotBothSurvive(rows: Table, p: Profile, q: Profile)
    requires Stored(p, rows) && Stored(q, rows) && BuildOwnerKey(p) == BuildOwnerKey(q) && p.id != q.id
    ensures !(IsSurvivor(rows, p) && IsSurvivor(rows, q))
  {
    SurvivalOrder();
  }

  lemma SharedOwnerIsHandled(report: AuditReport, rows: Table, owners: Owners, p: Profile, q: Profile)
    requires KeyedById(rows) && ValidOwners(owners) && IsReportOf(report, rows, owners) && RepairableStore(rows, owners)
    requires Stored(p, rows) && Stored(q, rows) && p.id != q.id && SharesOwner(p, q)
    ensures BuildOwnerKey(p) in KeysOf(report.repairableGroups)
  {
    var profiles :| IsListing(profiles, rows) && IsAudit(report, profiles, owners);
    assert ProfileHasValidOwnerShape(rows[p.id], owners) && ProfileHasValidOwnerShape(rows[q.id], owners);
    ValidRowsShareByKey(p, q, owners);
    var key := KeyOf(p);
    var i :| 0 <= i < |profiles| && profiles[i] == p;
    var j :| 0 <= j < |profiles| && profiles[j] == q;
    TwoRows(profiles, key, if i < j then i else j, if i < j then j else i);
    ListingAgrees(profiles, rows, owners);
    RepairableGroupAlike(profiles, owners, key);
    assert InScope(key, Everything) && Covers(report, key);
    assert !HasGroup(report.conflictingGroups, key);
    var g :| g in report.repairableGroups && g.key == key;
    FreshGroupCurrent(report, rows, profiles, owners, g);
    KeysOfMember(report.repairableGroups, g);
  }

  lemma {:induction false} KeysOfMember(groups: seq<Group>, g: Group)
    requires g in groups && |g.profiles| >= 2
    ensures BuildOwnerKey(g.profiles[0]) in KeysOf(groups)
  {
    if g in groups[..|groups| - 1] {
      KeysOfMember(groups[..|groups| - 1], g);
    }
  }

  /** A repairable group of an up-to-date report passes every re-check. */
  lemma FreshGroupCurrent(report: AuditReport, rows: Table, profiles: seq<Profile>, owners: Owners, g: Group)
    requires KeyedById(rows) && ValidOwners(owners) && IsListing(profiles, rows) && IsAudit(report, profiles, owners)
    requires g in report.repairableGroups
    ensures |g.profiles| >= 2 && BuildOwnerKey(g.profiles[0]) == Some(g.key) && GroupCurrent(g, rows)
  {
    assert InScope(g.key, Everything) && IsGroupOf(g, profiles) && ValidAndAlike(Rows(profiles, g.key), owners);
    forall p
      ensures p in g.profiles <==> Stored(p, rows) && References(p, g.key)
    {
      RowsMembers(profiles, g.key, p);
      assert p in g.profiles <==> p in multiset(g.profiles);
      assert p in Rows(profiles, g.key) <==> p in multiset(Rows(profiles, g.key));
    }
    FreshGroupKeys(profiles, rows, owners, g);
    GroupSize(profiles, rows, g);
    forall id | id in CurrentIds(rows, Some(g.key))
      ensures Matches(rows[id], g)
    {
      var k :| 0 <= k < |g.profiles| && g.profiles[k] == rows[id];
      assert Ids(g.profiles)[k] == id;
      assert rows[id] in Rows(profiles, g.key) && g.profiles[0] in Rows(profiles, g.key) by {
        assert rows[id] in g.profiles && g.profiles[0] in g.profiles;
        RowsMembers(profiles, g.key, rows[id]);
        RowsMembers(profiles, g.key, g.profiles[0]);
      }
    }
  }

  lemma FreshGroupKeys(profiles: seq<Profile>, rows: Table, owners: Owners, g: Group)
    requires KeyedById(rows) && ValidOwners(owners) && IsListing(profiles, rows) && g.profiles != []
    requires IsGroupOf(g, profiles) && ValidAndAlike(Rows(profiles, g.key), owners)
    requires forall p :: p in g.profiles <==> Stored(p, rows) && References(p, g.key)
    ensures forall p :: p in g.profiles <==> Stored(p, rows) && BuildOwnerKey(p) == Some(g.key)
    ensures BuildOwnerKey(g.profiles[0]) == Some(g.key)
  {
    forall p
      ensures p in g.profiles <==> Stored(p, rows) && BuildOwnerKey(p) == Some(g.key)
    {
      if p in g.profiles {
        RowsMembers(profiles, g.key, p);
        assert ProfileHasValidOwnerShape(p, owners);
      }
    }
    assert g.profiles[0] in g.profiles;
  }

  lemma GroupSize(profiles: seq<Profile>, rows: Table, g: Group)
    requires KeyedById(rows) && IsListing(profiles, rows) && IsGroupOf(g, profiles)
    requires forall p :: p in g.profiles <==> Stored(p, rows) && BuildOwnerKey(p) == Some(g.key)
    ensures |CurrentIds(rows, Some(g.key))| == |g.profiles|
  {
    var group := Rows(profiles, g.key);
    assert |multiset(g.profiles)| == |g.profiles| && |multiset(group)| == |group|;
    RowsDistinct(profiles, g.key);
    DistinctCount(group);
    forall id
      ensures id in CurrentIds(rows, Some(g.key)) <==> exists p :: p in group && p.id == id
    {
      if id in CurrentIds(rows, Some(g.key)) {
        assert Stored(rows[id], rows) && rows[id] in g.profiles && rows[id] in multiset(g.profiles);
        assert rows[id] in group;
      }
      if p :| p in group && p.id == id {
        assert p in multiset(group) && p in g.profiles;
      }
    }
    assert IdSet(group) == CurrentIds(rows, Some(g.key));
  }

  lemma {:induction false} RowsDistinct(profiles: seq<Profile>, key: OwnerKey)
    requires DistinctIds(profiles)
    ensures DistinctIds(Rows(profiles, key))
  {
    if profiles == [] {
    } else {
      var last := |profiles| - 1;
      RowsDistinct(profiles[..last], key);
      forall k | 0 <= k < |Rows(profiles[..last], key)|
        ensures Rows(profiles[..last], key)[k].id != profiles[last].id
      {
        RowsMembers(profiles[..last], key, Rows(profiles[..last], key)[k]);
      }
    }
  }

  /** In an up-to-date report no two repairable groups concern the same owner. */
  lemma FreshKeysDistinct(report: AuditReport, rows: Table, owners: Owners, i: nat)
    requires KeyedById(rows) && ValidOwners(owners) && IsReportOf(report, rows, owners) && i < |report.repairableGroups|
    ensures var g := report.repairableGroups[i];
            |g.profiles| >= 2 && GroupCurrent(g, rows) && BuildOwnerKey(g.profiles[0]) !in KeysOf(report.repairableGroups[..i])
  {
    var profiles :| IsListing(profiles, rows) && IsAudit(report, profiles, owners);
    var groups := report.repairableGroups;
    FreshGroupCurrent(report, rows, profiles, owners, groups[i]);
    forall g | g in groups[..i]
      ensures |g.profiles| >= 2 && BuildOwnerKey(g.profiles[0]) != Some(groups[i].key)
    {
      FreshGroupCurrent(report, rows, profiles, owners, g);
    }
    KeyNotAmong(groups[..i], Some(groups[i].key));
  }

  lemma {:induction false} KeyNotAmong(groups: seq<Group>, key: Option<OwnerKey>)
    requires forall g :: g in groups ==> |g.profiles| >= 2 && BuildOwnerKey(g.profiles[0]) != key
    ensures key !in KeysOf(groups)
  {
    if groups == [] {
    } else {
      KeyNotAmong(groups[..|groups| - 1], key);
    }
  }

  ghost predicate DeletedSoFar(before: Table, rows: Table, gone: set<Text>, deleted: nat) {
    gone <= before.Keys && rows == before - gone && |rows| + deleted == |before|
  }

  lemma DeleteNone(rows: Table)
    ensures DeletedSoFar(rows, rows, IdSet([]), 0)
  {
    assert rows - IdSet([]) == rows;
  }

  lemma DeletedWithin(before: Table, rows: Table, gone: set<Text>, deleted: nat)
    requires DeletedSoFar(before, rows, gone, deleted)
    ensures gone <= before.Keys
  {
  }

  /** A row that is not there now was not there at the start either. */
  lemma MissingRow(before: Table, rows: Table, redundant: seq<Profile>, i: nat, deleted: nat)
    requires DistinctIds(redundant) && i < |redundant| && redundant[i].id !in rows
    requires DeletedSoFar(before, rows, IdSet(redundant[..i]), deleted)
    ensures !(IdSet(redundant) <= before.Keys)
  {
    DistinctPrefix(redundant, i);
    assert redundant[i] in redundant;
    assert redundant[i].id in IdSet(redundant) && redundant[i].id !in before;
  }

  lemma DeleteOne(before: Table, rows: Table, gone: set<Text>, deleted: nat, id: Text)
    requires DeletedSoFar(before, rows, gone, deleted) && id in rows
    ensures DeletedSoFar(before, rows - {id}, gone + {id}, deleted + 1)
  {
    assert (rows - {id}).Keys == rows.Keys - {id};
    assert before - (gone + {id}) == rows - {id};
  }

  /** On a clean store a second audit finds nothing to repair, and there is nothing redundant. */
  lemma SecondRunDoesNothing(report: AuditReport, rows: Table, owners: Owners)
    requires KeyedById(rows) && ValidOwners(owners) && CleanStore(rows, owners) && IsReportOf(report, rows, owners)
    ensures report.isClean && report.repairableGroups == [] && Survivors(rows) == rows
  {
    hide Earlier, IsAudit, ProfileHasValidOwnerShape, SharesOwner, IsSurvivor;
    var profiles :| IsListing(profiles, rows) && IsAudit(report, profiles, owners);
    ListingAgrees(profiles, rows, owners);
    CleanAuditFindsNothing(report, profiles, owners);
    forall id | id in rows
      ensures IsSurvivor(rows, rows[id])
    {
      CleanRowSurvives(rows, owners, id);
    }
  }

  lemma CleanAuditFindsNothing(report: AuditReport, profiles: seq<Profile>, owners: Owners)
    requires ValidOwners(owners) && IsAudit(report, profiles, owners) && CleanRows(profiles, owners)
    ensures report.isClean && report.repairableGroups == []
  {
    hide CleanRows, GroupsOver;
    CleanIffOneRowEach(report, profiles, owners);
  }

  lemma CleanRowSurvives(rows: Table, owners: Owners, id: Text)
    requires KeyedById(rows) && CleanStore(rows, owners) && id in rows
    ensures IsSurvivor(rows, rows[id])
  {
    hide Earlier;
    SurvivalOrder();
    forall q | Stored(q, rows) && BuildOwnerKey(q) == BuildOwnerKey(rows[id])
      ensures Earlier(rows[id], q)
    {
      assert ProfileHasValidOwnerShape(rows[id], owners) && SharesOwner(rows[id], rows[q.id]);
    }
  }

  // ── The store and its repair ───────────────────────────────────────────────

  datatype RepairResult = Repaired(profilesDeleted: nat) | Aborted

  class ProfileTable {
    var rows: Table
    const owners: Owners

    ghost predicate Valid()
      reads this
    {
      KeyedById(rows) && ValidOwners(owners)
    }

    constructor (rows: Table, owners: Owners)
      requires KeyedById(rows) && ValidOwners(owners)
      ensures Valid() && this.rows == rows && this.owners == owners
    {
      this.rows, this.owners := rows, owners;
    }

    method LoadAllProfiles() returns (profiles: seq<Profile>)
      requires Valid()
      ensures IsListing(profiles, rows)
    {
      profiles := [];
      var pending := rows.Keys;
      while pending != {}
        invariant pending <= rows.Keys
        invariant DistinctIds(profiles)
        invariant forall p :: p in profiles <==> Stored(p, rows) && p.id !in pending
        decreases |pending|
      {
        var id :| id in pending;
        assert forall k :: 0 <= k < |profiles| ==> profiles[k] in profiles && profiles[k].id != id;
        profiles := profiles + [rows[id]];
        pending := pending - {id};
      }
    }

    method Audit() returns (report: AuditReport)
      requires Valid()
      ensures IsReportOf(report, rows, owners)
      ensures report.isClean <==> CleanStore(rows, owners)
      ensures !HasError(report.findings) <==> RepairableStore(rows, owners)
      ensures CleanStore(rows, owners) ==> report.repairableGroups == []
    {
      var profiles := LoadAllProfiles();
      report := RunOwnershipAudit(profiles, owners);
      CleanIffOneRowEach(report, profiles, owners);
      NoErrorIffRepairable(report, profiles, owners);
      ListingAgrees(profiles, rows, owners);
    }

    method DeleteRows(redundant: seq<Profile>) returns (ok: bool, deleted: nat)
      requires Valid() && DistinctIds(redundant)
      modifies this`rows
      ensures ok <==> IdSet(redundant) <= old(rows).Keys
      ensures ok ==> DeletedSoFar(old(rows), rows, IdSet(redundant), deleted)
    {
      hide IdSet, DeletedSoFar;
      deleted := 0;
      DeleteNone(rows);
      for i := 0 to |redundant|
        invariant Valid() && DeletedSoFar(old(rows), rows, IdSet(redundant[..i]), deleted)
      {
        assert redundant[..i + 1] == redundant[..i] + [redundant[i]];
        IdSetAppend(redundant[..i], redundant[i]);
        if redundant[i].id !in rows {
          MissingRow(old(rows), rows, redundant, i, deleted);
          return false, deleted;
        }
        DeleteOne(old(rows), rows, IdSet(redundant[..i]), deleted, redundant[i].id);
        rows := rows - {redundant[i].id};
        deleted := deleted + 1;
      }
      assert redundant[..|redundant|] == redundant;
      DeletedWithin(old(rows), rows, IdSet(redundant), deleted);
      return true, deleted;
    }

    /** One audited group: verified against the re-read rows, then reduced to its survivor. */
    method RepairGroup(group: Group, freshProfiles: seq<Profile>, ghost before: Table, ghost handled: set<Option<OwnerKey>>)
      returns (ok: bool, deleted: nat)
      requires Valid() && KeyedById(before) && IsListing(freshProfiles, before) && |group.profiles| >= 2
      requires rows == KeptAfter(before, handled)
      modifies this`rows
      ensures ok <==> GroupCurrent(group, before) && BuildOwnerKey(group.profiles[0]) !in handled
      ensures ok ==> rows == KeptAfter(before, handled + {BuildOwnerKey(group.profiles[0])}) && |rows| + deleted == |old(rows)|
    {
      var verified, currentGroup := VerifyGroup(group, freshProfiles, before);
      if !verified {
        return false, 0;
      }
      ghost var key := BuildOwnerKey(group.profiles[0]);
      var survivor := SelectSurvivor(currentGroup);
      var redundant := Others(currentGroup, survivor.id);
      WithKeyIs(freshProfiles, key);
      OthersIs(currentGroup, survivor.id);
      SurvivorExists(freshProfiles, before, key);
      RedundantRows(currentGroup, survivor, before, key, handled);
      ok, deleted := DeleteRows(redundant);
    }

    /**
     * The whole repair. It either aborts and changes nothing, or leaves exactly the earliest row
     * of every owner of a store that held nothing worse than identical duplicates.
     */
    method RepairIdenticalDuplicates(report: AuditReport) returns (result: RepairResult)
      requires Valid()
      modifies this`rows
      ensures Valid()
      ensures result.Aborted? ==> rows == old(rows)
      ensures report.repairableGroups == [] ==> result == Repaired(0) && rows == old(rows)
      ensures result.Repaired? && report.repairableGroups != [] ==>
                && RepairableStore(old(rows), owners) && AllCurrent(report.repairableGroups, old(rows))
                && rows == Survivors(old(rows)) && CleanStore(rows, owners)
                && |rows| + result.profilesDeleted == |old(rows)|
      ensures IsReportOf(report, old(rows), owners) && report.repairableGroups != [] ==>
                (result.Repaired? <==> RepairableStore(old(rows), owners))
    {
      hide AllCurrent, GroupCurrent, HandledAlike, Survivors, CleanStore, RepairableStore, IsReportOf, KeysOf;
      var groups := report.repairableGroups;
      if groups == [] {
        return Repaired(0);
      }
      var snapshot := rows;
      var freshProfiles := LoadAllProfiles();
      var profilesDeleted := 0;
      ProgressStart(snapshot);
      for i := 0 to |groups|
        invariant Progress(snapshot, rows, groups[..i], profilesDeleted)
      {
        ghost var rowsBefore := rows;
        assert groups[..i + 1] == groups[..i] + [groups[i]];
        if |groups[i].profiles| < 2 {
          ProgressStep(snapshot, rows, rows, groups[..i], groups[i], profilesDeleted, 0);
          continue;
        }
        var ok, deleted := RepairGroup(groups[i], freshProfiles, snapshot, KeysOf(groups[..i]));
        if !ok {
          if IsReportOf(report, snapshot, owners) {
            FreshKeysDistinct(report, snapshot, owners, i);
          }
          rows := snapshot;
          return Aborted;
        }
        ProgressStep(snapshot, rowsBefore, rows, groups[..i], groups[i], profilesDeleted, deleted);
        profilesDeleted := profilesDeleted + deleted;
      }
      assert groups[..|groups|] == groups;
      var finalAudit := Audit();
      FinalAuditDecides(report, snapshot, freshProfiles, owners);
      if !finalAudit.isClean {
        rows := snapshot;
        return Aborted;
      }
      return Repaired(profilesDeleted);
    }
  }

  lemma KeptUntilHandled(before: Table, survivor: Profile, key: Option<OwnerKey>, handled: set<Option<OwnerKey>>, gone: set<Text>)
    requires KeyedById(before) && IsSurvivor(before, survivor)
    requires forall p :: IsSurvivor(before, p) && BuildOwnerKey(p) == key ==> p == survivor
    requires forall id :: id in gone <==> id in before && BuildOwnerKey(before[id]) == key && id != survivor.id
    requires BuildOwnerKey(survivor) == key
    ensures if key in handled then gone !! KeptAfter(before, handled).Keys
            else gone <= KeptAfter(before, handled).Keys
                 && KeptAfter(before, handled) - gone == KeptAfter(before, handled + {key})
  {
    forall id | id in gone
      ensures !IsSurvivor(before, before[id])
    {
      assert before[id].id == id;
    }
  }

  /** The rows deleted for one owner, and what their absence means for the table. */
  lemma RedundantRows(currentGroup: seq<Profile>, survivor: Profile, before: Table, key: Option<OwnerKey>,
                      handled: set<Option<OwnerKey>>)
    requires KeyedById(before) && DistinctIds(currentGroup) && |currentGroup| >= 2 && survivor in currentGroup
    requires forall p :: p in currentGroup <==> Stored(p, before) && BuildOwnerKey(p) == key
    requires IsSurvivor(before, survivor)
    requires forall p :: IsSurvivor(before, p) && BuildOwnerKey(p) == key ==> p == survivor
    ensures var gone := IdSet(Others(currentGroup, survivor.id));
            if key in handled then !(gone <= KeptAfter(before, handled).Keys)
            else gone <= KeptAfter(before, handled).Keys
                 && KeptAfter(before, handled) - gone == KeptAfter(before, handled + {key})
  {
    var gone := IdSet(Others(currentGroup, survivor.id));
    OthersIs(currentGroup, survivor.id);
    forall id
      ensures id in gone <==> id in before && BuildOwnerKey(before[id]) == key && id != survivor.id
    {
      if id in before {
        assert Stored(before[id], before);
      }
    }
    var k := if currentGroup[0] == survivor then 1 else 0;
    assert currentGroup[k] in currentGroup && currentGroup[k].id in gone;
    KeptUntilHandled(before, survivor, key, handled, gone);
  }
}
