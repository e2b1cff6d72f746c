/**
 * Replacing a capacity profile by request: the request's own validator, and the row and
 * segments the service then writes for the requested owner.
 */
module ProfileReplace {
  import opened Common
  import opened ProfileSweep
  import opened ProfileStructure
  import Sorting

  /** A request field: missing, null, a finite number, or anything else. */
  datatype Field = Undefined | Null | Numeric(value: real) | Unusable

  datatype SegmentInput = NotAnObject | SegmentFields(startWeek: Field, endWeek: Field, percent: Field)

  datatype SegmentsField = NoSegments | NullSegments | NotAnArray | Segments(items: seq<SegmentInput>)

  datatype Body = NotABody | Body(
    planningBasis: Option<Text>,
    defaultPercent: Field,
    startWeek: Field,
    endWeek: Field,
    segments: SegmentsField)

  datatype RequestOwner = RoleOwner | PersonOwner

  function KindName(owner: RequestOwner): Text {
    if owner.RoleOwner? then "ROLE" else "NAMED_PERSON"
  }

  datatype RequestError =
    | BodyShape | RequestBasis | RequestDefaultPercent | RequestStartWeek | RequestEndWeek | RequestWeeksReversed
    | RequestSegmentsForbidden | RequestStartForbidden | RequestEndForbidden | RequestSegmentsMissing
    | RequestSegmentShape | RequestSegment | RequestDuplicate | RequestOverlap

  predicate Present(field: Field) {
    !field.Undefined? && !field.Null?
  }

  predicate WeekField(field: Field) {
    field.Numeric? && IsInteger(field.value) && field.value >= 0.0
  }

  predicate PercentField(field: Field, owner: RequestOwner) {
    field.Numeric? && field.value >= 0.0 && (owner.PersonOwner? ==> field.value <= 100.0)
  }

  function Items(segments: SegmentsField): seq<SegmentInput> {
    if segments.Segments? then segments.items else []
  }

  predicate ValidItem(item: SegmentInput, owner: RequestOwner) {
    && item.SegmentFields?
    && WeekField(item.startWeek) && WeekField(item.endWeek) && item.startWeek.value <= item.endWeek.value
    && PercentField(item.percent, owner)
  }

  predicate Measurable(item: SegmentInput) {
    item.SegmentFields? && item.startWeek.Numeric? && item.endWeek.Numeric? && item.percent.Numeric?
  }

  /** The segments with three usable numbers, in request order. */
  function TypedSegments(items: seq<SegmentInput>): seq<WeekRange> {
    if items == [] then []
    else
      var item := items[|items| - 1];
      TypedSegments(items[..|items| - 1])
      + if Measurable(item) then [WeekRange(item.startWeek.value, item.endWeek.value, item.percent.value)] else []
  }

  /** What every plain object of the runtime inherits (ECMAScript, sections 20.1.3 and B.2.2). */
  const INHERITED_NAMES := {
    "constructor", "hasOwnProperty", "isPrototypeOf", "propertyIsEnumerable", "toLocaleString", "toString", "valueOf",
    "__proto__", "__defineGetter__", "__defineSetter__", "__lookupGetter__", "__lookupSetter__"}

  /** The basis is looked up in an object literal, where inherited names are found too. */
  predicate InBasisTable(name: Text) {
    name in VALID_PLANNING_BASIS || name in INHERITED_NAMES
  }

  predicate RequestFits(body: Body)
    requires body.Body? && body.planningBasis.Some?
  {
    var basis := body.planningBasis.value;
    if ScalarBasis(basis) then
      !body.segments.NotAnArray? && Items(body.segments) == [] && !Present(body.startWeek) && !Present(body.endWeek)
    else if basis == "AVAILABILITY_WINDOW" then
      !body.segments.NotAnArray? && Items(body.segments) == []
    else
      Items(body.segments) != [] && !Present(body.startWeek) && !Present(body.endWeek)
  }

  predicate ValidScalars(body: Body, owner: RequestOwner)
    requires body.Body?
  {
    && (Present(body.defaultPercent) ==> PercentField(body.defaultPercent, owner))
    && (Present(body.startWeek) ==> WeekField(body.startWeek))
    && (Present(body.endWeek) ==> WeekField(body.endWeek))
    && (Present(body.startWeek) && Present(body.endWeek) ==> body.startWeek.value <= body.endWeek.value)
  }

  ghost predicate ValidItems(body: Body, owner: RequestOwner)
    requires body.Body?
  {
    && (forall k :: 0 <= k < |Items(body.segments)| ==> ValidItem(Items(body.segments)[k], owner))
    && Disjoint(TypedSegments(Items(body.segments)))
  }

  /** What an acceptable request is, stated without any sweep. */
  ghost predicate Acceptable(body: Body, owner: RequestOwner) {
    && body.Body?
    && body.planningBasis.Some? && body.planningBasis.value in VALID_PLANNING_BASIS
    && ValidScalars(body, owner)
    && RequestFits(body)
    && ValidItems(body, owner)
  }

  /** A request whose basis is an inherited name: no rule of any basis applies to it. */
  ghost predicate InheritedBasis(body: Body, owner: RequestOwner) {
    && body.Body?
    && body.planningBasis.Some? && body.planningBasis.value in INHERITED_NAMES
    && ValidScalars(body, owner)
    && ValidItems(body, owner)
  }

  function Report(errors: seq<RequestError>, violated: bool, error: RequestError): seq<RequestError> {
    if violated then errors + [error] else errors
  }

  method ScalarErrors(body: Body, owner: RequestOwner) returns (errors: seq<RequestError>)
    requires body.Body?
    ensures errors == [] <==> ValidScalars(body, owner)
  {
    errors := [];
    if Present(body.defaultPercent) {
      if !body.defaultPercent.Numeric? || body.defaultPercent.value < 0.0 {
        errors := errors + [RequestDefaultPercent];
      } else if owner.PersonOwner? && body.defaultPercent.value > 100.0 {
        errors := errors + [RequestDefaultPercent];
      }
    }
    errors := Report(errors, Present(body.startWeek) && !WeekField(body.startWeek), RequestStartWeek);
    errors := Report(errors, Present(body.endWeek) && !WeekField(body.endWeek), RequestEndWeek);
    errors := Report(errors,
      body.startWeek.Numeric? && body.endWeek.Numeric? && body.startWeek.value > body.endWeek.value, RequestWeeksReversed);
  }

  method FitErrors(body: Body) returns (errors: seq<RequestError>)
    requires body.Body? && body.planningBasis.Some? && InBasisTable(body.planningBasis.value)
    ensures errors == [] <==> body.planningBasis.value in INHERITED_NAMES || RequestFits(body)
  {
    errors := [];
    var basis := body.planningBasis.value;
    var hasInvalidScalarSegments := body.segments.NotAnArray? || (body.segments.Segments? && |body.segments.items| > 0);
    if ScalarBasis(basis) {
      errors := Report(errors, hasInvalidScalarSegments, RequestSegmentsForbidden);
      errors := Report(errors, Present(body.startWeek), RequestStartForbidden);
      errors := Report(errors, Present(body.endWeek), RequestEndForbidden);
    } else if basis == "AVAILABILITY_WINDOW" {
      errors := Report(errors, hasInvalidScalarSegments, RequestSegmentsForbidden);
    } else if basis == "CAPACITY_PROFILE" {
      errors := Report(errors, !body.segments.Segments? || |body.segments.items| == 0, RequestSegmentsMissing);
      errors := Report(errors, Present(body.startWeek), RequestStartForbidden);
      errors := Report(errors, Present(body.endWeek), RequestEndForbidden);
    }
  }

  method ItemErrors(items: seq<SegmentInput>, owner: RequestOwner) returns (errors: seq<RequestError>)
    ensures errors == [] <==> forall k :: 0 <= k < |items| ==> ValidItem(items[k], owner)
  {
    errors := [];
    for k := 0 to |items|
      invariant errors == [] <==> forall j :: 0 <= j < k ==> ValidItem(items[j], owner)
    {
      var s := items[k];
      if !s.SegmentFields? {
        errors := errors + [RequestSegmentShape];
        continue;
      }
      var wrong := !WeekField(s.startWeek);
      if !WeekField(s.endWeek) {
        wrong := true;
      }
      if s.startWeek.Numeric? && s.endWeek.Numeric? && s.startWeek.value > s.endWeek.value {
        wrong := true;
      }
      if !s.percent.Numeric? || s.percent.value < 0.0 {
        wrong := true;
      } else if owner.PersonOwner? && s.percent.value > 100.0 {
        wrong := true;
      }
      if wrong {
        errors := errors + [RequestSegment];
      }
    }
  }

  function RangeOfItem(item: SegmentInput): WeekRange {
    if Measurable(item) then WeekRange(item.startWeek.value, item.endWeek.value, item.percent.value)
    else WeekRange(0.0, 0.0, 0.0)
  }

  lemma {:induction false} ValidItemsTyped(items: seq<SegmentInput>, owner: RequestOwner)
    requires forall k :: 0 <= k < |items| ==> ValidItem(items[k], owner)
    ensures |TypedSegments(items)| == |items| && Sound(TypedSegments(items))
    ensures forall k :: 0 <= k < |items| ==> TypedSegments(items)[k] == RangeOfItem(items[k])
  {
    if items == [] {
    } else {
      var last := |items| - 1;
      assert ValidItem(items[last], owner);
      ValidItemsTyped(items[..last], owner);
    }
  }

  method RangeErrors(items: seq<SegmentInput>, ghost owner: RequestOwner) returns (errors: seq<RequestError>)
    ensures (forall k :: 0 <= k < |items| ==> ValidItem(items[k], owner)) ==>
              (errors == [] <==> Disjoint(TypedSegments(items)))
  {
    errors := [];
    var typedSegments := TypedSegments(items);
    if |typedSegments| >= 2 {
      var sorted := Sorting.SortBy(typedSegments, ByRange);
      var repeats := FindsDuplicateRange(sorted);
      errors := Report(errors, repeats, RequestDuplicate);
      var overlaps := SweepFindsOverlap(sorted);
      errors := Report(errors, overlaps, RequestOverlap);
      if forall k :: 0 <= k < |items| ==> ValidItem(items[k], owner) {
        ValidItemsTyped(items, owner);
        RangesDecide(typedSegments);
      }
    }
  }

  lemma RangesDecide(ranges: seq<WeekRange>)
    requires Sound(ranges)
    ensures var sorted := Sorting.SortBy(ranges, ByRange);
            !RepeatsRange(sorted) && !(exists i :: 0 <= i < |sorted| && sorted[i].startWeek <= FarthestEnd(sorted, i))
            <==> Disjoint(ranges)
  {
    var sorted := Sorting.SortBy(ranges, ByRange);
    SweepOrders();
    SortedSweepDecides(ranges, ByRange);
    SortSound(ranges, ByRange);
    Sorting.SortKeepsElements(ranges, ByRange);
    DisjointOrderFree(ranges, sorted);
    if RepeatsRange(sorted) {
      DuplicatesOverlap(sorted);
    }
  }

  /** The validator is silent exactly on the acceptable requests and on those with an inherited name for a basis. */
  method ValidateReplaceCapacityProfileRequest(body: Body, owner: RequestOwner) returns (errors: seq<RequestError>)
    ensures errors == [] <==> Acceptable(body, owner) || InheritedBasis(body, owner)
  {
    if body.NotABody? {
      return [BodyShape];
    }
    if body.planningBasis.None? || !InBasisTable(body.planningBasis.value) {
      return [RequestBasis];
    }
    var scalarErrors := ScalarErrors(body, owner);
    var fitErrors := FitErrors(body);
    var items := Items(body.segments);
    var itemErrors := ItemErrors(items, owner);
    var rangeErrors := RangeErrors(items, owner);
    errors := scalarErrors + fitErrors + itemErrors + rangeErrors;
  }

  // ── The writer ─────────────────────────────────────────────────────────────

  function Nullable(field: Field): Option<Number> {
    match field
    case Numeric(value) => Some(Finite(value))
    case Unusable => Some(NotFinite)
    case _ => None
  }

  function SortedSegments(body: Body): seq<WeekRange>
    requires body.Body?
  {
    Sorting.SortBy(TypedSegments(Items(body.segments)), ByRange)
  }

  function StoredSegment(id: Text, profileId: Text, range: WeekRange): SegmentRow {
    SegmentRow(id, Some(profileId), Finite(range.startWeek), Finite(range.endWeek), Finite(range.percent), "MANUAL")
  }

  /** The written row meets the request: its fields, and its segments as ranges in sorted order. */
  ghost predicate IsWritten(row: ProfileRow, projectId: Text, owner: RequestOwner, ownerId: Text, body: Body)
    requires body.Body?
  {
    && row.projectId == projectId && row.ownerKind == KindName(owner)
    && row.resourceTypeId == (if owner.RoleOwner? then Some(ownerId) else None)
    && row.namedResourceId == (if owner.RoleOwner? then None else Some(ownerId))
    && body.planningBasis == Some(row.planningBasis) && row.source == "MANUAL"
    && row.defaultPercent == Nullable(body.defaultPercent)
    && row.startWeek == Nullable(body.startWeek) && row.endWeek == Nullable(body.endWeek)
    && |row.segments| == |SortedSegments(body)|
    && forall k :: 0 <= k < |row.segments| ==>
         row.segments[k] == StoredSegment(row.segments[k].id, row.id, SortedSegments(body)[k])
  }

  /** Whatever the request validator accepts is, once written for an owner of the project, structurally valid. */
  lemma AcceptedRequestsAreWellFormed(row: ProfileRow, context: StructureContext, owner: RequestOwner, ownerId: Text, body: Body)
    requires Acceptable(body, owner) && IsWritten(row, context.projectId, owner, ownerId, body)
    requires if owner.RoleOwner? then ownerId in context.resourceTypeIds else ownerId in context.namedResourceIds
    ensures WellFormedProfile(row, context)
  {
    hide Disjoint, TypedSegments, SortedSegments, Sorting.SortBy;
    WrittenSegmentsSound(row, context.projectId, owner, ownerId, body);
    WrittenFieldsValid(row, context.projectId, owner, ownerId, body);
    WrittenFitsBasis(row, context.projectId, owner, ownerId, body);
  }

  lemma WrittenFieldsValid(row: ProfileRow, projectId: Text, owner: RequestOwner, ownerId: Text, body: Body)
    requires Acceptable(body, owner) && IsWritten(row, projectId, owner, ownerId, body)
    ensures ValidFields(row)
  {
    hide Disjoint, TypedSegments, SortedSegments, RequestFits, ValidItems;
  }

  lemma WrittenFitsBasis(row: ProfileRow, projectId: Text, owner: RequestOwner, ownerId: Text, body: Body)
    requires Acceptable(body, owner) && IsWritten(row, projectId, owner, ownerId, body)
    ensures FitsBasis(row)
  {
    hide Disjoint, Sorting.SortBy;
    ValidItemsTyped(Items(body.segments), owner);
  }

  /** The written segments are the request's, each sound, none overlapping. */
  lemma WrittenSegmentsSound(row: ProfileRow, projectId: Text, owner: RequestOwner, ownerId: Text, body: Body)
    requires Acceptable(body, owner) && IsWritten(row, projectId, owner, ownerId, body)
    ensures forall k :: 0 <= k < |row.segments| ==> SoundSegment(row.segments[k], row)
    ensures Disjoint(Ranges(row.segments))
  {
    hide ValidScalars, RequestFits, TypedSegments, Sorting.SortBy;
    var items := Items(body.segments);
    var typed := TypedSegments(items);
    var sorted := SortedSegments(body);
    ValidItemsTyped(items, owner);
    forall k | 0 <= k < |sorted|
      ensures SoundSegment(row.segments[k], row)
    {
      Sorting.SortMembers(typed, ByRange, sorted[k]);
      var j :| 0 <= j < |typed| && typed[j] == sorted[k];
      assert ValidItem(items[j], owner);
      assert row.segments[k] == StoredSegment(row.segments[k].id, row.id, sorted[k]);
    }
    Sorting.SortKeepsElements(typed, ByRange);
    SortSound(typed, ByRange);
    DisjointOrderFree(typed, sorted);
    assert Ranges(row.segments) == sorted;
  }

  // ── The store ──────────────────────────────────────────────────────────────

  /** A profile row without its segments, which live in their own table. */
  datatype StoredProfile = StoredProfile(
    projectId: Text,
    resourceTypeId: Option<Text>,
    namedResourceId: Option<Text>,
    ownerKind: Text,
    planningBasis: Text,
    source: Text,
    defaultPercent: Option<Number>,
    startWeek: Option<Number>,
    endWeek: Option<Number>,
    provenance: Option<Text>)

  datatype ReplaceError =
    | ProjectNotFound | OwnerNotFound | AmbiguousOwner | PlannedResource | SquadPlanner | MalformedOwnership
    | InvalidRoleProfile | PersonProfileCount | BasisNotStorable

  datatype ReplaceResult = Replaced(profileId: Text) | Refused(error: ReplaceError)

  function RoleId(owner: RequestOwner, ownerId: Text): Option<Text> {
    if owner.RoleOwner? then Some(ownerId) else None
  }

  function PersonId(owner: RequestOwner, ownerId: Text): Option<Text> {
    if owner.RoleOwner? then None else Some(ownerId)
  }

  predicate OwnerExists(context: StructureContext, owner: RequestOwner, ownerId: Text) {
    if owner.RoleOwner? then ownerId in context.resourceTypeIds else ownerId in context.namedResourceIds
  }

  predicate OwnedBy(profile: StoredProfile, ownerId: Text) {
    profile.resourceTypeId == Some(ownerId) || profile.namedResourceId == Some(ownerId)
  }

  predicate OwnershipMatches(profile: StoredProfile, projectId: Text, owner: RequestOwner, ownerId: Text) {
    && profile.projectId == projectId
    && profile.ownerKind == KindName(owner)
    && profile.resourceTypeId == RoleId(owner, ownerId)
    && profile.namedResourceId == PersonId(owner, ownerId)
  }

  /** Neither planner-owned nor malformed. */
  predicate Replaceable(profile: StoredProfile, projectId: Text, owner: RequestOwner, ownerId: Text) {
    profile.source != "SQUAD_PLANNER" && OwnershipMatches(profile, projectId, owner, ownerId)
  }

  /** What the loader of a role's own profile checks it against. */
  function RoleContext(projectId: Text, roleId: Text): StructureContext {
    StructureContext(projectId, {roleId}, {})
  }

  function PersonProfiles(profiles: map<Text, StoredProfile>, projectId: Text, personId: Text): set<Text> {
    set id | id in profiles && profiles[id].projectId == projectId && profiles[id].namedResourceId == Some(personId)
  }

  predicate OneProfileEach(profiles: map<Text, StoredProfile>, projectId: Text, people: seq<Text>) {
    forall i :: 0 <= i < |people| ==> |PersonProfiles(profiles, projectId, people[i])| == 1
  }

  /** The row the request asks for. */
  function RequestedRow(projectId: Text, owner: RequestOwner, ownerId: Text, body: Body): StoredProfile
    requires body.Body? && body.planningBasis.Some?
  {
    StoredProfile(projectId, RoleId(owner, ownerId), PersonId(owner, ownerId), KindName(owner), body.planningBasis.value,
                  "MANUAL", Nullable(body.defaultPercent), Nullable(body.startWeek), Nullable(body.endWeek), None)
  }

  function SegmentsOf(segments: seq<SegmentRow>, profileId: Text): seq<SegmentRow> {
    if segments == [] then []
    else
      SegmentsOf(segments[..|segments| - 1], profileId)
      + if segments[|segments| - 1].capacityProfileId == Some(profileId) then [segments[|segments| - 1]] else []
  }

  function WithoutProfile(segments: seq<SegmentRow>, profileId: Text): seq<SegmentRow> {
    if segments == [] then []
    else
      WithoutProfile(segments[..|segments| - 1], profileId)
      + if segments[|segments| - 1].capacityProfileId == Some(profileId) then [] else [segments[|segments| - 1]]
  }

  lemma SegmentsOfAppend(segments: seq<SegmentRow>, row: SegmentRow, profileId: Text)
    ensures SegmentsOf(segments + [row], profileId)
         == SegmentsOf(segments, profileId) + if row.capacityProfileId == Some(profileId) then [row] else []
  {
  }

  lemma {:induction false} WithoutProfileSegments(segments: seq<SegmentRow>, profileId: Text, id: Text)
    ensures SegmentsOf(WithoutProfile(segments, profileId), id)
         == if id == profileId then [] else SegmentsOf(segments, id)
  {
    if segments == [] {
    } else {
      var last := segments[|segments| - 1];
      var before := WithoutProfile(segments[..|segments| - 1], profileId);
      WithoutProfileSegments(segments[..|segments| - 1], profileId, id);
      SegmentsOfAppend(before, last, id);
      assert last.capacityProfileId == Some(profileId) ==> WithoutProfile(segments, profileId) == before;
    }
  }

  /** Nothing but the given profile's segments differs. */
  ghost predicate SameElsewhere(after: seq<SegmentRow>, before: seq<SegmentRow>, profileId: Text) {
    forall id :: id != profileId ==> SegmentsOf(after, id) == SegmentsOf(before, id)
  }

  /** One stored row per range, in order, all of the given profile. */
  ghost predicate StoredInOrder(rows: seq<SegmentRow>, profileId: Text, ranges: seq<WeekRange>) {
    |rows| == |ranges| && forall k :: 0 <= k < |rows| ==> rows[k] == StoredSegment(rows[k].id, profileId, ranges[k])
  }

  class ProfileStore {
    var profiles: map<Text, StoredProfile>
    var segments: seq<SegmentRow>

    constructor (profiles: map<Text, StoredProfile>, segments: seq<SegmentRow>)
      ensures this.profiles == profiles && this.segments == segments
    {
      this.profiles, this.segments := profiles, segments;
    }

    /** A profile read back with its segments. */
    function ReadBack(id: Text): ProfileRow
      requires id in profiles
      reads this
    {
      var p := profiles[id];
      ProfileRow(id, p.projectId, p.resourceTypeId, p.namedResourceId, p.ownerKind, p.planningBasis, p.source,
                 p.defaultPercent, p.startWeek, p.endWeek, SegmentsOf(segments, id))
    }

    method DeleteSegments(profileId: Text)
      modifies this`segments
      ensures SegmentsOf(segments, profileId) == []
      ensures SameElsewhere(segments, old(segments), profileId)
    {
      forall id
        ensures SegmentsOf(WithoutProfile(segments, profileId), id)
             == if id == profileId then [] else SegmentsOf(segments, id)
      {
        WithoutProfileSegments(segments, profileId, id);
      }
      segments := WithoutProfile(segments, profileId);
    }

    method CreateSegments(profileId: Text, sorted: seq<WeekRange>, segmentId: nat -> Text)
      requires SegmentsOf(segments, profileId) == []
      modifies this`segments
      ensures StoredInOrder(SegmentsOf(segments, profileId), profileId, sorted)
      ensures SameElsewhere(segments, old(segments), profileId)
    {
      for i := 0 to |sorted|
        invariant StoredInOrder(SegmentsOf(segments, profileId), profileId, sorted[..i])
        invariant SameElsewhere(segments, old(segments), profileId)
      {
        var row := StoredSegment(segmentId(i), profileId, sorted[i]);
        forall id
          ensures SegmentsOf(segments + [row], id) == SegmentsOf(segments, id) + if id == profileId then [row] else []
        {
          SegmentsOfAppend(segments, row, id);
        }
        segments := segments + [row];
      }
      assert sorted[..|sorted|] == sorted;
    }

    /**
     * The stored state lets the owner's profile be replaced: at most one, owned as requested, and for a role
     * that has one, structurally valid, with exactly one profile for each of the role's people.
     */
    ghost predicate Admits(context: StructureContext, owner: RequestOwner, ownerId: Text, matching: seq<Text>, people: seq<Text>)
      requires forall id :: id in matching ==> id in profiles
      reads this
    {
      && OwnerExists(context, owner, ownerId)
      && |matching| <= 1
      && (matching != [] ==>
            && Replaceable(profiles[matching[0]], context.projectId, owner, ownerId)
            && (owner.RoleOwner? ==>
                  && WellFormedProfile(ReadBack(matching[0]), RoleContext(context.projectId, ownerId))
                  && OneProfileEach(profiles, context.projectId, people)))
    }

    /** The checks on a role that already has a profile. */
    method CheckRole(projectId: Text, roleId: Text, profileId: Text, people: seq<Text>) returns (problem: Option<ReplaceError>)
      requires profileId in profiles
      ensures problem.None? <==>
                && WellFormedProfile(ReadBack(profileId), RoleContext(projectId, roleId))
                && OneProfileEach(profiles, projectId, people)
    {
      var errors := ValidateProfileStructure(ReadBack(profileId), RoleContext(projectId, roleId));
      if errors != [] {
        return Some(InvalidRoleProfile);
      }
      for i := 0 to |people|
        invariant OneProfileEach(profiles, projectId, people[..i])
      {
        if |PersonProfiles(profiles, projectId, people[i])| != 1 {
          return Some(PersonProfileCount);
        }
      }
      problem := None;
    }

    /** Whether the owner's profile may be replaced, and if not, why. */
    method CheckOwner(context: StructureContext, owner: RequestOwner, ownerId: Text, matching: seq<Text>, people: seq<Text>)
      returns (problem: Option<ReplaceError>)
      requires forall id :: id in matching ==> id in profiles
      ensures problem.None? <==> Admits(context, owner, ownerId, matching, people)
    {
      if !OwnerExists(context, owner, ownerId) {
        return Some(OwnerNotFound);
      }
      if |matching| > 1 {
        return Some(AmbiguousOwner);
      }
      problem := None;
      if |matching| == 1 {
        var existing := profiles[matching[0]];
        if existing.ownerKind == "PLANNED_RESOURCE" {
          return Some(PlannedResource);
        }
        if existing.source == "SQUAD_PLANNER" {
          return Some(SquadPlanner);
        }
        if !OwnershipMatches(existing, context.projectId, owner, ownerId) {
          return Some(MalformedOwnership);
        }
        if owner.RoleOwner? {
          problem := CheckRole(context.projectId, ownerId, matching[0], people);
        }
      }
    }

    /**
     * Replace or create the owner's profile from a request the validator is silent on. A refusal changes nothing,
     * also when the database refuses a basis it does not know; a replacement touches one profile and its
     * segments, and leaves it structurally valid.
     */
    method ReplaceCapacityProfile(context: StructureContext, mayEdit: bool, owner: RequestOwner, ownerId: Text, body: Body,
                                  matching: seq<Text>, people: seq<Text>, freshId: Text, segmentId: nat -> Text)
      returns (result: ReplaceResult)
      requires Acceptable(body, owner) || InheritedBasis(body, owner)
      requires NoDuplicates(matching) && (forall id :: id in matching <==> id in profiles && OwnedBy(profiles[id], ownerId))
      requires freshId !in profiles && SegmentsOf(segments, freshId) == []
      modifies this
      ensures result.Refused? ==> profiles == old(profiles) && segments == old(segments)
      ensures result.Replaced? <==>
                mayEdit && old(Admits(context, owner, ownerId, matching, people)) && Acceptable(body, owner)
      ensures result.Replaced? ==>
                && result.profileId == (if matching == [] then freshId else matching[0])
                && profiles == old(profiles)[result.profileId := RequestedRow(context.projectId, owner, ownerId, body)]
                && SameElsewhere(segments, old(segments), result.profileId)
                && IsWritten(ReadBack(result.profileId), context.projectId, owner, ownerId, body)
                && WellFormedProfile(ReadBack(result.profileId), context)
    {
      hide ValidItems, ValidScalars, RequestFits, TypedSegments, Sorting.SortBy, WellFormedProfile, OneProfileEach;
      if !mayEdit {
        return Refused(ProjectNotFound);
      }
      var problem := CheckOwner(context, owner, ownerId, matching, people);
      if problem.Some? {
        return Refused(problem.value);
      }
      if body.planningBasis.value !in VALID_PLANNING_BASIS {
        return Refused(BasisNotStorable);
      }
      NoInheritedBasis(body, owner);
      var profileId := freshId;
      if |matching| == 1 {
        profileId := matching[0];
        var existing := profiles[profileId];
        profiles := profiles[profileId := existing.(
          planningBasis := body.planningBasis.value, source := "MANUAL", defaultPercent := Nullable(body.defaultPercent),
          startWeek := Nullable(body.startWeek), endWeek := Nullable(body.endWeek), provenance := None)];
        DeleteSegments(profileId);
      } else {
        profiles := profiles[profileId := RequestedRow(context.projectId, owner, ownerId, body)];
      }
      CreateSegments(profileId, SortedSegments(body), segmentId);
      AcceptedRequestsAreWellFormed(ReadBack(profileId), context, owner, ownerId, body);
      result := Replaced(profileId);
    }
  }

  /** The four bases are none of the inherited names. */
  lemma NoInheritedBasis(body: Body, owner: RequestOwner)
    ensures InheritedBasis(body, owner) ==> body.planningBasis.value !in VALID_PLANNING_BASIS
  {
  }
}
