/** The structural rules for one stored capacity profile and its segments. */
module ProfileStructure {
  import opened Common
  import opened ProfileSweep
  import Sorting

  type Text = string

  datatype SegmentRow = SegmentRow(
    id: Text,
    capacityProfileId: Option<Text>,
    startWeek: Number,
    endWeek: Number,
    percent: Number,
    source: Text)

  datatype ProfileRow = ProfileRow(
    id: Text,
    projectId: Text,
    resourceTypeId: Option<Text>,
    namedResourceId: Option<Text>,
    ownerKind: Text,
    planningBasis: Text,
    source: Text,
    defaultPercent: Option<Number>,
    startWeek: Option<Number>,
    endWeek: Option<Number>,
    segments: seq<SegmentRow>)

  datatype StructureContext = StructureContext(projectId: Text, resourceTypeIds: set<Text>, namedResourceIds: set<Text>)

  const VALID_OWNER_KINDS := {"ROLE", "NAMED_PERSON", "PLANNED_RESOURCE"}
  const VALID_PLANNING_BASIS := {"DEMAND_FOLLOWING", "AVAILABILITY_WINDOW", "WHOLE_PROJECT_ALLOCATION", "CAPACITY_PROFILE"}
  const VALID_SOURCES := {"FIXED", "MANUAL", "AVAILABILITY_WINDOW", "SQUAD_PLANNER", "IMPORTED", "DERIVED", "LEGACY"}

  /** The rules, each named after what it reports. */
  datatype Rule =
    | WrongProject | NotOneOwner | UnknownOwnerKind | RoleWithoutResourceType | RoleWithNamedResource
    | PersonWithoutNamedResource | PersonWithResourceType | ForeignResourceType | ForeignNamedResource
    | UnknownBasis | UnknownSource | BadDefaultPercent | BadStartWeek | BadEndWeek | WeeksReversed
    | BasisForbidsSegments | BasisForbidsStartWeek | BasisForbidsEndWeek | MissingSegments
    | SegmentOfOtherProfile | SegmentSource | SegmentPercent | SegmentWeeks | DuplicateSegment | OverlappingSegment

  predicate PersonKind(kind: Text) {
    kind == "NAMED_PERSON" || kind == "PLANNED_RESOURCE"
  }

  predicate ValidPercent(percent: Number, ownerKind: Text) {
    percent.Finite? && percent.value >= 0.0 && (ownerKind != "ROLE" ==> percent.value <= 100.0)
  }

  predicate ValidWeeks(segment: SegmentRow) {
    IsWeek(segment.startWeek) && IsWeek(segment.endWeek) && segment.startWeek.value <= segment.endWeek.value
  }

  /** Segments are forbidden, and so are profile weeks, unless the basis says otherwise. */
  predicate ScalarBasis(basis: Text) {
    basis == "DEMAND_FOLLOWING" || basis == "WHOLE_PROJECT_ALLOCATION"
  }

  /** The one state that may be a capacity profile without segments. */
  predicate CanonicalZero(p: ProfileRow) {
    && p.ownerKind == "PLANNED_RESOURCE"
    && (p.source == "SQUAD_PLANNER" || p.source == "MANUAL")
    && p.defaultPercent == Some(Finite(0.0))
    && p.startWeek == None && p.endWeek == None
  }

  function Value(number: Number): real {
    if number.Finite? then number.value else 0.0
  }

  function RangeOf(segment: SegmentRow): WeekRange {
    WeekRange(Value(segment.startWeek), Value(segment.endWeek), Value(segment.percent))
  }

  function Ranges(segments: seq<SegmentRow>): (r: seq<WeekRange>)
    ensures |r| == |segments| && forall i :: 0 <= i < |segments| ==> r[i] == RangeOf(segments[i])
  {
    seq(|segments|, i requires 0 <= i < |segments| => RangeOf(segments[i]))
  }

  /** Exactly one owner of the right kind, inside the project. */
  predicate OwnedInProject(p: ProfileRow, context: StructureContext) {
    && p.projectId == context.projectId
    && if p.ownerKind == "ROLE" then
         p.resourceTypeId.Some? && p.namedResourceId.None? && p.resourceTypeId.value in context.resourceTypeIds
       else
         PersonKind(p.ownerKind) && p.namedResourceId.Some? && p.resourceTypeId.None?
         && p.namedResourceId.value in context.namedResourceIds
  }

  predicate ValidFields(p: ProfileRow) {
    && p.planningBasis in VALID_PLANNING_BASIS && p.source in VALID_SOURCES
    && (p.defaultPercent.Some? ==> ValidPercent(p.defaultPercent.value, p.ownerKind))
    && (p.startWeek.Some? ==> IsWeek(p.startWeek.value)) && (p.endWeek.Some? ==> IsWeek(p.endWeek.value))
    && (p.startWeek.Some? && p.endWeek.Some? ==> p.startWeek.value.value <= p.endWeek.value.value)
  }

  predicate FitsBasis(p: ProfileRow) {
    && (p.planningBasis != "CAPACITY_PROFILE" ==> p.segments == [])
    && (ScalarBasis(p.planningBasis) ==> p.startWeek == None && p.endWeek == None)
    && (p.planningBasis == "CAPACITY_PROFILE" && p.segments == [] ==> CanonicalZero(p))
  }

  predicate SoundSegment(segment: SegmentRow, p: ProfileRow) {
    && (segment.capacityProfileId.Some? ==> segment.capacityProfileId.value == p.id)
    && segment.source in VALID_SOURCES
    && ValidPercent(segment.percent, p.ownerKind)
    && ValidWeeks(segment)
  }

  /** What a well-formed profile is, stated without any sweep. */
  ghost predicate WellFormedProfile(p: ProfileRow, context: StructureContext) {
    && OwnedInProject(p, context)
    && ValidFields(p)
    && FitsBasis(p)
    && (forall k :: 0 <= k < |p.segments| ==> SoundSegment(p.segments[k], p))
    && Disjoint(Ranges(p.segments))
  }

  function ReportWhen(errors: seq<Rule>, violated: bool, rule: Rule): seq<Rule> {
    if violated then errors + [rule] else errors
  }

  method OwnerErrors(p: ProfileRow, context: StructureContext) returns (errors: seq<Rule>)
    ensures errors == [] <==> OwnedInProject(p, context)
  {
    errors := [];
    var hasRt, hasNr := p.resourceTypeId.Some?, p.namedResourceId.Some?;
    errors := ReportWhen(errors, p.projectId != context.projectId, WrongProject);
    errors := ReportWhen(errors, hasRt == hasNr, NotOneOwner);
    errors := ReportWhen(errors, p.ownerKind !in VALID_OWNER_KINDS, UnknownOwnerKind);
    errors := ReportWhen(errors, p.ownerKind == "ROLE" && !hasRt, RoleWithoutResourceType);
    errors := ReportWhen(errors, p.ownerKind == "ROLE" && hasNr, RoleWithNamedResource);
    errors := ReportWhen(errors, PersonKind(p.ownerKind) && !hasNr, PersonWithoutNamedResource);
    errors := ReportWhen(errors, PersonKind(p.ownerKind) && hasRt, PersonWithResourceType);
    errors := ReportWhen(errors, hasRt && p.resourceTypeId.value !in context.resourceTypeIds, ForeignResourceType);
    errors := ReportWhen(errors, hasNr && p.namedResourceId.value !in context.namedResourceIds, ForeignNamedResource);
  }

  method FieldErrors(p: ProfileRow) returns (errors: seq<Rule>)
    ensures errors == [] <==> ValidFields(p)
  {
    errors := [];
    errors := ReportWhen(errors, p.planningBasis !in VALID_PLANNING_BASIS, UnknownBasis);
    errors := ReportWhen(errors, p.source !in VALID_SOURCES, UnknownSource);
    if p.defaultPercent.Some? {
      var percent := p.defaultPercent.value;
      if percent.NotFinite? || percent.value < 0.0 {
        errors := errors + [BadDefaultPercent];
      } else if p.ownerKind != "ROLE" && percent.value > 100.0 {
        errors := errors + [BadDefaultPercent];
      }
    }
    errors := ReportWhen(errors, p.startWeek.Some? && !IsWeek(p.startWeek.value), BadStartWeek);
    errors := ReportWhen(errors, p.endWeek.Some? && !IsWeek(p.endWeek.value), BadEndWeek);
    errors := ReportWhen(errors,
      p.startWeek.Some? && p.startWeek.value.Finite? && p.endWeek.Some? && p.endWeek.value.Finite?
      && p.startWeek.value.value > p.endWeek.value.value, WeeksReversed);
  }

  method BasisErrors(p: ProfileRow) returns (errors: seq<Rule>)
    requires p.planningBasis in VALID_PLANNING_BASIS
    ensures errors == [] <==> FitsBasis(p)
  {
    errors := [];
    if ScalarBasis(p.planningBasis) {
      errors := ReportWhen(errors, |p.segments| > 0, BasisForbidsSegments);
      errors := ReportWhen(errors, p.startWeek != None, BasisForbidsStartWeek);
      errors := ReportWhen(errors, p.endWeek != None, BasisForbidsEndWeek);
    } else if p.planningBasis == "AVAILABILITY_WINDOW" {
      errors := ReportWhen(errors, |p.segments| > 0, BasisForbidsSegments);
    } else if p.planningBasis == "CAPACITY_PROFILE" {
      if |p.segments| == 0 {
        if CanonicalZero(p) {
          errors := ReportWhen(errors, p.startWeek != None, BasisForbidsStartWeek);
          errors := ReportWhen(errors, p.endWeek != None, BasisForbidsEndWeek);
        } else {
          errors := errors + [MissingSegments];
        }
      }
    }
  }

  method EachSegmentErrors(p: ProfileRow) returns (errors: seq<Rule>)
    ensures errors == [] <==> forall k :: 0 <= k < |p.segments| ==> SoundSegment(p.segments[k], p)
  {
    errors := [];
    for k := 0 to |p.segments|
      invariant errors == [] <==> forall j :: 0 <= j < k ==> SoundSegment(p.segments[j], p)
    {
      var s := p.segments[k];
      errors := ReportWhen(errors, s.capacityProfileId.Some? && s.capacityProfileId.value != p.id, SegmentOfOtherProfile);
      errors := ReportWhen(errors, s.source !in VALID_SOURCES, SegmentSource);
      if s.percent.NotFinite? || s.percent.value < 0.0 {
        errors := errors + [SegmentPercent];
      } else if p.ownerKind != "ROLE" && s.percent.value > 100.0 {
        errors := errors + [SegmentPercent];
      }
      errors := ReportWhen(errors,
        !IsWeek(s.startWeek) || !IsWeek(s.endWeek) || s.startWeek.value > s.endWeek.value, SegmentWeeks);
    }
  }

  method SegmentErrors(p: ProfileRow) returns (errors: seq<Rule>)
    ensures errors == [] <==>
              && (forall k :: 0 <= k < |p.segments| ==> SoundSegment(p.segments[k], p))
              && Disjoint(Ranges(p.segments))
  {
    errors := [];
    if |p.segments| > 0 {
      errors := EachSegmentErrors(p);
      ghost var sound := errors == [];
      var sorted := Sorting.SortBy(Ranges(p.segments), StartsFirst);
      var repeats := FindsDuplicateRange(sorted);
      errors := ReportWhen(errors, repeats, DuplicateSegment);
      var overlaps := SweepFindsOverlap(sorted);
      errors := ReportWhen(errors, overlaps, OverlappingSegment);
      if sound {
        SegmentsDecide(p);
      }
    }
  }

  lemma SegmentsDecide(p: ProfileRow)
    requires forall k :: 0 <= k < |p.segments| ==> SoundSegment(p.segments[k], p)
    ensures var sorted := Sorting.SortBy(Ranges(p.segments), StartsFirst);
            !RepeatsRange(sorted) && !(exists i :: 0 <= i < |sorted| && sorted[i].startWeek <= FarthestEnd(sorted, i))
            <==> Disjoint(Ranges(p.segments))
  {
    var ranges := Ranges(p.segments);
    forall k | 0 <= k < |ranges|
      ensures 0.0 <= ranges[k].startWeek <= ranges[k].endWeek
    {
      assert SoundSegment(p.segments[k], p);
    }
    var sorted := Sorting.SortBy(ranges, StartsFirst);
    SweepOrders();
    SortedSweepDecides(ranges, StartsFirst);
    SortSound(ranges, StartsFirst);
    Sorting.SortKeepsElements(ranges, StartsFirst);
    DisjointOrderFree(ranges, sorted);
    if RepeatsRange(sorted) {
      DuplicatesOverlap(sorted);
    }
  }

  /** The validator accepts exactly the well-formed profiles. */
  method ValidateProfileStructure(p: ProfileRow, context: StructureContext) returns (errors: seq<Rule>)
    ensures errors == [] <==> WellFormedProfile(p, context)
  {
    var ownerErrors := OwnerErrors(p, context);
    var fieldErrors := FieldErrors(p);
    var basisErrors: seq<Rule> := [];
    if p.planningBasis in VALID_PLANNING_BASIS {
      basisErrors := BasisErrors(p);
    }
    var segmentErrors := SegmentErrors(p);
    errors := ownerErrors + fieldErrors + basisErrors + segmentErrors;
  }
}
