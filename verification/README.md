# Squad capacity engine: a verified model

This project models three parts of the server and proves properties of them.

**The squad capacity engine** turns weekly demand into a headcount envelope per period, smooths, caps and trims it,
publishes it as priced week ranges, splits those at draft locks, and turns them back into people with week windows.
Around this runs a search that grows and shrinks capacity against a planner.

**The backlog grid** accepts a batch of epic, feature, story and task rows, predicts where each will end up in the
tree, and commits it.

**Capacity profile integrity** covers the structural rules of one stored profile, the validator and writer of profile
requests, and the audit and all-or-nothing repair of duplicate owners.

## How the model is written

- FTE and allocation percentages are integers in hundredths: 100 is one full-time person, the headcount quantum is 25.
  Rounding to two decimals is then the identity and the comparison tolerance is zero. Demand, and with it the
  utilisation order and the allocation budget, stays in exact reals. The materialisation of applied plans
  (`PlanLayers` to `PlanRoundTrip`) uses exact reals throughout and keeps the tolerance of 0.000001, because the
  properties there are about it.
- `-1` for "no limit", `null` and `undefined` become `Option`; an infinite end week is `Open`; an infinite delivery
  time is `None`. A delivery time is counted in hundredths of a week. A cost is not rounded.
- The simulated-annealing planner is a parameter: any deterministic function from resource types to a schedule or an
  infeasibility. The useful-capacity bound of a role and the target-miss analysis are parameters too.
- `effectiveAllocationPct` is modelled as the scheduler defines it, with segments, modes and windows.
- A name in the backlog grid is a pair: the trimmed text that is stored and the normalised form that is compared.
  Every normaliser that ignores trimming gives such pairs. Hierarchy paths are the normalised names joined with
  colons, as the code writes and compares them; `BacklogPaths` says exactly what that can confuse.
- Text order, which the audit uses to sort, is a concrete total order standing for the runtime's locale order.
- Updates in place are arrays (`Smoothing`, `Envelope`) or classes (`ProfileReplace.ProfileStore`,
  `OwnershipRepair.ProfileTable`, `BacklogCommit.Backlog`); loops that collect values are methods proved against
  specification functions, about which the lemmas then speak.
- Identifiers that the database generates are parameters, required to be new.

## Where the code is narrower than its promise

- `PlanRoundTrip.RoundTripExactly`: persisting one resource per slot window silences the fallback exactly when, in every
  period, the percentages its slots have kept from the periods that opened them drift from the headcount by no more
  than the tolerance; the drift is a recursion over the period headcounts. Plans in whole hundredths, quarter-aligned
  plans, plans with separated shares and plans of up to 100 slots never drift too far
  (`PublishedPlansSurvive`, `SeparatedPlansSurvive`, `ModestPlansSurvive`); above 100 slots, for every number of slots,
  `LadderBreaksTheRoundTrip` gives a plan that does.
- `Replay.PhantomCapacityExactly`: the scheduler sees unnamed capacity on a replayed role that the published plan does
  not contain, except exactly when the role's profile is empty or the role lists a person for every started hundred
  percent of its greatest headcount. `OverAllocatedPersonLeavesPhantom` falls on the wrong side.
- `PlanLayers.LayerIs`: the merged windows of a layer are maximal exactly when no period without weeks stands between
  two touching periods of one run.
- `Publication.ReducedNamedOnlyRoleVanishes`: a headcount reduced below what the envelope published may be replayed as
  no capacity at all; `Publication.PublishedExactly` gives the exact condition.
- `Growth.GrowthFailsExactly`: growth that the code admits has no effect exactly on a role without a profile whose
  people outnumber its count by a quantum or more. The recovery loop ends all the same.
- `BacklogCommit.NamesStayUniqueExactly`: an accepted batch keeps sibling names unique exactly when no misled row lands
  on a taken name. A row is misled when other names, written alike, were entered last under its parent's joined path;
  only such a row ends up under a parent it does not name (`ParentBearsNamesExactly`). `BacklogNames` commits a batch
  that leaves two stories of one name. Names without colons mislead no row (`ColonFreeIsUnconfused`).
- `BacklogPaths.WrittenAlikeExactly`: two paths, of features, stories or tasks, are written alike exactly when their
  names, cut at colons, give the same pieces in the same order.
- `ProfileReplace.ValidateReplaceCapacityProfileRequest`: the request validator also passes a planning basis that is the
  name of an inherited object property, and applies the rules of no basis to it; only the database refuses it.
- `BacklogNames.AcceptedTaskIsTyped`: an accepted task is written with a resource type of the project exactly when its
  resource type identifier is not the empty string.
- The `smooth` mode's five smoothing passes never differ from the single pass of `tight` (`Smoothing.PassSettles`).

## Model

| member | source | states |
|---|---|---|
| Scheduler.NamedCapacityFte | server/src/lib/capacity-planner.ts:134-145 | The loop over named people adds up the weekly contribution of each: segments first, physical window before legacy allocation |
| Smoothing.ForwardSweep | server/src/lib/capacity-planner.ts:573-575 | The in-place forward clamp leaves the recursive forward ramp of the old array and reports a change exactly when it wrote one |
| Smoothing.BackwardSweep | server/src/lib/capacity-planner.ts:576-578 | The same for the backward clamp |
| Smoothing.RaiseInPlace | server/src/lib/capacity-planner.ts:579-591 | The two restoring loops raise every period to the greater of its floor and its need |
| Smoothing.SmoothInPlace | server/src/lib/capacity-planner.ts:571-592 | One whole pass on one array equals the pass on values; it stays silent only on a ramp-bounded array above its bound |
| Smoothing.SmoothIsRampMinimum | server/src/lib/capacity-planner.ts:573-578 | Forward then backward gives out[p] = min over q of cap[q] + d * abs(p - q), attained |
| Smoothing.SmoothIsLargest | server/src/lib/capacity-planner.ts:573-578 | That is the largest ramp-bounded sequence below the input |
| Smoothing.SmoothFixed | server/src/lib/capacity-planner.ts:573-578 | Smoothing leaves exactly the ramp-bounded sequences alone |
| Smoothing.PassSettles | server/src/lib/capacity-planner.ts:568-594 | A second pass never changes a value, whatever the bounds, so five passes and one pass agree |
| Smoothing.PassQuietWhen | server/src/lib/capacity-planner.ts:568-594 | The result of a pass is itself ramp-bounded exactly when no bound sticks out above a ramp from the result |
| Smoothing.RampedBoundsSettleAtOnce | server/src/lib/capacity-planner.ts:568-594 | With ramp-bounded bounds below the start, one pass is the plain smoothing and already satisfies ramps and coverage |
| Envelope.SmoothAll | server/src/lib/capacity-planner.ts:567-594 | The pass loop over all roles: every role ends at its first pass's values, and an early stop proves ramps and coverage |
| Envelope.NamedFloorFor | server/src/lib/capacity-planner.ts:509-517 | The loop finds the greatest weekly named capacity of a period |
| Envelope.TotalDemand | server/src/lib/capacity-planner.ts:519-531 | The demand array filled period by period sums to five times each week's period average |
| Envelope.TrimPeriod | server/src/lib/capacity-planner.ts:631-638 | Trimming one period ends, stays between its requirement and its start, moves in whole quanta or onto the requirement, and takes only what the budget calls for |
| Envelope.TrimToBuffer | server/src/lib/capacity-planner.ts:606-640 | The whole trim ends within budget or with every period at or below its requirement, gives way in utilisation order, and never takes a quantum too many |
| Envelope.OrderingOfSort | server/src/lib/capacity-planner.ts:629-630 | Sorting the period indices by utilisation visits every period once, in ascending utilisation |
| Envelope.EnvelopeSandwich | server/src/lib/capacity-planner.ts:535-653 | Every final value lies between max(named floor, min(cap, need)) and max(cap, named floor), or at least at need without a cap |
| Envelope.UncappedRamps | server/src/lib/capacity-planner.ts:567-604 | Uncapped roles whose needs allow it come out as the ramp minimum of their start |
| Envelope.DeriveCapacityEnvelope | server/src/lib/capacity-planner.ts:497-654 | Derives for exactly the planned roles a row that passed every stage: start, smoothing, cap, trim, protection |
| Publication.PublishedIdempotent | server/src/lib/capacity-planner.ts:713-723 | Publishing what was published changes nothing, in every case of role window, named-only role, growth and protected capacity |
| Publication.PublishedExactly | server/src/lib/capacity-planner.ts:1032-1035 | Exactly which headcounts the replay reproduces |
| Publication.ReducedNamedOnlyRoleVanishes | server/src/lib/capacity-planner.ts:160-167 | A named-only role grown by the envelope and reduced again is replayed without any of the growth |
| EnvelopeOutput.HorizonEnd | server/src/lib/capacity-planner.ts:696-706 | The horizon is one week past the later of the output weeks and the last named end, and no later |
| EnvelopeOutput.WeeklyValues | server/src/lib/capacity-planner.ts:709-724 | The weekly array holds the published value of every week |
| EnvelopeOutput.ApplyLocks | server/src/lib/capacity-planner.ts:679-690 | Every coarse period is raised to the locks that touch it and padded to the output periods |
| EnvelopeOutput.PublishTable | server/src/lib/capacity-planner.ts:676-724 | The table of all planned roles: locked envelope, then publication, week by week |
| EnvelopeOutput.SplitRuns | server/src/lib/capacity-planner.ts:726-741 | The run splitter partitions [0, horizon) into ordered gap-free ranges, each inside one coarse period and constant for every role, split only where something changes |
| EnvelopeOutput.PricePeriods | server/src/lib/capacity-planner.ts:743-797 | Cost, peak and staffed FTE-weeks over ranges equal the week-by-week sums and maximum, and the periods carry the table's values |
| EnvelopeOutput.BuildEnvelopeOutput | server/src/lib/capacity-planner.ts:660-802 | The complete output: horizon, table, partition, periods and totals |
| Replay.AddSlots | server/src/lib/capacity-planner.ts:1013-1051 | The nested week and slot loops build the slot windows of the specification |
| Replay.MaterializeRole | server/src/lib/capacity-planner.ts:1004-1073 | One role's replay: people kept, people added, count and cleared profile |
| Replay.SlotsForShares | server/src/lib/capacity-planner.ts:1035-1049 | After merging adjacent weeks every slot still carries, week by week, its share of the shortfall |
| Replay.ReplayedIsReplay | server/src/lib/capacity-planner.ts:1004-1073 | The added people supply exactly the shortfall of every week and nobody added exceeds full time |
| Replay.ReplayEqualsPublication | server/src/lib/capacity-planner.ts:984-1075 | In every week of a published span the replayed people supply the published headcount |
| Replay.PhantomCapacityExactly | server/src/lib/capacity-planner.ts:1065-1073 | The scheduler sees exactly the published headcount in a published week if and only if the role's profile is empty or the role lists enough people for its greatest headcount |
| Replay.NoPhantomCapacity | server/src/lib/capacity-planner.ts:1065-1073 | So it does whenever no preserved person exceeds 100% |
| Replay.OverAllocatedPersonLeavesPhantom | server/src/lib/capacity-planner.ts:1065-1073 | The role the code builds around one person at 250% has more capacity than was published |
| ReplayPlan.MaterializeEnvelopeToResourceTypes | server/src/lib/capacity-planner.ts:984-1075 | All roles of a plan, rebuilt |
| ReplayPlan.SpansMatchPlan | server/src/lib/capacity-planner.ts:992-1002 | The spans collected for a role say in every week what the ordered plan says |
| ReplayPlan.ReplayedSupply | server/src/lib/capacity-planner.ts:1002-1073 | A replayed role supplies the published value where the plan mentions it, and its own people elsewhere |
| ReplayPlan.PublishedPeriods | server/src/lib/capacity-planner.ts:749-789 | Published periods are ordered, cover the horizon, and carry every role's weekly value |
| ReplayPlan.PublishedPlanReplays | server/src/lib/capacity-planner.ts:709-741 | End to end: for every planned role and week of the horizon the rebuilt people supply exactly the published headcount |
| DraftLocks.SplitAndApplyDraftLocks | server/src/lib/capacity-planner.ts:385-453 | The boundary loop computes the split of the specification |
| DraftLocks.SplitHeadcount | server/src/lib/capacity-planner.ts:410-451 | Pointwise: the governing lock's headcount where a lock is active, the original elsewhere |
| DraftLocks.SplitCovers | server/src/lib/capacity-planner.ts:410-451 | The split is ordered and disjoint and covers exactly the old periods and the lock windows |
| DraftLocks.SplitIdempotent | server/src/lib/capacity-planner.ts:1966-1973 | Splitting twice is splitting once |
| DraftSegments.AdaptDraftCapacitySegments | server/src/lib/capacity-planner.ts:265-310 | The sweep over boundaries computes the merged profile of the specification |
| DraftSegments.SyntheticUnseparated | server/src/lib/capacity-planner.ts:178-211 | Between two boundaries nothing changes: named capacity, profile and active edit are constant, in every allocation mode |
| DraftSegments.SweepIsPointwise | server/src/lib/capacity-planner.ts:213-310 | The merged segments are disjoint and maximal, no more than the boundaries, and equal the week-by-week evaluation including the open tail |
| DraftSegments.LockIsRepresented | server/src/lib/capacity-planner.ts:275-307 | A locked week has its headcount exactly when the people fit under it and the rest lies inside the role's windows |
| DraftSegments.RestoreIsIdempotent | server/src/lib/capacity-planner.ts:336-350 | Restoring locks over a profile adapted to them changes no week |
| DraftCapacity.ApplyDraftCapacitySeeds | server/src/lib/capacity-planner.ts:313-334 | The loop seeds every role as specified; the next two rows say what that amounts to |
| DraftCapacity.SeedCountIsGreatest | server/src/lib/capacity-planner.ts:324-327 | A seeded count is the greatest of the role's own and what its edits ask for within the maximum, and no more |
| DraftCapacity.SeededWeek | server/src/lib/capacity-planner.ts:319-332 | What seeding makes of a week without a lock: nothing lost, an edit's request reached exactly under a profile, the seeded count less the people on top of them otherwise |
| DraftCapacity.RestoreDraftLockedCapacity | server/src/lib/capacity-planner.ts:336-350 | Puts the locked profile back over every role that has locks, and leaves every other role alone |
| DraftCapacity.DraftDiagnostics | server/src/lib/capacity-planner.ts:247-298 | The seeding and the floor check raise no diagnostic exactly on a clean draft: locks within maximum and floor, and representable at every boundary |
| DraftCapacity.FitsAtEveryWeek | server/src/lib/capacity-planner.ts:276-298 | Checking the boundaries is checking every week |
| DraftCapacity.LockedWeekIsStaffed | server/src/lib/capacity-planner.ts:1966-1976 | Seed, publish, rebuild and restore: the scheduler sees exactly the locked headcount in a locked week of a clean draft |
| CapConflict.InspectedWeeksSuffice | server/src/lib/capacity-planner.ts:1336-1355 | Inspecting the weeks around every start and end is enough to know that named capacity never exceeds the maximum |
| CapConflict.FindCapConflict | server/src/lib/capacity-planner.ts:1326-1383 | Finds a demanded role whose people exceed its maximum in an inspected week, or shows that none ever does |
| Growth.AugmentAtMostOneQuantum | server/src/lib/capacity-planner.ts:897-939 | One growth step adds between nothing and one quantum in its week and never passes a maximum it had not already passed |
| Growth.GrowthFailsExactly | server/src/lib/capacity-planner.ts:1459-1471 | Growth that is admitted is without effect exactly for a role without a profile whose people outnumber its count by a quantum |
| Growth.RaiseRole | server/src/lib/capacity-planner.ts:1526-1547 | The inner raise loop ends, strictly raises with every kept step, and stops at the useful bound or where a step with its locks restored gains nothing |
| Growth.ProbeShrinks | server/src/lib/capacity-planner.ts:1495-1524 | A new probe shrinks what unchanged resource types can still offer |
| Growth.Recover | server/src/lib/capacity-planner.ts:1474-1563 | The recovery loop ends although one path counts no attempt; it ends with a schedule, out of attempts, or with nothing left to try |
| Growth.GrowToTarget | server/src/lib/capacity-planner.ts:1750-1849 | The growth loop keeps the soonest schedule with the types it was planned on, and stops at the target, at the limit, or when no candidate is left |
| Reduction.PlanChange | server/src/lib/capacity-planner.ts:1915-1926 | Changing one slot moves staffed FTE-weeks by its share times the width and removable quanta by its own |
| Reduction.CommitMoves | server/src/lib/capacity-planner.ts:1936-1944 | A commit lowers staffed FTE-weeks by one quantum times the period width and removable quanta by one, and touches no other slot |
| Reduction.TrySlot | server/src/lib/capacity-planner.ts:1905-1945 | One trial commits exactly an allowed, feasible, in-time removal and otherwise proves the slot stuck: locked, at its minimum, infeasible or late |
| Reduction.BudgetSuffices | server/src/lib/capacity-planner.ts:1891-1900 | (removable + 1) * slots trials are enough for every pass |
| Reduction.ReduceCapacity | server/src/lib/capacity-planner.ts:1854-1954 | The search ends by itself, never by its budget, at a plan where every slot is stuck; every committed step is a legal one and the result is backed by the planner within target |
| JointPlan.BuildResult | server/src/lib/capacity-planner.ts:1595-1661 | The published plan is ordered and numbered, and says in every week what its schedule's envelope publishes, or the headcount of the lock that governs there |
| JointPlan.PublishedPlanFits | server/src/lib/capacity-planner.ts:535-653 | Such a plan is nowhere below the people of its week and nowhere above a role's maximum, people excepted, as long as its locks are not |
| PlanBounds.RunFits | server/src/lib/capacity-planner.ts:1868-1945 | A whole run of removals keeps both bounds in every week |
| PlanBounds.SplitFits | server/src/lib/capacity-planner.ts:410-451 | So does splitting at locks that respect them |
| JointPlan.PeopleIgnoreCosts | server/src/lib/capacity-planner.ts:1663-1732 | Adopting a validated schedule leaves the people the plan stands for unchanged |
| JointPlan.Reconcile | server/src/lib/capacity-planner.ts:1960-2003 | The last run is made on the people of exactly the returned periods, with the locks restored and shown |
| JointPlan.ComputeJointPlan | server/src/lib/capacity-planner.ts:1282-2076 | For any planner: a claimed target is the planner's own delivery on types built from the returned periods, within target, from a clean draft, with every lock at its headcount, no headcount above the maximum of a demanded role and none below the people of its week; without locks a validated reduction is never lost |
| JointPlan.AchievedPlanStaffsItsLocks | server/src/lib/capacity-planner.ts:1966-1976 | In such a plan the scheduler has exactly the locked headcount in every locked week, if edits of a role do not overlap |
| PlanLayers.BuildLayer | server/src/lib/capacityPlanMaterialisation.ts:66-86 | The merge loop over one layer: windows ordered, disjoint and within the tolerance of the layer's share in every week, and maximal exactly when no empty period splits a run |
| PlanLayers.LayerHolds | server/src/lib/capacityPlanMaterialisation.ts:66-86 | In every week a layer carries exactly what the run of the week's period holds, a recursion over period headcounts |
| PlanSlots.DeriveExactSlotWindows | server/src/lib/capacityPlanMaterialisation.ts:59-92 | Exact slot windows are in (0, 100] and carry 100 times the headcount to within the tolerance per slot |
| PlanSlots.QuantumWindows | server/src/lib/capacityPlanMaterialisation.ts:100-140 | Layers of one quantum carry exactly the headcount's quanta in every week |
| PlanSlots.GroupWindows | server/src/lib/capacityPlanMaterialisation.ts:142-147 | Grouping equal windows keeps every week's percentage |
| PlanSlots.SplitGroup | server/src/lib/capacityPlanMaterialisation.ts:150-168 | The chunk loop ends and splits a group into full chunks and one remainder without changing any week |
| PlanSlots.DeriveSlotWindows | server/src/lib/capacityPlanMaterialisation.ts:94-174 | Slot windows are in (0, 100] and conserve the plan: exactly when quarter-aligned, within the tolerance per slot otherwise |
| PlanViews.MaterializeResourceTrajectories | server/src/lib/capacityPlanMaterialisation.ts:221-294 | The trajectories stack up the plan's layers, each ordered and disjoint, and maximal exactly when no empty period splits a run |
| PlanViews.TrajectoriesConserve | server/src/lib/capacityPlanMaterialisation.ts:221-294 | Their percentages sum to 100 times the headcount, exactly when aligned, within the tolerance per slot otherwise |
| PlanViews.TrajectoryHolds | server/src/lib/capacityPlanMaterialisation.ts:221-294 | In every week a trajectory carries exactly what the run of the week's period holds |
| PlanViews.TrajectoryStaircase | server/src/lib/capacityPlanMaterialisation.ts:263-292 | A trajectory is active only in weeks where the one below it is full: at 100% whenever the shares are separated, as in quarters and hundredths, and within the tolerance of it always |
| PlanAgreement.WeeklyHeadcount | server/src/lib/capacityPlanMaterialisation.ts:192-201 | The weekly map holds the plan's weeks and total days are five times its sum |
| PlanAgreement.MaterializeCapacityPlanResources | server/src/lib/capacityPlanMaterialisation.ts:176-219 | Materialises every role with all its views |
| PlanAgreement.MaterializeRoleCapacitySegments | server/src/lib/capacityPlanMaterialisation.ts:311-347 | The role profile is ordered, disjoint, maximal and tracks the weekly map |
| PlanAgreement.ViewsAgree | server/src/lib/capacityPlanMaterialisation.ts:176-219 | Role profile, weekly map, slot windows and trajectories agree in every week, within the stated tolerances |
| PlanAgreement.QuarterPlansAgreeExactly | server/src/lib/capacityPlanMaterialisation.ts:94-174 | For plans in exact quarters all views are equal in every week |
| PlanFallback.ShouldFallbackToActiveCapacityPlan | server/src/lib/capacityPlanMaterialisation.ts:384-410 | With windowed resources it declines exactly when persisted and planned headcount agree in every week, not only in the scanned ones |
| PlanRoundTrip.RoundTripExactly | server/src/lib/capacityPlanMaterialisation.ts:59-92 | The persisted windows of a plan match it in every week exactly when no period's drift is above the tolerance |
| PlanRoundTrip.PersistAndCheck | server/src/lib/capacityPlanMaterialisation.ts:384-410 | Persisting a plan's slot windows makes the fallback decline exactly when there is a window and no period drifts too far |
| PlanRoundTrip.ModestPlansSurvive | server/src/lib/capacityPlanMaterialisation.ts:76-80 | Quarter-aligned plans and plans of up to 100 slots never drift too far |
| PlanRoundTrip.SeparatedPlansSurvive | server/src/lib/capacityPlanMaterialisation.ts:76-80 | Nor do plans of any size whose slot shares are equal or clearly apart |
| PlanRoundTrip.PublishedPlansSurvive | server/src/lib/capacityPlanMaterialisation.ts:76-80 | Nor do plans of any size in whole hundredths, which is how the engine publishes them |
| PlanRoundTrip.LadderBreaksTheRoundTrip | server/src/lib/capacityPlanMaterialisation.ts:76-80 | For every number of slots above 100 there is a plan that drifts too far, so that its persisted windows do not match it |
| BacklogTree.UniqueChildFound | server/src/lib/backlogGrid.ts:113-116 | Among uniquely named siblings a name finds its node and no other |
| BacklogValidation.CheckRows | server/src/lib/backlogGrid.ts:184-229 | The row loop is silent exactly when every row is good, no identifier repeats and no new path repeats |
| BacklogValidation.CheckParentsOf | server/src/lib/backlogGrid.ts:245-279 | The parent checks of a new row are silent exactly when its parents resolve and its name is free among existing siblings |
| BacklogValidation.CheckProposedPaths | server/src/lib/backlogGrid.ts:356-384 | Collecting claims path by path is silent exactly when no row shares its final path with another row or an unmentioned node |
| BacklogValidation.ValidateBacklogGrid | server/src/lib/backlogGrid.ts:174-388 | Reports no error exactly on accepted batches |
| BacklogCommit.AcceptedParentsResolve | server/src/lib/backlogGrid.ts:445-470 | After validation the parent of every new row is found: none of the three unresolved-parent errors is reachable |
| BacklogCommit.ParentBearsNamesExactly | server/src/lib/backlogGrid.ts:446-472 | The parent a row is written under bears the names the row gives exactly when the row is not misled by a path written alike |
| BacklogCommit.ProposedUnderExisting | server/src/lib/backlogGrid.ts:294-355 | Where the commit puts a row that is not misled, below an existing node, is the path the validator proposed for it |
| BacklogCommit.NamesStayUniqueExactly | server/src/lib/backlogGrid.ts:433-482 | An accepted batch leaves sibling names unique at every level exactly when no misled row lands on a taken name |
| BacklogCommit.CommitKeepsNamesUnique | server/src/lib/backlogGrid.ts:433-482 | A batch that misleads no row keeps them unique, under renamed ancestors too |
| BacklogCommit.UnconfusedMisleadsNobody | server/src/lib/backlogGrid.ts:413-418 | No row is misled where no two paths in use are written alike |
| BacklogCommit.ColonFreeIsUnconfused | server/src/lib/backlogGrid.ts:413-418 | Between names without colons no two paths are |
| BacklogCommit.ExistingKeepTheirPlace | server/src/lib/backlogGrid.ts:433-482 | Every existing item keeps its parent, and its name unless the batch submits it |
| BacklogCommit.CommitKeepsTreeSound | server/src/lib/backlogGrid.ts:433-482 | Identifiers stay unique and every parent reference keeps pointing at a row |
| BacklogCommit.Backlog.CommitKind | server/src/lib/backlogGrid.ts:433-482 | Writing the rows of one level updates and appends exactly that level's table |
| BacklogCommit.Backlog.CommitBacklogGrid | server/src/lib/backlogGrid.ts:390-485 | A rejected batch writes nothing; an accepted one always commits, with the results above |
| BacklogPaths.WrittenAlikeExactly | server/src/lib/backlogGrid.ts:413-418 | Exactly when two paths of any kinds of names are written alike: cut at colons their names give the same pieces |
| BacklogPaths.JoinIsFaithful | server/src/lib/backlogGrid.ts:219-225 | Between names without colons joined paths are as good as the names |
| BacklogPaths.FeaturesConfused | server/src/lib/backlogGrid.ts:416-416 | For features: a colon has moved across the boundary between epic and feature name |
| BacklogNames.ConfusingBatchDuplicates | server/src/lib/backlogGrid.ts:456-466 | A batch on a uniquely named tree that the validator accepts and after which two stories of one feature have one name |
| BacklogNames.AcceptedTaskIsTyped | server/src/lib/backlogGrid.ts:203-211 | Exactly when an accepted task is written with a resource type of the project |
| ProfileSweep.SweepFindsOverlap | server/src/lib/capacityProfileStructureValidation.ts:265-281 | The sweep reports exactly when some range starts inside what came before it |
| ProfileSweep.SweepDecidesOverlap | server/src/lib/capacityProfileStructureValidation.ts:265-281 | On ranges sorted by start the farthest-end sweep is silent exactly when all ranges are pairwise disjoint |
| ProfileSweep.SortedSweepDecides | server/src/lib/capacityProfileStructureValidation.ts:255-281 | Sorting first, by either of the two sort keys in use, decides disjointness of the ranges as given |
| ProfileSweep.DisjointOrderFree | server/src/lib/capacityProfileStructureValidation.ts:255-281 | The answer does not depend on input order |
| ProfileStructure.ValidateProfileStructure | server/src/lib/capacityProfileStructureValidation.ts:100-285 | No error exactly on well-formed profiles: one owner of the right kind in the project, valid fields, segments fitting the basis, sound and disjoint |
| ProfileReplace.ValidateReplaceCapacityProfileRequest | server/src/lib/capacityProfileReplaceValidator.ts:58-281 | No error exactly on acceptable requests and on those whose planning basis is an inherited property name, with valid scalars and segments |
| ProfileReplace.AcceptedRequestsAreWellFormed | server/src/lib/capacityProfileReplaceService.ts:246-327 | What the request validator accepts with a basis the database can store is, once written for an owner of the project, accepted by the structural rules |
| ProfileReplace.ProfileStore.CreateSegments | server/src/lib/capacityProfileReplaceService.ts:275-286 | Stores one row per range in sorted order and touches no other profile's segments |
| ProfileReplace.ProfileStore.DeleteSegments | server/src/lib/capacityProfileReplaceService.ts:272-273 | Deletes the profile's segments and no others |
| ProfileReplace.ProfileStore.ReplaceCapacityProfile | server/src/lib/capacityProfileReplaceService.ts:78-327 | Replaces exactly when the project may be edited, the owner is known with at most one profile, owned as requested, a role's old profile is structurally valid with one profile for each of its people, and the basis can be stored; otherwise refuses without a trace. A replacement changes one profile and leaves it well-formed |
| OwnershipAudit.SemanticEqualityIs | server/src/lib/capacityProfileOwnershipAudit.ts:149-173 | Semantic equality is equal scalar fields and equal segment multisets |
| OwnershipAudit.SemanticEqualityIsAnEquivalence | server/src/lib/capacityProfileOwnershipAudit.ts:149-173 | Reflexive, symmetric, transitive |
| OwnershipAudit.OneReferenceSuffices | server/src/lib/capacityProfileOwnershipAudit.ts:327-328 | Comparing every member with one of them proves the whole group alike |
| OwnershipAudit.SurvivorIsEarliest | server/src/lib/capacityProfileOwnershipAudit.ts:178-185 | The survivor is the earliest created member, the smaller id breaking ties |
| OwnershipAudit.NothingViolatedIffValidShape | server/src/lib/capacityProfileOwnershipAudit.ts:289-305 | The audit's own row checks and the shape test used for grouping agree |
| OwnershipAudit.CheckProfile | server/src/lib/capacityProfileOwnershipAudit.ts:376-452 | Reports exactly the findings that apply to a row |
| OwnershipAudit.ClassificationDecides | server/src/lib/capacityProfileOwnershipAudit.ts:315-349 | A group is repairable exactly when its rows are all valid and pairwise the same state |
| OwnershipAudit.RunOwnershipAudit | server/src/lib/capacityProfileOwnershipAudit.ts:359-567 | Groups, findings and verdict of an audit, complete over every owner |
| OwnershipAudit.NoErrorIffRepairable | server/src/lib/capacityProfileOwnershipAudit.ts:359-567 | No error finding exactly when the only trouble is identical duplicates |
| OwnershipAudit.CleanIffOneRowEach | server/src/lib/capacityProfileOwnershipAudit.ts:562-565 | Clean exactly when every row is valid and no owner has two |
| OwnershipRepair.EachOwnerKeepsItsEarliest | server/src/lib/capacityProfileOwnershipRepair.ts:86-97 | Every row of a repairable store is represented by exactly one survivor of its owner, in the same state, no later than it |
| OwnershipRepair.FreshGroupCurrent | server/src/lib/capacityProfileOwnershipRepair.ts:49-84 | A repairable group of an up-to-date report passes every re-check |
| OwnershipRepair.CleanMeansRepaired | server/src/lib/capacityProfileOwnershipRepair.ts:99-110 | A clean final audit means that exactly the survivors of a repairable store are left |
| OwnershipRepair.SecondRunDoesNothing | server/src/lib/capacityProfileOwnershipRepair.ts:34-36 | On a clean store a second audit finds nothing to repair |
| OwnershipRepair.VerifyGroup | server/src/lib/capacityProfileOwnershipRepair.ts:52-84 | The re-check passes exactly when size, ids and state of the group are unchanged |
| OwnershipRepair.ProfileTable.Audit | server/src/lib/capacityProfileOwnershipAudit.ts:359-567 | The audit of the stored table and what its verdict means |
| OwnershipRepair.ProfileTable.RepairIdenticalDuplicates | server/src/lib/capacityProfileOwnershipRepair.ts:30-122 | Aborts and changes nothing, or leaves exactly every owner's earliest row; with an up-to-date report it succeeds exactly on repairable stores |

## Left out

- ReduceCapacity: periods are numbered in order and mention a role once, as the output builder and the lock split produce them.
- ComputeJointPlan: draft edits are taken as accepted, with finite nonempty windows, known roles and nonnegative headcounts; sorting them is not modelled. A first schedule that never completes, on which the original fails with a range error, gives an empty plan here. That a validated reduction survives the reconciliation is stated for drafts without locks; with locks the reconciliation shows the planner profiles in place of counts, on which an arbitrary planner may decide differently.
- AchievedPlanStaffsItsLocks: assumes that edits of one role do not overlap, which the planning route checks before calling.
- ReplaceCapacityProfile: writes the requested owner's own row only; the inherited named-resource clones and the classification of named resources before a role update are not modelled.
- Resource types are looked up by first match; distinct identifiers are assumed where the code's maps would keep the last of several equal ones.
- Diagnostics texts, period labels, utilisation and demand figures of a period, the budget flag, the schedule preview and rounding of displayed costs.
- The single-shot plan without the joint loop, which repeats the same envelope, output and lock steps once.
- The all-segments growth and reduction helpers, which the joint loop does not call.
- The counting of planner iterations and valid singletons in reports, and the order in which findings and groups are listed.
- Matching of trajectories to existing named resources by index.
- Row descriptions, assumptions, active flags, order counters, effort and duration values of committed backlog rows, the snapshot before a commit, and parsing of incoming rows.
- The transaction, locking and isolation of the database: every repair, replacement and commit is one atomic step here.
- The insides of the planner, the leveller and the named-resource classifier.
- Not-a-number and infinite values outside profile fields, and the rounding of floating-point arithmetic.
