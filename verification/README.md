# Verification of the foreman dispatch bridge

The bridge is a stateless CronJob. Each tick it reads Foreman Workloads from a Kubernetes cluster and
issues from Dispatch, and it moves both along: it claims issues and renders Workloads for them, retries
Failed ones, settles and retries pull-request fixes, recovers issues parked for a broken model, moves
finished issues to review, sweeps up stranded claims and prunes tombstones. Everything it remembers is
written into Workload annotations and issue labels, so a tick is a step of a protocol over a world in
which every call may fail, be lost, or raise after it took effect.

The model keeps that shape. `Cluster`, `CoderLoad`, `Dispatch`, `LabelStore`, `Tracker`, `Register`, `Desk`, `Lanes`
and `Tombstone` are the objects the passes write to; each pass is a method with the source's loop and
branches. Where a pass decides something, the decision is a function (`Retry.Decide`, `PrFix.DecideFix`)
and the method is proved to carry out exactly that function, so the laws about the function are laws
about the pass. What the world answers is a parameter (`Answers`, `FixAnswers`, `InfraAnswers`, ...): every
theorem holds for every combination of success, refusal and exception, including deletes that raise
after the object is gone and creates that raise after it was stored.

| file | subject |
|---|---|
| `Outcomes`, `Text`, `Workloads`, `Registers` | replies, decimal annotations, the Workload and the cluster, Dispatch's issue table |
| `Slug`, `Build`, `Readings`, `Coders`, `Picks`, `Saturation`, `Topology` | names, manifests and what is read off them, coder slots, who is picked, what the capacity check is worth, lanes |
| `Retry`, `RetryLaws`, `Verdicts`, `RetryRuns` | the issue retry machine: one Workload, one pass, its cases one by one, whole runs |
| `PrFix`, `PrFixPasses`, `PrFixLaws`, `Ladder`, `PrFixRuns`, `Mergeability`, `Probes` | the pr-fix machine, its cases one by one, and its merge probe |
| `Claims`, `Turns`, `LoadIndex`, `LaneQueues` | claiming, what each turn claims, counting busy coders, the lane queues |
| `SlotBounds`, `Occupancy`, `Bids` | what the passes charge to a coder, what they really put on it, and how far the answers alone tell |
| `Infra`, `Markers`, `InfraPass`, `Redrives`, `Prune` | the label countdown, the redrive that ends it, and the terminal-since clock |
| `Parking`, `ReviewTransition`, `Stranded` | parking, review transition, and the sweeps |
| `Ticks`, `Stages` | one tick from the load count to the sweep, with every exception that can end it, and what each leaves undone |
| `Backoff` | the capped geometric retry of HTTP calls |

## Where the code and its own words differ

The model follows the code. Each of these is stated by the member named.

- `bridge/workload.py:376` calls the slug distinct for case variants; it is not (`Slug.SlugNotInjective`,
  `Slug.SlashMergesWithDash`). `Slug.SlugCollision` says exactly when two spellings of one name collide,
  `Slug.SlugsMeetExactly` when any two names do.
- `bridge/main.py:1088-1092` promises one shared load; `run_once` counts on a copy (`bridge/main.py:449`),
  so a drain can fill a slot a claim has just taken (`SlotBounds.CopyHidesClaims`). `Ticks.TickOverfillsExactly`
  says when a tick does.
- The saturation check before a claim looks at the lane id and the wildcard only. It is enough for every
  load exactly when all agents it looks at belong to the entry that decides (`Saturation.CheckSufficesExactly`).
- A create that raises after it was stored is charged to nobody, so the next retry of the same pass can
  overfill a coder (`Bids.UnrecordedOverfills`); `Bids.RetryOverfillsExactly` says when it does.
- `bridge/reconcile.py:102` says that Dispatch grants a claim to the agent that holds it. The claim loop never
  drops a claimed item from its queue, so it then claims its first item until the cap (`Claims.SpentOnOne`), and
  without a cap for ever (`Claims.NeverEnds`).
- A repeated NO-GO deletes its Workload even when the park failed (`bridge/retry.py:984-1000`), and a
  delete may raise after the object is gone. `RetryLaws.LostExactly` gives the guards under which an issue
  loses its Workload, and `Ticks.RunTick` the ticks on which the sweep brings it back.
- `bridge/retry.py:1071-1074` promises that one bad Workload does not abort the rest of the pass.
  `bridge/main.py:997` lists tasks outside its handler, so it does, exactly when a Workload that gets as far
  as its retry has an unreadable task list (`RetryLaws.PassAbortsExactly`, `RetryLaws.AbortLeavesTheRest`).
- `bridge/review_transition.py:174-175` promises the same of the review pass and `bridge/review_transition.py:186`
  breaks it in the same way (`ReviewTransition.EndsExactly`); the tick then ends before its sweep.
- `redrive_infra` lets Foreman overwrite the task branch without evidence that it was pushed
  (`InfraPass.RedriveNeedsNoEvidence`); a retry never does (`RetryLaws.RetryIsSafe`).
- `prune_workloads` resets an issue even when deleting its Workload raised (`Prune.ResetExactly`).
- `park_infra` means to announce itself, but looks for a park only after writing one, so with lookups that
  reflect the write it never does (`Parking.InfraParkIsSilent`). It also takes `needs-human` off.
- The GO-without-PR path ignores a refused status write and a failed lookup, and can announce the same park on
  every tick (`Parking.MisfiresExactly`, `Parking.AnnouncedTwice`).
- The infra recovery hands an issue to a human without looking for an earlier park, and again while the markers
  cannot be taken off (`InfraPass.HandedOverAgain`).
- A stamp PATCH that lands after others were lost puts a delete that was already due off by a TTL
  (`Prune.LandedStampPostpones`).
- `failure_signature` promises an empty string without feedback; it never returns one (`PrFix.FailureSignature`).
- `bridge/main.py:1276` hands raw queue entries to `failure_signature`, which finds no attributes on them,
  so at most one retry of a lineage can ever count as progress (`PrFixRuns.RunProgressesOnce`), and one can
  although the failure is the same (`PrFixLaws.RawProgressExactly`).
- The recreation bound of a fix is smaller than one attempt budget per tier and progress step: a progress
  step starts at attempt 1 of the same tier (`PrFixLaws.FreshPotentialBelow`), and the smaller bound is
  reached (`PrFixLaws.PotentialIsReached`).
- `_extract_pr_url` says "any succeeded task" and reads any task (`ReviewTransition.FailedTaskReviews`).

## Model

| member | source | states |
|---|---|---|
| `Text.IntTextRoundTrip` | bridge/retry.py:329-349 | a counter written into an annotation as decimal text is read back by Python's `int()` as the same number, negative ones included |
| `Text.NatTextInjective` | bridge/workload.py:413-464 | different step numbers never print alike |
| `Slug.CasePreservingSlug` | bridge/workload.py:369-385 | the character loop builds the slug that the collision theorems are about |
| `Slug.SlugCollision` | bridge/workload.py:369-405 | two spellings of one repo share a slug exactly when every maximal run of u/U, taken with the character after it, holds equally many capitals in both |
| `Slug.SlugsMeetExactly` | bridge/workload.py:369-405 | any two names, of whatever length, share a slug exactly when they have the same characters besides u/U, up to case and slash, and write equally many letters u before each of them and at the end |
| `Slug.SlugNotInjective` | bridge/workload.py:369-385 | `Ubuntu` and `uBuntu` get one slug |
| `Slug.CapitalLooksLikeU` | bridge/workload.py:369-385 | every capital in a name looks like a u followed by its small letter, so `o/Bar` and `o/ubar` meet |
| `Slug.SlashMergesWithDash` | bridge/workload.py:369-385 | for any owner and repo, slash and dash spellings get one slug |
| `Slug.UnslugRoundTrip` | bridge/workload.py:369-385 | on names without u/U an explicit decoder recovers the name up to the slash |
| `Slug.CaseVariantsWithoutUDiffer` | bridge/workload.py:369-385 | case variants of a name without u/U never collide |
| `Slug.AlreadyLower` | bridge/workload.py:369-385 | a lowercase name changes in nothing but its slash |
| `Slug.NameCarriesIssue` | bridge/retry.py:553-569 | the number read off the end of a Workload name is the issue number it was named for |
| `Slug.NameCollision` | bridge/workload.py:388-405 | two issues share a Workload name exactly when slug and number agree |
| `Slug.BranchCollision` | bridge/workload.py:408-410 | and so do two branches |
| `Build.PipelineSteps` | bridge/workload.py:413-464 | the step loop builds the pipeline the ordering theorem is about |
| `Build.PipelineIsOrdered` | bridge/workload.py:413-464 | for any reviewer list all step names differ and every dependsOn names exactly one step, an earlier one |
| `Build.BuiltWorkloadReadsBack` | bridge/retry.py:572-592 | reading a rendered Workload gives back the issue, both counters and the number in its name, in both shapes |
| `Build.BuiltWorkloadIsSafe` | bridge/workload.py:467-564 | allowOverwrite holds exactly when reviseFromBranch is set, on the spec and its coding step, and the pipeline is ordered |
| `Build.BuiltWorkloadNamesCoder` | bridge/main.py:598-625 | in both shapes the load accounting finds the coder the Workload was rendered for |
| `Build.PipelineWorks` | bridge/workload.py:413-464 | every step works on the issue's branch, the coder step is prompted with the feedback and staffed with the coder, exactly the review steps open the pull request, and overwriting is as asked |
| `Build.BuiltWorkloadWorks` | bridge/workload.py:467-564 | reviseFromBranch is that branch or absent, and either the pipeline is the one above or, without feedback, the steps are left to Foreman with both coders named |
| `Readings.BuiltWorkloadCarries` | bridge/workload.py:467-564 | every rendered Workload carries the issue, the lane, the self-go list, and the gate profile of its repo, else the wildcard's |
| `Readings.LanguageIs` | bridge/main.py:477 | only the repo's own gate profile says which language routes its work |
| `Readings.CounterIs` | bridge/retry.py:329-349 | a counter that is absent, unreadable or below 1 reads as 1, any other as it is |
| `Readings.ItemIs` | bridge/retry.py:572-592 | the issue read off a Workload, its number from the name when it lists no issue |
| `Readings.CoderIs` | bridge/main.py:598-625 | the coder of a Workload is the one its spec names, else that of the first coding step that names one, else nobody |
| `Readings.StripIs` | bridge/lanes.py:44-68 | what is kept of a text field is what stands between the space at its start and the space at its end |
| `Readings.SpacesAre` | bridge/prfix.py:98-115 | which ASCII characters count as space |
| `Workloads.Cluster.Delete` | bridge/main.py:114-152 | a delete removes the object and nothing else; it can raise with the object kept or gone |
| `Workloads.Cluster.Create` | bridge/main.py:781-789 | a create stores under a free name only; a taken name (409) counts as done |
| `Workloads.CoderLoad.Draw` | bridge/retry.py:1116-1117 | a draw charges one coder by one |
| `Coders.FilterFixFirst` | bridge/workload.py:162-194 | the fix-first filter keeps what it should, in order |
| `Coders.DropBusyFixFirst` | bridge/workload.py:235-285 | the second, inline fix-first filter agrees with the first on every input |
| `Coders.MaxFreeIsMaximum` | bridge/workload.py:262-285 | the capacity picked for is the highest free capacity and some agent has it |
| `Coders.PickCoder` | bridge/workload.py:235-285 | the picking loop returns the chosen agent, with all its fallbacks; `Picks` says by the issue number which one that is |
| `Coders.ChosenIsIdlest` | bridge/workload.py:235-285 | with slots, the agent picked passes the fix-first filter and none that passes it has more free slots |
| `Coders.ChosenHasFreeSlot` | bridge/workload.py:224-285 | a non-empty, unsaturated list yields an agent with a free slot |
| `Coders.CoderFor` | bridge/workload.py:288-357 | the coder is the choice of the first tier (lane entry, repo, language, wildcard) that names anybody, and the default when none does |
| `Picks.LookupOrder` | bridge/lanes.py:104-126 | a lane's own id goes before its role, and the role before the wildcard |
| `Picks.TiersAre` | bridge/workload.py:288-357 | the four entries looked at, in order: lane, repo, language or its wildcard, lane wildcard |
| `Picks.PickedInTurn` | bridge/workload.py:262-285 | among the kept agents with the highest free capacity, all of them without slots, exactly issue mod their number stand before the one picked |
| `Picks.PickedByNumber` | bridge/workload.py:281-285 | without slots and fix-first agents the pick is the agent at position issue mod the length of the list |
| `Picks.EachIsReached` | bridge/workload.py:262-285 | as many issues in a row as there are tied agents reach every one of them |
| `Picks.NoneTwice` | bridge/workload.py:262-285 | and none of them twice, when the list has no repeats |
| `Coders.UnsaturatedLaneHasSlot` | bridge/main.py:462-490 | when the lane tier decides, passing the check before the claim means the coder picked after it has a slot |
| `Coders.RoleTierEscapesCheck` | bridge/workload.py:197-232 | an instance: a role-keyed map passes the check and still routes to a full coder |
| `Saturation.CoderIsSettled` | bridge/workload.py:288-357 | without fix-first agents the deciding entry depends on the configuration alone, and the coder is the choice from it |
| `Saturation.CheckSufficesExactly` | bridge/main.py:460-484 | for every routing: passing the check means a free coder for all loads, if and only if the check looks at somebody and at nobody the deciding entry does not list |
| `Saturation.UncoveredEscapes` | bridge/main.py:460-484 | otherwise the load that fills the deciding entry passes the check and routes to a full coder, whichever tier decides |
| `Saturation.LaneTierIsCovered` | bridge/workload.py:197-232 | a lane mapped by its own id, or by the wildcard with no role entry in the way, meets that condition |
| `Saturation.CoderIsReachable` | bridge/workload.py:288-357 | whatever the load, capacities and fix-first agents, work goes only to coders the lane's maps list, or the default |
| `Topology.Lanes.SetTopology` | bridge/lanes.py:44-68 | the last non-empty role of a lane counts, claimable lanes keep their order |
| `Topology.Lanes.ResetTopology` | bridge/lanes.py:71-75 | no lane holds any role afterwards |
| `Topology.Lanes.LaneForRole` | bridge/lanes.py:85-96 | a claimable lane with the role is found exactly when one exists, and it is the only one when roles are unique |
| `Topology.Lanes.EscalationLane` | bridge/lanes.py:145-159 | configuration wins; otherwise escalation is on exactly when a claimable lane has the role |
| `Topology.Lanes.ResolveLanes` | bridge/main.py:1513-1518 | a discovered escalation lane is among the polled lanes whenever those are discovered too |
| `Topology.ClaimableExactly` | bridge/lanes.py:44-68 | a lane counts as claimable exactly when some row with its id says so |
| `Topology.RoleExactly` | bridge/lanes.py:44-68 | a lane's role is the one the last row with a role for it gives, whatever rows come after |
| `Retry.FindPush` | bridge/main.py:980-1025 | evidence is found exactly when the branch exists or a task shows a push; an unreadable task list raises |
| `Retry.ParkExhausted` | bridge/retry.py:287-326 | parked exactly when found parked or parked now; a lookup that raises parks nothing |
| `Retry.StopEarly` | bridge/retry.py:720-926 | closed issue, declared human and demoted review stop a retry in this order, and only once parked |
| `Retry.GiveUpOrEscalate` | bridge/retry.py:1002-1051 | the exhausted branch: escalate, park or keep, and the delete that follows each; `RetryLaws.EscalatesExactly` says which |
| `Retry.Rerender` | bridge/retry.py:1062-1115 | reading the counters back from the next manifest shows only that of the failure's own kind moved, by one |
| `Retry.Replace` | bridge/retry.py:1090-1124 | delete, then create, then charge, stopping at the first that raises |
| `Retry.ReconcileOne` | bridge/retry.py:694-1124 | for every answer of every hook the loop body does what the decision says to cluster, load and result |
| `Retry.ReconcileFailures` | bridge/retry.py:616-1125 | the loop is the fold of the decision over the listing; an escaping exception ends it where it stands |
| `RetryLaws.RetryReadsBack` | bridge/retry.py:1052-1115 | a retry is the same issue under the same name with one counter raised by one and the other untouched |
| `RetryLaws.RetryIsSafe` | bridge/retry.py:1065-1115 | a retry overwrites only what it starts from, and exactly when its branch exists on the remote or one of its tasks shows a push |
| `RetryLaws.DecisionIsSound` | bridge/retry.py:694-1124 | every decision keeps, retires after a reported park, hands over after a reported escalation, or recreates within budget; the one exception is a repeated NO-GO |
| `RetryLaws.EscalatesExactly` | bridge/retry.py:1002-1051 | told by configuration and Workload: with the budget spent and no stop, infra error or repeated NO-GO, it is handed over exactly when an escalation lane is set, its current lane is another, its id is known and escalating worked; it is kept exactly when escalating raised or the park did not hold, and retired otherwise |
| `RetryLaws.EscalatedOnlyOnce` | bridge/retry.py:1010-1015 | on the escalation lane the decision is the same whatever escalating would answer, and never a second hand-over |
| `RetryLaws.HandleConserves` | bridge/retry.py:694-1125 | for every pattern of answers a Failed Workload is kept, replaced by its retry, handed off by a hook that reported success, or one of the named losses |
| `RetryLaws.LostExactly` | bridge/retry.py:984-1124 | a Workload vanishes without a hand-off exactly when a second NO-GO could not be parked and its delete took effect, or a retry with a free coder was deleted and not stored; both told by the inputs alone |
| `RetryLaws.AbortsExactly` | bridge/main.py:980-1025 | an exception escapes exactly when a Workload reaches its retry with an unreadable task list |
| `RetryLaws.PassAbortsExactly` | bridge/retry.py:1065-1074 | the pass ends early exactly when that is so for some listed Workload |
| `RetryLaws.AbortLeavesTheRest` | bridge/retry.py:1065-1074 | the first such Workload and all after it stay exactly as listed and are not reported |
| `RetryLaws.UnreadableTasksAbort` | bridge/main.py:997 | a Workload on its first attempt with an unreadable task list ends the pass and changes nothing |
| `RetryLaws.PassFrame` | bridge/retry.py:616-1125 | a pass touches no name it does not list |
| `RetryLaws.PassConserves` | bridge/retry.py:616-1125 | after the whole pass every listed Workload is accounted for, even when an exception cut the pass short |
| `Verdicts.ReadsExactly` | bridge/retry.py:195-242 | the three reasons a coder can give, in any case and with space around them, and nothing else |
| `Verdicts.DeclaresExactly` | bridge/retry.py:213-242 | the reason of the first coding task that gives one counts |
| `Verdicts.InfraGivesUp` | bridge/retry.py:927-983 | an infra failure past its own budget is parked as such, and retired exactly when that is reported |
| `Verdicts.SecondNoEnds` | bridge/retry.py:984-1000 | a NO-GO on a second attempt retires the Workload whether or not the park holds |
| `Verdicts.RetriesExactly` | bridge/retry.py:1052-1124 | a Workload no reason stops and with budget of its kind left is recreated exactly when its coder has a slot, waits otherwise, and is undecided only on an unreadable task list; the reasons are told by tasks and answers alone |
| `Verdicts.RetryCoderIs` | bridge/retry.py:1052-1086 | that coder is the one its current lane, language and repo route to |
| `Verdicts.RetryManifestIs` | bridge/retry.py:1075-1115 | the retry is on that lane, for the same repo and intent, with an id exactly when one is known, and its steps carry the feedback |
| `Verdicts.MoveDoes` | bridge/retry.py:694-1051 | kept Workloads stay, retired and escalated ones go with their delete, nobody is charged, and what is reported for each |
| `Verdicts.RecreateDoes` | bridge/retry.py:1090-1124 | a recreation is reported and charged exactly when delete and create both went well, and what stands under the name otherwise |
| `RetryRuns.ClaimedIsFresh` | bridge/main.py:485-495 | whatever the claim pass adds starts a lineage with both budgets full, under the name of its issue |
| `RetryRuns.RedrivenIsFresh` | bridge/main.py:1171-1178 | a redrive starts a lineage with both budgets full too |
| `RetryRuns.RunStaysInBudget` | bridge/retry.py:927-1124 | over any run of ticks a name is recreated at most its remaining budget plus (M-1)+(I-1) per fresh claim |
| `RetryRuns.LineageKeepsIdentity` | bridge/retry.py:572-592 | over any number of retries name, branch, repo, number and intent stay, and overwriting stays paired with revising |
| `RetryRuns.TickAt` | bridge/retry.py:616-1125 | one tick at one name: same issue, and a recreation costs at least one unit of budget |
| `PrFix.FixCoderFor` | bridge/prfix.py:62-71 | a named lane entry, else a named wildcard, else the default coder |
| `PrFix.FailureSignature` | bridge/prfix.py:98-115 | never empty, starts with the kind, and at most 162 characters longer |
| `PrFixLaws.SameFailureExactly` | bridge/prfix.py:98-115 | two failures compare equal exactly when kind and kept head of the first feedback line agree, for kinds without a colon |
| `PrFix.SwapCoder` | bridge/prfix.py:319-332 | the in-place loop swaps the coder on every issue-fix step and touches no other step |
| `PrFixPasses.EscalateManifest` | bridge/prfix.py:319-332 | escalation restarts the attempt on the next tier and carries the progress annotation over |
| `PrFixPasses.ProbeMerge` | bridge/prfix.py:367-389 | a conflicting PR is probed again only after its branch was updated |
| `PrFixPasses.SettleFix` | bridge/prfix.py:394-418 | the Workload is deleted only after Dispatch took the mark |
| `PrFixPasses.RetrySameTier` | bridge/prfix.py:440-509 | new surface, same surface, spent progress or busy coder, and what each does |
| `PrFixPasses.RetryNextTier` | bridge/prfix.py:510-542 | next tier, busy coder, or blocked for good; `PrFixLaws.BlockedExactly` says which |
| `PrFixPasses.ReconcileFix` | bridge/prfix.py:335-545 | for every answer the loop body does what the decision says to cluster, load, marks and result |
| `PrFixPasses.ReconcilePrFixes` | bridge/prfix.py:335-545 | the loop is the fold of the decision over the listing |
| `PrFixPasses.DrainPrFixes` | bridge/prfix.py:195-264 | the drain creates one fix for every queue entry that parses, has a branch, is not in flight and has a free coder |
| `PrFixLaws.RemakeFalls` | bridge/prfix.py:267-545 | every retry, progress step and escalation keeps the name and strictly lowers the potential, whatever the merge status and signatures |
| `PrFixLaws.EscalationMovesUp` | bridge/prfix.py:510-534 | every recreation reported as an escalation goes from NORMAL to ESCALATED, at attempt 1, to the coder that tier names, which is not the one the fix step had |
| `PrFixLaws.BlockedExactly` | bridge/prfix.py:510-542 | with its attempts used up and nothing settled or waited for, a fix is given up, and marked BLOCKED if it names a pull request, exactly when its lane is the top one or unknown, or the next tier names the coder it has; otherwise it escalates, or waits for that coder to have a slot |
| `Ladder.KeyedExactly` | bridge/prfix.py:295-298 | a fix can be asked about exactly when it names a repo and a number |
| `Ladder.ProbeIs` | bridge/prfix.py:367-389 | the second look counts exactly when the first found a conflict and the branch was updated; any other first look is final |
| `Ladder.OnlyFinishedCounts` | bridge/prfix.py:360-367 | a fix that runs is left alone, and one whose attempt cannot be read or whose pull request cannot be looked at is reported |
| `Ladder.StatusSettles` | bridge/prfix.py:390-436 | which status settles, drops or puts off a fix, each as an equivalence and whatever the slots |
| `Ladder.AgainDecides` | bridge/prfix.py:437-451 | otherwise, with attempts left, it is tried again on its tier |
| `Ladder.SameSurfaceTries` | bridge/prfix.py:498-509 | a fix that meets the same surface uses up one attempt, for the coder it has |
| `Ladder.NewSurfaceProgresses` | bridge/prfix.py:464-497 | one that meets a new surface starts again at attempt 1 with one more progress step, and is given up when none is left |
| `Ladder.FullCoderDefers` | bridge/prfix.py:448-451 | without a slot for its coder it waits |
| `Ladder.SettleEffect` | bridge/prfix.py:394-418 | a settled fix is marked first and goes exactly when Dispatch took the mark and the delete took effect, and what is reported |
| `Ladder.BlockEffect` | bridge/prfix.py:474-542 | one given up is marked BLOCKED; only for lack of progress does it also go, and only when the mark did not raise |
| `Ladder.RemakeDoes` | bridge/prfix.py:486-534 | a recreation is reported and charged exactly when delete and create both went well |
| `Ladder.OneResult` | bridge/prfix.py:335-545 | every finished fix is reported once, under its name, and one that runs not at all |
| `Ladder.DrainExactly` | bridge/prfix.py:195-264 | each outcome of a queue entry is told by its branch, the names in flight, its coder's slots and the create |
| `Ladder.HeadIs` | bridge/prfix.py:98-115 | the head kept for comparing failures is the first line's words in lower case with one space between them, 160 characters at most |
| `PrFixLaws.FreshPotentialBelow` | bridge/prfix.py:335-545 | the bound P(M-1)+TM-1 is at most (P+T)M-1 |
| `PrFixLaws.FreshFixIsRipe` | bridge/prfix.py:123-264 | a fix fresh from the queue starts with exactly that potential |
| `PrFixLaws.PotentialIsReached` | bridge/prfix.py:335-545 | some answers recreate a fix exactly as often as its potential says, so the bound is tight |
| `PrFixLaws.FixedOnlyWhenVerified` | bridge/prfix.py:365-418 | FIXED is sent exactly when GitHub's last answers say the PR is merged, or open in a good merge state with no failing or pending run and the fix did not fail; a mark that fails changes nothing |
| `PrFixLaws.FixPassShrinks` | bridge/prfix.py:335-545 | over a pass every entry stays, is recreated with less potential, or frees its name |
| `PrFixLaws.DrainFills` | bridge/prfix.py:195-264 | a drain leaves taken names alone and fills free ones with fresh fixes |
| `PrFixLaws.RawQueueProgressesOnce` | bridge/main.py:1265-1281 | one step: with the signatures the tick really passes, progress uses up the one chance a stored surface gives, and only such a Workload is given up for lack of progress |
| `PrFixLaws.RawProgressExactly` | bridge/main.py:1265-1281 | with those signatures a retry counts as progress exactly when the Workload is keyed, carries a surface that is neither empty nor the raw one, and its pull request is queued, whatever really failed |
| `PrFixLaws.FixPassOrigin` | bridge/prfix.py:335-545 | what a pass leaves under a name was there before or was decided on for a listed Workload of that name |
| `PrFixRuns.RunProgressesOnce` | bridge/main.py:1265-1281 | over any run with those signatures a name makes at most one progress step per drain, plus one if it started with a surface of its own |
| `PrFixRuns.RunStaysBelowPotential` | bridge/prfix.py:335-545 | over any run of reconcile and drain a name is recreated at most its potential plus P(M-1)+TM-1 per drain of it |
| `Mergeability.ScanRuns` | bridge/main.py:313-330 | the two flags say whether some run failed and whether some run is pending |
| `Mergeability.LatestDecisions` | bridge/main.py:364-373 | each reviewer's last decisive review wins |
| `Probes.RunPasses` | bridge/main.py:313-330 | a run is failed by its conclusion alone, and passed when moreover its status is not a waiting one and it has a conclusion or is completed; never both failed and pending |
| `Probes.StandingIs` | bridge/main.py:364-373 | a reviewer stands by the last review that decided, whatever undecided ones follow |
| `Probes.ChangesWantedExactly` | bridge/main.py:364-375 | changes are wanted exactly when somebody stands by having asked for them |
| `Mergeability.CheckPrMergeable` | bridge/main.py:233-383 | merged, closed, ok, dirty, conflicting, checks_failed, changes_requested and blocked, each exactly when GitHub's answers say so, with every run checked when a head sha is present; a failed fetch never reads as success |
| `Claims.Dispatch.Claim` | bridge/claim.py:224-232 | any claims may be refused; one granted before is granted again or not, as Dispatch is idempotent or not |
| `Claims.ClaimOne` | bridge/claim.py:104-149 | the loop makes the first claim that goes through and can be read back, in queue order |
| `Claims.FirstClaimIsFirst` | bridge/claim.py:234-261 | with nothing refused it goes to the first candidate nobody has; without a claim no candidate is left |
| `Turns.ClaimedExactly` | bridge/claim.py:104-261 | whatever Dispatch refuses: the item claimed is the first in queue order that is a candidate, has a repo and a number, and whose post is granted, each candidate before it having been posted once; without such an item nothing is claimed |
| `Turns.TurnClaims` | bridge/main.py:452-486 | a turn claims exactly when the cap is not reached, the lane's coders are not all busy, and there is such an item |
| `Turns.TurnReports` | bridge/main.py:452-486 | otherwise it reports the first of these reasons, unless the lane has something to show, and asks Dispatch only for the last of them |
| `Turns.ClaimCreates` | bridge/main.py:485-499 | its Workload goes to the coder routed by the load as it stands, and is counted, charged and reported exactly when the create was stored |
| `Turns.ClaimManifestIs` | bridge/main.py:485-495 | and it names that coder and the revision coder of the lane for Foreman to build the steps from, at attempt 1 with nothing to revise |
| `Turns.LaneReports` | bridge/main.py:452-499 | a lane on which something was created reports that alone, one on which nothing was created reports one reason for it |
| `Turns.GrantsNumbered` | bridge/claim.py:224-261 | an item without a number is never granted |
| `Claims.Materialize` | bridge/main.py:485-495 | a claimed issue becomes a Workload at attempt 1 of both budgets with nothing to revise, stored unless its name is taken or the create raises |
| `Claims.DrainLane` | bridge/main.py:452-499 | the loop is the lane's drain; with a cap it ends because every turn uses up headroom, whatever Dispatch grants, and only without one because nothing is granted twice |
| `Claims.LaneEnds` | bridge/main.py:452-499 | a lane is left only at the cap, saturated, or with no claim going through, unless a create raised |
| `Claims.PassWithinHeadroom` | bridge/main.py:452-499 | with a cap a pass makes at most as many creates as the cap leaves room for, whatever Dispatch grants |
| `Claims.NeverEnds` | bridge/main.py:452-499 | without a cap or capacities, a Dispatch that grants a claim again keeps the loop going for ever exactly when the lane has a candidate whose claim can be read back |
| `Claims.SpentOnOne` | bridge/main.py:452-499 | with a cap, such a Dispatch lets the first candidate use up all the headroom, with one Workload to show for it |
| `Claims.PassRaises` | bridge/main.py:495 | an exception comes from the last create made, and all before it were stored |
| `Claims.RunOnce` | bridge/main.py:386-500 | the pass as a function, and: in_progress ends at most at max(start, cap) and rises by exactly the number created, every created item carries the polled lane, the cluster keeps what it held and gains only claim manifests, and no coder is charged above its slots where the check is sufficient |
| `LoadIndex.GroupTasks` | bridge/main.py:558-595 | one pass over one list gives every Workload its tasks in order; anything malformed gives no index |
| `LoadIndex.CountRefs` | bridge/main.py:710-722 | the fallback counts every active Workload of each coder |
| `LoadIndex.LoadByCoderAgent` | bridge/main.py:692-735 | the grouped count equals the per-Workload definition; an unreadable list counts everything |
| `LoadIndex.NeverUnderCounts` | bridge/main.py:692-735 | the fallback never counts fewer than the task list would |
| `LoadIndex.FreshWorkloadHoldsSlot` | bridge/main.py:664-689 | a Workload just rendered, with no task yet, holds one slot of its coder |
| `LoadIndex.GivenBackExactly` | bridge/main.py:664-689 | it gives the slot back exactly when an issue-fix task of it is listed and every such task has ended |
| `LaneQueues.Queues` | bridge/claim.py:200-222 | whatever order the fetches complete in, every lane gets its own answer and a failed one the empty list |
| `LaneQueues.ListQueued` | bridge/claim.py:368-395 | the result is the lane-order concatenation for every completion order |
| `LaneQueues.OneFetch` | bridge/claim.py:368-395 | one fetch gives the list it answered, and nothing when it raised or answered with something else |
| `LaneQueues.FetchesInOrder` | bridge/claim.py:368-395 | and the fetches of any two runs of lanes follow each other |
| `LaneQueues.OverwriteLane` | bridge/claim.py:319-351 | one lane written over the index claims exactly the issues it holds |
| `LaneQueues.BuildLaneIndex` | bridge/claim.py:319-351 | the reverse overwrite equals the first-match scan, for issues with a repo and a number |
| `LaneQueues.IndexedExactly` | bridge/claim.py:319-351 | an issue with a repo and a number is indexed under the first polled lane whose queue lists it, and no other issue is |
| `LaneQueues.IdComesFromIndexedLane` | bridge/claim.py:291-317 | the id comes from the very lane the index names, and is empty when there is none |
| `SlotBounds.RetryPassBounded` | bridge/retry.py:1087-1117 | retries never charge a coder above its slots |
| `SlotBounds.InfraPassBounded` | bridge/main.py:1154-1198 | redrives never charge a coder above its slots |
| `SlotBounds.FixPassBounded` | bridge/prfix.py:451-529 | fix retries and escalations never charge a named coder above its slots |
| `SlotBounds.DrainBounded` | bridge/prfix.py:213-243 | the drain never charges a coder above its slots |
| `SlotBounds.SharedAddsUp` | bridge/main.py:1088-1305 | the load the passes share ends within max(start, slots) |
| `SlotBounds.TickAddsUp` | bridge/main.py:1093-1305 | start plus all charges is at most max(start, slots) plus the smaller of what claims and what fixes charged, which is at most the slots spare when the claims began |
| `SlotBounds.OverfillsExactly` | bridge/main.py:1093-1305 | start plus all charges exceeds max(start, slots) exactly when claims and fixes together charged more than was spare; never for a coder with nothing spare or charged by only one of the two |
| `SlotBounds.ClaimsSpare` | bridge/main.py:477-498 | claims charge nothing to a coder no polled lane can reach |
| `SlotBounds.FixPassSpares` | bridge/prfix.py:335-545 | fixes charge nothing to a coder that neither the lane map, the default nor a listed fix names |
| `SlotBounds.DrainSpares` | bridge/prfix.py:213-243 | nor does the drain |
| `SlotBounds.CopyHidesClaims` | bridge/main.py:449-498 | the extra term is real: a claim pass and the drain after it fill one slot twice |
| `Occupancy.RetryOccupiesExactly` | bridge/retry.py:1090-1120 | a retry pass puts exactly as many new active Workloads on a coder as it charges, plus those whose create raised after it was stored |
| `Bids.RetryTakes` | bridge/retry.py:1087-1120 | a retry pass puts on a coder exactly those of its bids that find a slot, and charges the stored ones up to the room it found |
| `Bids.RetryOverfillsExactly` | bridge/retry.py:1087-1120 | it leaves a coder over its slots, and over what it began with, exactly when more retries bid for it than it has room and one of those that fit was stored although its create raised; the bids are read off the answers |
| `Bids.UnrecordedOverfills` | bridge/retry.py:1087-1120 | such a create lets a pass put two active Workloads on a one-slot coder |
| `Bids.FixesTake` | bridge/prfix.py:335-545 | settling and retrying fixes charges a named coder exactly its bids, up to the room there is |
| `Bids.DrainTakes` | bridge/prfix.py:213-243 | so does the drain |
| `Bids.FixesThenDrain` | bridge/main.py:1283-1305 | together they charge their bids up to the slots spare, told before the first fix is carried out |
| `Occupancy.RedrivesOccupy` | bridge/main.py:1169-1179 | new active Workloads of a coder are at most the charges plus its creates that raised after storing |
| `Occupancy.ClaimPassOccupies` | bridge/main.py:477-498 | the same for claims, where only the last create can be such a one |
| `Occupancy.RemadeRunsOn` | bridge/prfix.py:267-332 | the coder charged for a remade fix is the one it runs on |
| `Occupancy.FixesOccupy` | bridge/prfix.py:451-529 | the same bound for fix retries and escalations |
| `Occupancy.DrainsOccupy` | bridge/prfix.py:213-243 | the same bound for the drain |
| `Occupancy.HoldersAreCounted` | bridge/main.py:692-735 | the load a tick starts from is the number of listed Workloads holding a slot, all of a coder's when the tasks cannot be read |
| `Infra.FirstModelDecides` | bridge/retry.py:444-448 | the first model label decides, a bare prefix counting as unknown |
| `Infra.NoModelIsUnknown` | bridge/retry.py:444-448 | without one the model is unknown |
| `Markers.ModelIs` | bridge/retry.py:444-448 | letter by letter: the model is what follows blocked/infra-model/ in the first such label |
| `Markers.FailuresAre` | bridge/retry.py:451-459 | the failure count is the highest number after blocked/infra-attempt/ in any label, and 0 without one |
| `Infra.ReplaceLabels` | bridge/claim.py:523-538 | every write is tried; success is reported exactly when all worked, and then the labels are the exchanged ones |
| `Markers.ExchangedAre` | bridge/claim.py:523-538 | label by label, whichever writes worked: a label is there afterwards exactly when adding it worked, or it was there and no removal of it worked |
| `Infra.RecordWritesAre` | bridge/main.py:1140-1152 | the removes and adds amount to exchanging the old counts for the new one |
| `Infra.RecordedReadsBack` | bridge/retry.py:444-468 | after recording, the count reads back, and the model and blocked marker are kept |
| `Infra.CountRises` | bridge/retry.py:444-468 | while the model stays unhealthy the count rises by exactly one a tick |
| `Infra.FirstParkTick` | bridge/retry.py:482-550 | along such a history the first park from count c is on tick max(1, max_failures - c), and on no other |
| `InfraPass.ProbeModels` | bridge/retry.py:492-511 | each identified model is probed once, an unidentified one never |
| `InfraPass.RedriveOne` | bridge/main.py:1154-1187 | slot gate, create, charge, status and label writes, and what is reported and left on the issue for each |
| `InfraPass.CountOrPark` | bridge/retry.py:528-549 | the count is used up and the issue parked and unmarked, or the next count is written |
| `InfraPass.RedriveNeedsNoEvidence` | bridge/main.py:1159-1177 | a redriven Workload always revises and overwrites the task branch, at attempt 1 of both budgets |
| `Redrives.DueIsCreated` | bridge/main.py:1154-1179 | for an issue listed once whose model is back and whose coder is free when its turn comes, a create that is stored leaves a Workload under its name after the whole pass, and its coder holds one more |
| `Redrives.DueIsCleared` | bridge/retry.py:510-526 | it is reported redriven exactly when create, status and every label write worked; then neither needs-human nor any infra marker is left, and all other labels are |
| `Redrives.TurnCharges` | bridge/main.py:1154-1179 | a turn charges by one exactly when the model is back, the coder is free and the create was stored, and only that coder |
| `Redrives.FullCoderWaits` | bridge/main.py:1163-1168 | a full coder puts it off: nothing is created, charged or taken off |
| `Redrives.MissingModelCounts` | bridge/retry.py:510-549 | without its model the issue is counted on or handed over, exactly by the count its labels carry, and nothing is created |
| `Redrives.RedriveCoderIs` | bridge/main.py:1154-1168 | the coder is the one the issue's lane routes to, the first polled lane or "local" standing in for a missing one |
| `InfraPass.ReconcileInfraParked` | bridge/retry.py:482-550 | the loop is the fold over the parked issues, labels included, with every model probed once |
| `InfraPass.EveryIssueJustified` | bridge/retry.py:482-550 | redriven exactly when its model probed healthy in this pass, handed to a human exactly when the count is used up |
| `InfraPass.UnhealthyChangesNothing` | bridge/retry.py:482-550 | without a healthy model a pass creates nothing and charges nobody |
| `InfraPass.PassRecords` | bridge/main.py:1140-1152 | a pass over an issue with an unhealthy model and working label writes leaves exactly the next count, unless it parks it |
| `InfraPass.RunYieldsHistory` | bridge/retry.py:482-550 | until it is parked, the issue's labels over a run of passes are such a history |
| `InfraPass.FirstHumanPark` | bridge/retry.py:482-550 | over any run of passes the first to report the issue as handed to a human is pass max(1, max_failures - c) |
| `InfraPass.HandedOverAgain` | bridge/retry.py:528-549 | an issue handed to a human is handed over again by the next pass that lists it exactly when the park was not reported or no write took off a count that is used up |
| `InfraPass.ListedAgain` | bridge/main.py:1122-1138 | and it is listed again exactly when no write took the blocked label off |
| `Prune.Tombstone.StampTerminalSince` | bridge/prune.py:78-102 | a readable stamp is never overwritten, an unreadable one is replaced |
| `Prune.Tombstone.StampAndPatch` | bridge/main.py:1629-1700 | a PATCH that failed takes the stamp back out of the manifest |
| `Prune.StampIsConstant` | bridge/prune.py:50-102 | a stored stamp never moves while the phase holds |
| `Prune.StampIsFirstSeen` | bridge/main.py:1629-1700 | the stamp is the second of the first tick whose PATCH was stored |
| `Prune.StoredStampDecides` | bridge/prune.py:105-129 | after a stamp at s a tick attempts the delete exactly from s + TTL on; an unreadable stamp leaves the legacy one or the creation time to decide for ever |
| `Prune.StampingTickKeeps` | bridge/main.py:1645-1700 | the tick that first stamps a Workload never prunes it: its prune instant (bridge/prune.py:180) is taken before the stamp |
| `Prune.DueStaysDue` | bridge/prune.py:105-129 | a delete attempted on a stored stamp is attempted by every later tick |
| `Prune.LandedStampPostpones` | bridge/main.py:1645-1700 | a delete that was due while stamps were lost is put off by a whole TTL once a stamp lands |
| `Prune.LostStampsDoNotPostpone` | bridge/prune.py:50-75 | while every PATCH is lost, age counts from the older stamp or the creation time |
| `Prune.SinceIs` | bridge/prune.py:50-75 | age counts from the readable stamp of its own phase, else the readable legacy one, else the creation time |
| `Prune.DueExactly` | bridge/prune.py:105-129 | Completed Workloads are due by the TTL for completed ones, Failed by the one for failed, each off at 0, and no others are |
| `Prune.OnlyTerminalCounts` | bridge/prune.py:50-102 | a Workload still at work is not stamped, and its stamps do not count |
| `Prune.PruneWorkloads` | bridge/prune.py:151-219 | exactly the expired tombstones are handled, in order, on cluster, issue table and log |
| `Prune.PruneOne` | bridge/prune.py:186-219 | one tombstone's delete, park check and reset, in order, whatever raises |
| `Prune.ResetExactly` | bridge/prune.py:186-219 | an issue goes back to ready exactly for a Failed issue Workload with identity that is not parked, however the delete went; which events are logged, and when the name leaves the cluster |
| `Prune.LeavesWhenDue` | bridge/prune.py:105-219 | a name leaves the cluster exactly when its own tombstone is due and its delete takes effect |
| `Prune.StampThenPrune` | bridge/prune.py:178-186 | one tick: with both TTLs off nothing is listed, stamped or deleted; otherwise every tombstone is stamped and leaves the cluster exactly when it is due by the stamps the tick goes on with |
| `Prune.DueByItsClock` | bridge/prune.py:105-129 | and it is due exactly on the ticks on which its clock attempts the delete |
| `Parking.ParkForHuman` | bridge/main.py:814-883 | a park is a reported status write; only then is the issue labelled and announced |
| `Parking.ParkInfra` | bridge/main.py:923-970 | status, lookup, label exchange and announcement in the code's order |
| `Parking.ParkAnnounces` | bridge/main.py:814-883 | for every outcome of the writes: reported and announced exactly when the status write was, marked as far as the label write landed |
| `Parking.InfraParkReports` | bridge/main.py:923-970 | an infra park is reported only when its label writes worked too, and never puts the human marker on |
| `Parking.InfraParkIsSilent` | bridge/main.py:923-970 | it announces exactly on a lookup that misses the write, so never with lookups that reflect it |
| `Parking.VisitAnnouncesAPark` | bridge/retry.py:759-920 | one visit posts at most one comment, only when it parks an unparked issue, and never unparks one |
| `Parking.QuietVisit` | bridge/retry.py:694-1000 | a visit that finds the issue closed, or nothing calling for a park, leaves the issue as it is |
| `Parking.FirstParkEndsVisit` | bridge/retry.py:759-926 | after the first park that holds no later path writes to the issue |
| `Parking.ParkWasCalledFor` | bridge/retry.py:759-1000 | what is reported parked was called for by the Workload and its tasks alone |
| `Parking.ReportedParkHolds` | bridge/claim.py:465-481 | what is reported parked is parked |
| `Parking.ParkedIsNotRetried` | bridge/retry.py:759-920 | while its issue is parked, a Workload that called for the park is not recreated |
| `Parking.ParkGoWithoutPr` | bridge/review_transition.py:262-309 | lookup, replay, status, label and comment in the code's order; a lookup that fails reads as not parked |
| `Parking.MisfiresExactly` | bridge/review_transition.py:262-309 | it announces a park it did not make exactly when the lookup found none, the status write did not raise, and the issue was parked already or neither write took effect |
| `Parking.AnnouncedTwice` | bridge/review_transition.py:262-309 | two such ticks post two comments and park nothing |
| `Parking.AnnouncementsAreParks` | bridge/main.py:814-889 | over any run of visits, hand-overs to a human and outside edits, comments are at most the parks made plus the misfires, a hand-over of a parked issue being one |
| `Parking.AtMostOneAnnouncement` | bridge/main.py:814-889 | while nobody else touches the issue and nothing misfires, at most one comment, and none if it was parked before |
| `Parking.NoRetryAfterPark` | bridge/retry.py:759-920 | over any such run a park that succeeded is never followed by a retry of that Workload |
| `ReviewTransition.ExtractPrUrl` | bridge/review_transition.py:45-53 | the first URL any task carries |
| `ReviewTransition.FailedTaskReviews` | bridge/review_transition.py:45-53 | the pull request of a task that failed puts the issue in review too |
| `ReviewTransition.ExtractVerdict` | bridge/review_transition.py:56-76 | the last verdict any task carries |
| `ReviewTransition.ExtractResolved` | bridge/review_transition.py:95-119 | whether some task claims the work was already there |
| `ReviewTransition.TransitionOne` | bridge/review_transition.py:180-318 | skip, review, done, blocked or parked, with the lookup and writes of each and the one exception that ends the turn |
| `ReviewTransition.ResultExactly` | bridge/review_transition.py:174-318 | what each turn reports, by phase, target, identity and writes, and when it leaves the issue alone |
| `ReviewTransition.Desk.TransitionToInReview` | bridge/review_transition.py:157-318 | one result for every Workload unless an unreadable task list ends the pass; a write that raises does not |
| `ReviewTransition.EndsExactly` | bridge/review_transition.py:174-190 | it ends early exactly when the tasks of some Completed issue Workload cannot be listed |
| `ReviewTransition.EndsAtFirst` | bridge/review_transition.py:174-190 | what came before the first such Workload is done, what comes after is not looked at |
| `ReviewTransition.CardIsItsTurn` | bridge/review_transition.py:157-318 | in a pass that nothing ends, an issue with one Workload ends as that Workload left it |
| `ReviewTransition.CompletedLeavesProgress` | bridge/review_transition.py:157-318 | a finished issue leaves status/in-progress for where its tasks send it, except exactly when the lookup finds it parked; with a lookup that tells the truth, when it was put back in progress with the needs-human marker still on |
| `ReviewTransition.TargetExactly` | bridge/review_transition.py:180-290 | in review exactly with a PR; done exactly without one when the Workload or some task says resolved; otherwise backlog exactly on a last verdict GO, and blocked on any other or none |
| `Stranded.RefsAreStranded` | bridge/reconcile.py:18-166 | a sweep acts only on claims whose Workload name is gone and that have no open PR |
| `Stranded.RefsExactly` | bridge/reconcile.py:18-166 | the issues a sweep reports are exactly those with a listed claim that calls for its action and whose write worked |
| `Stranded.ReconcileStranded` | bridge/reconcile.py:18-84 | exactly the stranded claims whose write took effect become ready, lose the marker and are reported |
| `Stranded.ReleaseStuck` | bridge/reconcile.py:87-166 | exactly the stranded claims labelled status/ready are released; claims without labels are counted |
| `Ticks.CreatingPasses` | bridge/main.py:1093-1305 | retries, redrives, claims, fixes and drain in the tick's order, each starting from what the one before left: the cluster, labels, claims, load after every pass and the exception that stops the tick are functions of what it found |
| `Ticks.PassesAreFine` | bridge/main.py:1093-1305 | wherever the tick ends, every pass charged free slots only, new Workloads are charged but for the missed creates, and unreachable coders are spared |
| `Ticks.SweepSaves` | bridge/reconcile.py:18-84 | a Failed Workload whose issue is listed as claimed with no open PR, and whose reset takes effect, is still there or claimed anew, was handed off, or its issue is ready |
| `Ticks.RunTick` | bridge/main.py:1093-1368 | the whole tick leaves exactly what those functions say; it reaches its sweep exactly when none of the named exceptions ends it, and then every such Workload is saved, and exactly the issues with a listed claim, no open PR and no issue Workload under their name in the cluster it leaves become ready and lose the marker, as far as the writes take effect; otherwise no issue is reset |
| `Stages.RetryStage` | bridge/main.py:1094-1118 | the retries start from the cluster and the load the tick found, and need the listing of failures |
| `Stages.RedriveStage` | bridge/main.py:1093-1199 | the infra pass runs exactly when the failures could be listed and no Workload due for a retry has an unreadable task list; else no label and no load is touched |
| `Stages.ClaimStage` | bridge/main.py:1201-1221 | the claims are made exactly when moreover, under a cap, the active Workloads could be listed |
| `Stages.FixStage` | bridge/main.py:1223-1293 | fixes are settled and retried exactly when moreover every create of a claim worked, fixes are on and could be listed |
| `Stages.DrainStage` | bridge/main.py:1295-1307 | and new ones drained exactly when the names of those in flight could be listed too, which are those the cluster then holds |
| `Stages.LastStages` | bridge/main.py:1341-1368 | the review and the sweep run exactly when nothing before them ended the tick, the conditions being read off the listings, tasks and creates |
| `Stages.NothingWithoutLoad` | bridge/main.py:1088-1093 | with slots configured and no load listing the tick changes nothing |
| `Ticks.TickOccupies` | bridge/main.py:1093-1305 | the slots a coder really holds after a tick are at most max(held before, slots) plus what claims and fixes both charged plus the creates that raised after storing |
| `Ticks.TickOverfillsExactly` | bridge/main.py:1088-1305 | a tick charges a coder beyond its slots, and beyond what it began with, exactly when the claims charged more than the demand of the fixes leaves of the slots spare |
| `Ticks.TickStaysWithinSlots` | bridge/main.py:1093-1305 | when it does not, and no create is missed, a coder holds at most max(held before, slots) |
| `Ticks.OneSidedTickFits` | bridge/main.py:1093-1305 | it never does for a coder that lanes or fixes cannot reach, or with nothing spare when the claims begin |
| `Backoff.RetryRequest` | bridge/http_retry.py:111-179 | at most retries + 1 calls, never a retryable response, an exception only from a final or unretryable answer, and the sleep is the sum of the delays |
| `Backoff.DelaysAreSleepable` | bridge/http_retry.py:145-170 | with a non-negative Retry-After (section 10.2.3 of RFC 9110) no delay is negative |
| `Backoff.DelayIs` | bridge/http_retry.py:145-170 | a numeric Retry-After of a 429 is slept as it stands up to the cap; every other delay is the one before times the factor, up to the cap |
| `Backoff.GeometricQuotient` | bridge/http_retry.py:111-179 | the uncapped delays add up to base(f^r - 1)/(f - 1) |
| `Backoff.TotalSleepCapped` | bridge/http_retry.py:145-170 | for any answers the whole sleep is at most retries times the longest delay |
| `Backoff.TotalSleepGeometric` | bridge/http_retry.py:145-170 | without a numeric Retry-After it is also at most the geometric sum |

## Left out

- HTTP and Kubernetes clients, thread pools, polling of deletes, logging, comment wording and token redaction: only their outcomes are parameters. `_retry_k8s_request` is the same loop as `Backoff.RetryRequest` with another classifier.
- Environment and JSON configuration parsing: the parsed maps are inputs. The shape checks on malformed JSON are modelled only where failing open or closed is the point (task lists, park lookups, merge states, claims without labels).
- Absent hooks: a missing hook behaves as one that answers no or unknown; without `park_infra`, an infra give-up would go through `_park_exhausted`, which is not modelled.
- Strings are ASCII: no Unicode letter case or digits beyond it. `failure_signature` on a feedback entry that is not text is not modelled.
- The regex scrape of the failed model's name and the text of feedback and prompts: they are inputs.
- Timestamps are whole seconds with an unreadable variant, the form of section 5.6 of RFC 3339 being one way to write them; sub-second stamps written by others are not modelled.
- Prune.Tombstone.StampAndPatch: only the API exceptions the source catches are modelled; any other one would end the tick.
- Claims.DrainLane: a pass without a cap against a Dispatch that grants claims again has no function to be compared with; `Claims.NeverEnds` says when it goes on for ever without capacities. With capacities it may end by saturation, which is not stated.
- Claims.ClaimOne: Renovate's title and label criteria are one flag on a queue item.
- Saturation.CheckSufficesExactly: it is about configurations without fix-first agents, and an agent list up to the deciding one that holds an empty name is not covered. With fix-first agents the entry that decides depends on the load.
- InfraPass.ReconcileInfraParked: the status writes of a redrive or a human park are the subject of `Parking`; the label table holds the labels only. `clear_marker` is taken not to raise after a park, as `replace_labels` never does.
- Occupancy.FixesOccupy: fix Workloads have the shape the bridge renders, with the coder on the first issue-fix step; a step without a coder name is charged to no one.
- Ticks.RunTick: stuck-claim release and pruning come after the sweep and are proved on their own. The clients' own failures outside the listings are caught where they are called.
- PrFixPasses.EscalateManifest: the source shares the spec with the listed Workload and rewrites its steps in place; here the steps are an array of their own. Nothing reads the listed steps after that in the pass.
- PrFixLaws.SameFailureExactly: a kind that itself contains a colon can run into the feedback that follows it.
- Prune.StampIsFirstSeen: the clock theorems are about ticks that list, that is with some TTL on.
- Parking.VisitAnnouncesAPark: its lookups succeed and show the writes before them, as `Parking.Reflects` says. The escalation of a parked, exhausted issue to another lane counts as an outside edit of the issue.
- Backoff.RetryRequest: delays are exact reals; a Retry-After of NaN and the float rounding of powers are not modelled.
- Coders.CoderFor: an agent map value that is neither a name nor a list of names is not modelled.
