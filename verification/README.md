# Verification of the PCBWorld core

PCBWorld is a reinforcement-learning environment for routing printed circuit boards on a KiCad
engine, with the search drivers, the evaluation pipeline and the configuration loader around it.
This project models five parts of it in Dafny and proves what each part promises over whole runs.

**Observations.** The same board is written twice: as a nested dict with string ids and as columnar
index tables. `Observation`, `BoardContext` and `NetGeometry` model the allocator and the two
printers, `IndexedStatic` and `IndexedDynamic` the table builders and the decoder, both as the loops
the code runs and as a closed form. `StaticRoundTrip`, `DynamicRoundTrip` and `ObservationForms`
prove the lossless promise, `OrderIndependence` when the geometry does not depend on the order the
engine lists its items in. `PrintedItems` says what is shown of each item the engine lists, and
`PointIdentity` what an id or a row means: two points share one exactly when they lie together.
Coordinates are rounded by an arbitrary function.

**Environment.** `EnvSpec` is one episode as a state machine over an abstract engine (a board, its
sessions, DRC, connectivity, numbered checkpoints). `Environment` has the classes of the code, with
their fields updated in place, proved to do exactly that. `SearchRuns` and `SearchInvariants` define
every run a search driver can make (committed steps, searched steps, nested checkpoints, restores in
any order, releases) and its invariant; `EpisodeTheorems`, `BestBoard` and `Excursions` are what
follows. `StepLaws` says when an action is granted and succeeds, when an episode ends, what its end
pays and what a step shows and records; `RewardLaw` what every step and every run pays in all.
`Masking` is the default-deny rule, `Reward` the potential Φ and its binding; `PhiWorth` and
`BoundWorth` give the price Φ puts on a connection, a net, a violation, a via and a unit of wire, and
`BoundEpisodes` states the telescoping rewards for Φ as the environment binds it.

**Evaluation.** `Attempts` and `Aggregation` model Stage 3 from the rows of a cell to the report,
`AttemptConservation`, `CrashCounts` and `BoardReports` prove that attempts are conserved and boards
are covered, `FinishedRows` what a row of the finished report is worth, and `Refusals` what stops it.
`PhiZero` and `PhiZeroContract` connect Stage 2's question with Stage 3's use of the answer.
`CellNames` and `Flatten` cover the file-name grammar and the move into it, `Copper` and
`Routability` the pad-group metric and its premise on a graph of copper.

**Configuration.** `LegacyFill`, `CkptConfig` and `Resolve` model the table-driven fill, the
checkpoint migrator and the layered resolver over the values of `PyValues` (flags, integers, floats,
texts, nested lists, with Python's `==` and `str`; `FloatText` prints the floats). `CkptValues` says
where each loaded value comes from; `LegacyFillLaws`, `LegacyFillTables`, `CkptFixedPoint` and
`ResolveLaws` prove idempotence, the fixed point, and what a resolution keeps.

**Board scheduler.** `BoardScheduler` models the dealing modes over an arbitrary random source and
proves fairness, batching, resume, and which numbers of the source each mode draws.

`Decimal`, `Dedup`, `Csr`, `StableSort`, `IntSets` and `Dicts` are the vocabulary: printing and
parsing numbers, first-wins deduplication, prefix sums, stable sorting by key, ascending sets, and
dicts in insertion order.

## What turned out not to hold

Where the code does less than its comments or the obvious reading promise, the model follows the
code, and the exact condition is proved.

- The sort key of a ratsnest edge has no layers (`pcb_world/core/observation.py:562-565`), so the
  "stable geometric key" of line 531 is not enough: `OrderFreeExactly` says when it is.
- The table form does not carry polygon outlines: `FormsAgree` says that this is its only loss.
- With `output_best_board`, an episode that ends on a refused action is not rolled back
  (`pcb_world/core/env.py:1358`): `EndsOnTheBestBoard` is the exact condition and
  `RefusedEndingKeepsTheWorseBoard` such a run.
- Round robin advances once per call, so the per-env guarantee about batches is not its own:
  `BatchingExactly`.
- A cell name comes back only for an id without a newline, because the pattern's dot does not match
  one (`eval/eval_utils.py:812`): `RoundTripExactly`.
- Flattening is safe for distinct attempts only while nothing stands at a target:
  `NothingIsLostExactly` is the condition, `OccupiedPlaceLosesABoard` the failure.
- Routed counts that miss a net are read as having no pad group there (`eval/metrics.py:421-424`),
  which can take the score above 1, or to 1 without a success (`MissingNetMisleads`):
  `ScoreExactly` gives both conditions.
- Stage 2 does not ask for Φ₀ of a board that only misses a single ckpt
  (`eval/aggregation.py:1001-1012`): `StageTwoAsksForWhatStageThreePrices` shows that there is no
  other gap.
- The legacy fill reports nothing for a null entry it reads as an empty mapping under `"*"`
  (`configs/loader/__init__.py:112-117`): `FillIsReported` and `NullIsReadSilently`.
- A refused bounding box leaves the static bonuses already overwritten
  (`pcb_world/core/reward.py:417-432`); a later complete bind is unaffected: `BindingIsHistoryFree`.
- Equality as a setting does not chain where a value's print meets a value it equals, as in `"45.0"`,
  `45.0`, `45`: `ChainsUnlessAPrintMeetsAnEqual`.
- The legacy fill is idempotent beside a sibling of `"*"` only when `"*"` leaves the filled sibling
  alone: `SiblingIsHarmlessExactly`; the shipped tables have no siblings (`ShippedFillsTwice`).

## Model

| member | source | states |
|---|---|---|
| Observation.IDAllocator.constructor | pcb_world/core/observation.py:196-200 | a new allocator has empty registries and every counter at 0 |
| Observation.IDAllocator.NextId | pcb_world/core/observation.py:202-206 | the id is the prefix and the old count; only that counter moves on |
| Observation.IDAllocator.GetOrCreatePoint2D | pcb_world/core/observation.py:208-217 | the first point registered under a rounded coordinate stands for all later ones: the pool grows only by new keys, and the answer carries the pool row of the key as its `P` number and the first point's own coordinates |
| Observation.IDAllocator.GetOrCreatePoint3D | pcb_world/core/observation.py:219-228 | the same for (x, y, layer) keys and `Q` numbers, leaving the 2D registry alone |
| Observation.RegisteredEntry | pcb_world/core/observation.py:208-217 | a hit in the registry is the entry of the first point with that key, and the pool stays as it is |
| Observation.RegisterNew | pcb_world/core/observation.py:208-217 | a miss numbers the point by the pool size, and the registry still mirrors the pool |
| Observation.RegisterAt | pcb_world/core/observation.py:208-217 | the reference handed out while points are still arriving is the one the finished pool gives, so ids never change later |
| BoardContext.GroupPads | pcb_world/core/observation.py:385-398 | pads in scope are grouped by net in order of first appearance, the rest are kept as unconnected, both in input order |
| BoardContext.RegisterEdges | pcb_world/core/observation.py:366-383 | edges get E ids from 0; their points are registered end, end, on-arc midpoint and print as the final pool prints them |
| BoardContext.RegisterRects | pcb_world/core/observation.py:402-443 | rectangles are numbered on from the counter of their kind and their centres refer to the final pool |
| BoardContext.RegisterNets | pcb_world/core/observation.py:400-417 | pad numbers run on across nets: the pads of net j start at the number of pads of the nets before it |
| BoardContext.FromBoard | pcb_world/core/observation.py:324-453 | the context is a function of the board alone, all ids referring to one pool of all points in registration order |
| NetGeometries.Bucket | pcb_world/core/observation.py:524-550 | a dict of lists filled in list order holds, for every wanted net, exactly its entries in their order |
| NetGeometries.GroupByNet | pcb_world/core/observation.py:524-572 | the nets shown are those with a track, a via or an in-scope ratsnest edge, and each list is the net's entries sorted by its key |
| NetGeometries.BuildNet | pcb_world/core/observation.py:574-611 | a net is printed through an allocator of its own, so every id of it depends on that net only |
| NetGeometries.BuildNetGeometry | pcb_world/core/observation.py:460-613 | nets in ascending code; each one the geometry of its own sorted rows |
| OrderIndependence.SettledIsOrderFree | pcb_world/core/observation.py:524-613 | any order of the engine's lists gives the same geometry, ids included, when edges of a net with the same ends have the same layers |
| OrderIndependence.UnsettledShows | pcb_world/core/observation.py:562-565 | two edges with equal ends and different layers give two different geometries, depending on which comes first |
| OrderIndependence.OrderFreeExactly | pcb_world/core/observation.py:524-613 | the geometry is independent of the order of the engine's lists if and only if no two in-scope ratsnest edges of a net agree in all coordinates and differ in a printed layer (the sort key has no layers) |
| PrintedItems.NetPadsArePrinted | pcb_world/core/observation.py:389-417 | every pad of a net to be routed is printed in that net where it lies, with its width, height, layer and shape, and nothing else is printed there |
| PrintedItems.OtherPadsArePrinted | pcb_world/core/observation.py:389-443 | every other pad is printed as unconnected, and the obstacles in order with their outlines |
| PrintedItems.RestIsPrinted | pcb_world/core/observation.py:360-417 | edges in order with ends, midpoints and widths, each net under its code and its name or `net_<code>`, the box clamped to 1e-6 |
| PrintedItems.NetsArePrinted | pcb_world/core/observation.py:543-578 | the printed nets are those with a track, a via or an in-scope ratsnest edge, each once, in ascending code |
| PrintedItems.ItemsArePrinted | pcb_world/core/observation.py:490-611 | a printed net shows exactly its tracks, vias and in-scope edges, as often as the engine lists them, each where it lies with its width and its layers (0 for all copper, 1 where none is known) |
| PrintedItems.ItemsAreInOrder | pcb_world/core/observation.py:552-565 | tracks come by layer, ends and width, vias by centre, layers and diameter, edges by their ends alone |
| PointIdentity.ContextIdsTell | pcb_world/core/observation.py:324-453 | every point of the printed board lies, up to rounding, where its input point does, and two share a P id if and only if their rounded coordinates agree, whatever they belong to |
| PointIdentity.GeometryIdsTell | pcb_world/core/observation.py:574-611 | the same for track ends and via centres within a net |
| PointIdentity.RatsnestIdsTell | pcb_world/core/observation.py:219-228 | a ratsnest point keeps its layer too, and two share a Q id if and only if rounded coordinates and layer agree |
| IndexedStatic.PointPool.Register | pcb_world/core/indexed_obs.py:106-114 | the pool grows only by new keys and the row returned is the first row with the point's key |
| IndexedStatic.RectColumns | pcb_world/core/indexed_obs.py:123-142 | one row per rectangle; centres are rows of the final pool |
| IndexedStatic.EdgeColumns | pcb_world/core/indexed_obs.py:155-165 | end rows, midpoint row or -1, and width of every edge, in the point order of the printer |
| IndexedStatic.NetColumns | pcb_world/core/indexed_obs.py:167-182 | pads of all nets in one block; each net's start is the number of pads before it, its count its own |
| IndexedStatic.StaticTablesFromDict | pcb_world/core/indexed_obs.py:145-223 | the tables depend on the coordinates in the printed dict only: they are the tables of the board it describes |
| IndexedStatic.NetKeyParses | pcb_world/core/indexed_obs.py:174-175 | the net code read out of a printed key is the code that was printed, sign included |
| IndexedStatic.RectDicts | pcb_world/core/indexed_obs.py:517-539 | rows start to start + count come out as entries numbered from 0 |
| IndexedStatic.ArraysToStatic | pcb_world/core/indexed_obs.py:553-605 | one entry per row in row order; a repeated net code keeps its place and takes the later row |
| StaticRoundTrip.TablesInRange | pcb_world/core/indexed_obs.py:145-223 | every reference in the tables of any board is a row of the table it points into |
| StaticRoundTrip.TablesFromDict | pcb_world/core/indexed_obs.py:145-223 | tables built from the printed dict equal the tables of the board itself, although printing replaces points by their representatives |
| StaticRoundTrip.RepBoardPool | pcb_world/core/indexed_obs.py:94-118 | registering the representatives again gives the same pool, so every P, D, E, O, U number is reproduced |
| StaticRoundTrip.TablesDecodeToContext | pcb_world/core/indexed_obs.py:553-605 | decoding the tables of a board prints the board without its polygon outlines, id for id |
| StaticRoundTrip.StaticLossless | pcb_world/core/indexed_obs.py:542-605 | decode after encode is the printed context if and only if no rectangle has an outline; encoding again always gives the same tables |
| StaticRoundTrip.FromBoardOutlines | pcb_world/core/observation.py:324-453 | for a board from the engine that condition is a check of its obstacle list alone |
| StaticRoundTrip.ForeignIdsAreRenumbered | pcb_world/core/indexed_obs.py:145-223 | a context with ids of its own comes back with fresh ids: the ids of the input are not read |
| PointIdentity.TableRowsTell | pcb_world/core/indexed_obs.py:106-114 | every reference of the static tables is to a row that lies where its input point does, and two are one row if and only if their rounded coordinates agree |
| IndexedDynamic.Reg | pcb_world/core/indexed_obs.py:280-288 | the global row is the net's base plus the row in the net's own pool; earlier nets' points are never matched |
| IndexedDynamic.AppendTracks | pcb_world/core/indexed_obs.py:290-293 | a net appends exactly its own track rows, with references relative to its base |
| IndexedDynamic.AppendVias | pcb_world/core/indexed_obs.py:294-298 | the same for vias, which share the pool the tracks began |
| IndexedDynamic.DynamicFromPerNet | pcb_world/core/indexed_obs.py:230-337 | starts are prefix sums and counts are lengths: every column is the concatenation of the nets' own columns |
| IndexedDynamic.TablesStep | pcb_world/core/indexed_obs.py:267-308 | the concatenation form and the append-one-net form agree net by net |
| IndexedDynamic.DynamicTablesFromIr | pcb_world/core/indexed_obs.py:355-378 | nets in ascending code, Q numbers read off the ids |
| IndexedDynamic.QIdsForPoints | pcb_world/core/indexed_obs.py:340-352 | Q numbers are recomputed as first occurrences of the rounded (x, y, layer) |
| IndexedDynamic.DynamicTablesFromDict | pcb_world/core/indexed_obs.py:381-413 | the cold path from the printed dict: P numbers and Q numbers are both rebuilt |
| IndexedDynamic.NetGeometryRows | pcb_world/core/indexed_obs.py:611-654 | a net's dict is its spans of the columns, point ids relative to its own pool |
| IndexedDynamic.ArraysToDynamic | pcb_world/core/indexed_obs.py:607-654 | one entry per net in row order, the later row for a repeated code |
| DynamicRoundTrip.TrackRefsInPool | pcb_world/core/indexed_obs.py:267-308 | both ends of every track row lie inside its own net's stretch of the point pool |
| DynamicRoundTrip.ViaRefsInPool | pcb_world/core/indexed_obs.py:267-308 | so does the centre of every via row |
| DynamicRoundTrip.DynTablesInRange | pcb_world/core/indexed_obs.py:230-337 | every span lies in its columns and every reference in the pool |
| DynamicRoundTrip.TablesDecodePerNet | pcb_world/core/indexed_obs.py:607-654 | decoding any tables gives, for every net, the dict its rows stand for |
| DynamicRoundTrip.DynamicLossless | pcb_world/core/indexed_obs.py:355-413 | the hot path and the cold path give the same tables, and decoding them gives the printed geometry, for every list of nets in ascending code |
| PointIdentity.RoutingRowsTell | pcb_world/core/indexed_obs.py:280-312 | the same for the track ends and vias of the dynamic tables, within a net; two nets never share a row |
| PointIdentity.RatsnestRowsTell | pcb_world/core/indexed_obs.py:299-352 | a ratsnest row has its point's place and layer, and two of a net have one Q number if and only if rounded coordinates and layer agree |
| ObservationForms.BuildIndexedObservation | pcb_world/core/indexed_obs.py:443-474 | the hot path equals its specification |
| ObservationForms.DictToArrays | pcb_world/core/indexed_obs.py:420-440 | the cold path equals its specification |
| ObservationForms.ArraysToDict | pcb_world/core/indexed_obs.py:542-666 | decoding leaves exactly the dict its assignments make; a dict observation is returned as it is |
| ObservationForms.DecodedIsDict | pcb_world/core/indexed_obs.py:542-666 | with every net code once, no assignment overwrites another |
| ObservationForms.FormsAgree | pcb_world/core/indexed_obs.py:420-666 | the lossless promise for every board, snapshot and episode state: encoding the dict observation is the indexed one, decoding the indexed one is the dict if and only if no rectangle has a polygon outline, and the tables survive the round trip either way |
| ObservationForms.FromBoardCodes | pcb_world/core/observation.py:385-417 | a board from the engine has every net once |
| ObservationForms.EngineFormsAgree | pcb_world/core/indexed_obs.py:420-666 | for boards and snapshots from the engine the decoder, run on the indexed observation, gives the dict observation if and only if no obstacle has a polygon outline |
| ObservationForms.HeadTells | pcb_world/core/observation.py:648-683 | the head names the phase (no net, a net, a session), the net or -1, the steps made and left and their ratio, and carries the router's state |
| BoardScheduling.BoardScheduler.constructor | methods/_shared/board_scheduler.py:58-92 | iteration -1, no epoch begun |
| BoardScheduling.BoardScheduler.NextIndices | methods/_shared/board_scheduler.py:98-132 | a non-positive count is refused with nothing changed; otherwise the boards and the whole new state are those of the mode's dealing function |
| BoardScheduling.BoardScheduler.DrawOne | methods/_shared/board_scheduler.py:112-132 | one draw of a per-env mode: a used-up epoch is reshuffled and counted first |
| BoardScheduling.BoardScheduler.StateDictOf | methods/_shared/board_scheduler.py:181-188 | everything later draws depend on is written out |
| BoardScheduling.BoardScheduler.LoadStateDict | methods/_shared/board_scheduler.py:190-202 | present keys replace the state, a missing key keeps this scheduler's value |
| BoardScheduling.DealSplits | methods/_shared/board_scheduler.py:98-132 | dealing a + b boards is dealing a and then b, across epoch boundaries |
| BoardScheduling.BatchingExactly | methods/_shared/board_scheduler.py:98-132 | next_indices(a) then next_indices(b) deals what next_indices(a + b) deals if and only if the mode is not round robin or there is one board; the state differs in the call count only |
| BoardScheduling.DealIsDealt | methods/_shared/board_scheduler.py:112-132 | after k draws: whole epochs, then a prefix of the current permutation, whatever the shuffle returns |
| BoardScheduling.Fair | methods/_shared/board_scheduler.py:98-132 | every finished block of n draws holds every board exactly once; two boards' counts differ by at most one at any moment; epochs_completed is the ceiling of draws over boards |
| BoardScheduling.RunIsDeal | methods/_shared/board_scheduler.py:98-132 | any sequence of calls deals one stream of draws |
| BoardScheduling.RunIsFair | methods/_shared/board_scheduler.py:98-175 | the same fairness for any sequence of next_indices calls, batched in any way |
| BoardScheduling.EpochDraws | methods/_shared/board_scheduler.py:122-130 | draw i of the epoch mode is entry i mod n of the (i div n)-th shuffle, each shuffle going on from the generator state the one before it left |
| BoardScheduling.RandomRun | methods/_shared/board_scheduler.py:119-120 | draw i of the random mode is `randrange` on the i-th successive generator state, in range, however the draws are batched |
| BoardScheduling.RoundRobinTurns | methods/_shared/board_scheduler.py:111-117 | call j of a run gets board j, counted around, as often as it asked; in the single mode board 0 |
| BoardScheduling.ResumeGoesOn | methods/_shared/board_scheduler.py:181-202 | saving after any calls and loading into any scheduler of the same config continues the run exactly, forever |
| Rewards.PotentialReward.constructor | pcb_world/core/reward.py:177-342 | the bound fields start from the configuration |
| Rewards.PotentialReward.SetNetSizeWeights | pcb_world/core/reward.py:515-538 | both maps are installed, or neither: refused exactly when the sizes differ or a weight is not positive |
| Rewards.PotentialReward.BindStaticGroup | pcb_world/core/reward.py:417-435 | the static phase; a refused bounding box leaves the bonuses already written |
| Rewards.PotentialReward.SumGroups | pcb_world/core/reward.py:482-490 | the board total is the sum over the routable nets |
| Rewards.PotentialReward.BindResetGroup | pcb_world/core/reward.py:437-501 | the per-reset phase with its refusals |
| Rewards.PotentialReward.BindBoard | pcb_world/core/reward.py:404-501 | a partial keyword group or an empty call is refused with nothing changed; otherwise the static phase runs first |
| Rewards.BindingIsHistoryFree | pcb_world/core/reward.py:404-538 | after any earlier calls, failed ones included, a static and a per-reset bind give exactly the fields a fresh object would have |
| Rewards.ResetsLeaveNoTrace | pcb_world/core/env.py:737-742 | after one static bind and any per-reset binds, refused ones included, a reset's bind is refused or binds exactly as it would have as the first |
| Rewards.BindingIsRouteFree | eval/metrics.py:374-381 | the environment's and the scorer's bind agree when pad groups and names agree on the routable nets, whatever else the two maps hold |
| Rewards.SameTotals | pcb_world/core/reward.py:491-501 | code-keyed and name-keyed weights have the same total |
| Rewards.CleanIsTotalMinusDirty | pcb_world/core/reward.py:584-653 | total minus dirty, summed over two different dicts, is the weight of the nets without a violation |
| Rewards.WeightsAreSound | pcb_world/core/reward.py:584-653 | after any successful weighted bind the two totals agree and the weighted clean term lies between 0 and the total |
| Rewards.DrcPenaltyBounded | pcb_world/core/reward.py:540-583 | the DRC penalty is never negative, and the saturating shape is bounded by its scales |
| Rewards.PhiDefined | pcb_world/core/reward.py:584-671 | Φ is defined on every snapshot after a successful bind; on an unbound object it is refused exactly when a weighted term is configured |
| Rewards.BreakdownLeavesTheLadderOut | eval/metrics.py:265-278 | the reported components sum to Φ when no per-net ladder and no clean bonus is configured; otherwise they miss exactly those terms |
| PhiWorth.OpenConnectionCosts | pcb_world/core/reward.py:591-593 | one open connection more lowers Φ by its penalty, the first one by the completion bonus too |
| PhiWorth.WireAndViasCost | pcb_world/core/reward.py:655-660 | one via more lowers Φ by the via penalty, wire by its length times the bound price |
| PhiWorth.ConnectedNetPays | pcb_world/core/reward.py:623-629 | in the flat ladder one more connected net raises Φ by exactly the net completion bonus |
| PhiWorth.ClosedNetPays | pcb_world/core/reward.py:610-622 | in the weighted ladder taking a net out of the open codes raises Φ by the bonus times the net's weight, a net without a weight by nothing |
| PhiWorth.CleanLadderIs | pcb_world/core/reward.py:641-650 | the flat clean ladder adds its bonus for every target net without a violation; orphan violations count for none |
| PhiWorth.CleanNetPays | pcb_world/core/reward.py:641-650 | one more net with violations lowers what the flat clean ladder adds by exactly its bonus, the orphan entry by nothing |
| PhiWorth.CleanNetGains | pcb_world/core/reward.py:641-650 | under the linear penalty shape that is the whole difference of Φ |
| PhiWorth.WeightedCleanNetPays | pcb_world/core/reward.py:631-640 | in the weighted clean ladder it is the bonus times the net's weight |
| PhiWorth.CleanBoardPays | pcb_world/core/reward.py:651-652 | the clean-board bonus is added exactly when the violations of the configured severity are none |
| PhiWorth.LinearPenaltyIs | pcb_world/core/reward.py:558-560 | the linear shape charges its penalty for every violation of the configured severity |
| PhiWorth.DirtyNetCosts | pcb_world/core/reward.py:561-582 | in the other two shapes one more net with x violations costs its own saturating or logarithmic term and what the term of the number of nets grows by |
| BoundWorth.BoundAre | pcb_world/core/reward.py:417-490 | each bonus is bound by its own pad-group scale, else by its own log scale, else as configured, and wire is priced by the longer edge of the board |
| BoundWorth.BindWeighs | pcb_world/core/reward.py:491-501 | a weighted bind weighs every routable net once, by its code and by its own name, linearly in its pad groups or by their logarithm |
| BoundWorth.ClosedNetPaysItsSize | pcb_world/core/reward.py:610-622 | so closing a net in a bound weighted reward raises Φ by the bonus times the net's size |
| BoundWorth.DirtiedNetCostsItsSize | pcb_world/core/reward.py:631-640 | and violations on it lower what the clean ladder adds by the clean bonus times that size |
| BoundWorth.PenaltiesArePhi | pcb_world/core/reward.py:765-785 | the penalty-only truncation pays Φ with every bonus and every wire and via price left out |
| Masking.BuildMask | pcb_world/core/masking.py:134-143 | an action is enabled if and only if the rule has an entry for it whose conditions all hold: default deny |
| Masking.AllHold | pcb_world/core/masking.py:137-143 | a conjunction of conditions |
| Masking.WrittenSafelyIsSafe | pcb_world/core/masking.py:134-143 | a check of the rule's text that ensures start_route needs a net and net_end needs no session, in every context |
| Masking.ShippedRule | configs/masking/pcbworld_masking.yaml:10-24 | the shipped rule passes that check and never grants finish or idle |
| StepLaws.GrantsAre | pcb_world/core/masking.py:134-143 | the mask grants an action exactly when an entry of its number has all its conditions met by the selected net, the session, the ratsnest and the counters |
| StepLaws.ShippedGrants | configs/masking/pcbworld_masking.yaml:10-24 | what the shipped rule grants, action by action |
| Environment.ActionDispatcher.Dispatch | pcb_world/core/action.py:247-326 | every handler equals the specification of its action on engine and dispatcher together |
| Environment.ActionDispatcher.DoNetSelect | pcb_world/core/action.py:266-272 | selection takes effect only for a net with ratsnest edges |
| Environment.ActionDispatcher.DoNetEnd | pcb_world/core/action.py:280-287 | the net is deselected and an open session dropped |
| Environment.ActionDispatcher.DoMakeLine | pcb_world/core/action.py:288-301 | a failed line cancels the session |
| Environment.ActionDispatcher.DoMakeVia | pcb_world/core/action.py:302-311 | a failed via cancels the session |
| Environment.ActionDispatcher.DoFinish | pcb_world/core/action.py:312-323 | the session ends in every case |
| Environment.Checkpoint.Release | pcb_world/core/env.py:209-218 | the engine's copy is freed once, however often it is called |
| Environment.PCBWorld.TakeCheckpoint | pcb_world/core/env.py:1725-1747 | saves every episode field a later step reads; nothing but the engine's store changes |
| Environment.PCBWorld.RestoreFrom | pcb_world/core/env.py:1749-1793 | puts them back; the checkpoint is outside the frame, so it can be restored again |
| Environment.PCBWorld.ResetEngine | pcb_world/core/env.py:662-748 | session dropped, board stripped, all checkpoints forgotten, Φ₀'s state read |
| Environment.PCBWorld.ClearEpisode | pcb_world/core/env.py:728-808 | the whole episode state of a new episode, born-closed nets included |
| Environment.PCBWorld.KeepFirst | pcb_world/core/env.py:842-849 | the reset board is the first best board |
| Environment.PCBWorld.Reset | pcb_world/core/env.py:640-849 | a new episode is a function of the live board, whatever the episode before did |
| Environment.PCBWorld.ActionMask | pcb_world/core/env.py:1538-1552 | the mask is the rule's answer on the live state |
| Environment.PCBWorld.CloseOrReopen | pcb_world/core/env.py:1088-1104 | only a successful net_end closes and only a reselect reopens, counted once |
| Environment.PCBWorld.PerformAction | pcb_world/core/env.py:1059-1129 | stage 2 as a whole |
| Environment.PCBWorld.ActStage | pcb_world/core/env.py:1022-1129 | stages 1 and 2 |
| Environment.PCBWorld.CountStagnation | pcb_world/core/env.py:1149-1158 | the counter rests while a search is under way |
| Environment.PCBWorld.Ending | pcb_world/core/env.py:1134-1160 | the ending rules |
| Environment.PCBWorld.EndDrc | pcb_world/core/env.py:1173-1176 | a DRC run only at the end of a terminal-mode episode |
| Environment.PCBWorld.RewardStage | pcb_world/core/env.py:1217-1252 | the Φ difference and the two cached reward states |
| Environment.PCBWorld.BestStage | pcb_world/core/env.py:1358-1392 | stage 7 as a whole: keep, release, or roll back |
| Environment.PCBWorld.StepOnce | pcb_world/core/env.py:994-1396 | a step in place, field by field, is the step function below |
| SearchRuns.DispatchKeepsSession | pcb_world/core/action.py:42-181 | only start_route opens a session, only net_select and net_end change the net, and a finish or a failed line or via leaves no session |
| SearchRuns.BookkeepCounts | pcb_world/core/env.py:1088-1104 | closed nets plus reopenings grow by one exactly when a new net closes |
| SearchRuns.ShapingTelescopes | pcb_world/core/reward.py:673-752 | under both emission modes one step's reward is the difference of one quantity before and after |
| SearchRuns.MoveKeeps | pcb_world/core/env.py:1022-1288 | a step keeps telescoping, cached reward state, sessions and closed-net counts, searched or committed |
| SearchInvariants.ApplyInvariant | pcb_world/core/env.py:1725-1801 | steps, nested checkpoints, restores in any order and releases keep the run invariant, for every live checkpoint as well as the live state |
| SearchInvariants.EpisodeInvariant | pcb_world/core/env.py:610-1801 | hence it holds in every reachable state of every episode |
| EpisodeTheorems.RewardsTelescope | pcb_world/core/env.py:1217-1247 | in per-step mode, along the path the live state stands on in any tree of runs, the Φ rewards sum to Φ(now) - Φ(reset), both scored from the boards |
| EpisodeTheorems.HeldBackRewardsTelescope | pcb_world/core/reward.py:701-752 | under on_net_end they sum to the difference of the main part plus the wire and via part up to the last flush, and to the whole ΔΦ when that is now |
| EpisodeTheorems.FlushSettles | pcb_world/core/env.py:1228-1247 | a carried-out net_end, or step that completes the board, leaves nothing held back; any other leaves the last flushed state, or the one before it |
| EpisodeTheorems.CheckpointsTelescope | pcb_world/core/env.py:1733-1781 | between any two live checkpoints of a search tree the rewards differ by the difference of their boards' Φ |
| BoundEpisodes.PotentialIsPhi | pcb_world/core/env.py:728-748 | in any episode of an environment, after a static bind and any resets, the potential of every state the engine gives is Φ of a fresh object bound to this episode, and that Φ is defined |
| BoundEpisodes.BoundRewardsTelescope | pcb_world/core/reward.py:673-699 | so the rewards of any episode sum to that Φ of the live board minus that of the reset board |
| BoundEpisodes.BoundHeldBackRewardsTelescope | pcb_world/core/reward.py:701-752 | and under on_net_end to the main part now and the wire and via part up to the last flush |
| EpisodeTheorems.OpenSessionHasNet | pcb_world/core/action.py:266-322 | in every reachable state, and in every live checkpoint, an open session implies a selected net, for every safe rule |
| EpisodeTheorems.RefusedActionsDoNothing | pcb_world/core/env.py:1037-1060 | an idle or masked action changes nothing the next step reads |
| EpisodeTheorems.NoSessionSurvives | pcb_world/core/action.py:288-322 | no session survives a finish, or a line or via that fails |
| EpisodeTheorems.ClosedNetsAddUp | pcb_world/core/env.py:763-795 | closed nets = born closed + first-time closings - reopenings, on every path; without reselect the closed set keeps the born-closed nets and nothing reopens |
| EpisodeTheorems.ClosedSetMoves | pcb_world/core/env.py:1088-1104 | a net enters only by its own successful net_end and leaves only by reselecting it while it has ratsnest edges |
| EpisodeTheorems.AtMostOneBestBoard | pcb_world/core/env.py:1358-1365 | beside the driver's live checkpoints the engine holds at most one board, and every live checkpoint can be restored |
| BestBoards.KeptBoardIsThePeak | pcb_world/core/env.py:832-849 | until the episode ends, the kept board's Φ is the maximum over the reset board and every tracked board |
| BestBoards.EndsOnTheBestBoard | pcb_world/core/env.py:1358-1392 | the final live board reaches that maximum (minus 1e-9) if and only if the mask grants the last action or the live board is already there; a granted last action reports the final board's Φ |
| BestBoards.CarriedOut | pcb_world/core/env.py:1037-1059 | a step carries its action out if and only if it is not idle and the mask grants it |
| BestBoards.RefusedEndingKeepsTheWorseBoard | pcb_world/core/env.py:1358-1366 | a run that ends on a refused action and leaves a board one below the peak |
| Excursions.StepAlike | pcb_world/core/env.py:994-1396 | two states that differ in handle numbers only take every step with the same result |
| Excursions.SameFuture | pcb_world/core/env.py:994-1396 | and so every sequence of steps |
| Excursions.ExcursionIsInvisible | pcb_world/core/env.py:1725-1793 | checkpoint, any search steps with nested checkpoints, restores and releases, then restore: state, account and best board are as before, the older checkpoints too, and the checkpoint can be used again |
| Excursions.ExcursionChangesNoResult | pcb_world/core/env.py:1725-1793 | every committed continuation gives the results it would have given without the excursion |
| StepLaws.HandlersAre | pcb_world/core/action.py:247-326 | when each handler succeeds and what it leaves: net_select needs open connections, start_route no session and a layer of the board, a via a larger via count |
| StepLaws.EndsWhen | pcb_world/core/env.py:1134-1160 | an episode terminates exactly when no connection is open or every routable net is closed, and is truncated at the step limit or when the stagnation count reaches the patience |
| StepLaws.TruncatedExactly | pcb_world/core/env.py:1143-1160 | without rollbacks, exactly at the step limit or when the last `patience` committed steps left the open connections as they were |
| StepLaws.TerminalPays | pcb_world/core/env.py:1248-1253 | in terminal mode a step pays nothing before the end; a termination pays Φ of the board with its end DRC run, a truncation nothing, the penalties or all of Φ |
| StepLaws.EndReports | pcb_world/core/env.py:1331-1392 | the final potential is that of the state the last action left, of the end board where it was refused or in terminal mode, or the kept one after a rollback; and when a rollback happens |
| StepLaws.BestMoves | pcb_world/core/env.py:1358-1365 | before the end a tracked step replaces the kept board exactly when it scores higher; ties keep the earlier one |
| StepLaws.JumanjiPays | pcb_world/core/reward.py:687-698 | the connector baselines pay closed connections less wire, a flat step price, or one for every open connection |
| StepLaws.HistoryOfRun | pcb_world/core/env.py:1286-1288 | after a run without rollbacks the history is its records, newest first, then what was there, cut to its length |
| StepLaws.ShowsTheWorld | pcb_world/core/env.py:1286-1290 | the observation of a step shows the board, step, net, mode, history and ascending closed nets of the world it leaves |
| StepLaws.StartsFrom | pcb_world/core/env.py:640-849 | what a new episode starts from: the stripped board, its Φ₀ with violations, the nets born closed, and the first best board |
| StepLaws.NoSessionAfterReset | pcb_world/core/env.py:662-700 | no session outlives a reset |
| RewardLaw.StepPays | pcb_world/core/env.py:1217-1281 | a step's reward is its Φ difference less the step penalty, less the parse-fail penalty for an unreadable reply, the mask-reject penalty for a refused action, the invalid-action penalty for one granted in vain |
| RewardLaw.RunPays | pcb_world/core/env.py:1217-1281 | over a committed run the rewards add up to the Φ differences less each penalty times its own count; wasted actions cost nothing on the last step of terminal mode |
| RewardLaw.TallyIsOfTheTrace | pcb_world/core/env.py:1217-1281 | those sums are over the results the run returns |
| CellNames.MatchIsParsed | eval/eval_utils.py:806-814 | every way to read a name as the cell pattern is the parser's answer: the parse is unambiguous even when the board id contains the cell text |
| CellNames.ParsedIsMatch | eval/eval_utils.py:806-814 | every answer is such a reading |
| CellNames.NameRoundTrip | eval/eval_utils.py:806-814 | a printed name, in any directory, parses back to its board id, seed and rollout |
| CellNames.ParsedIdIsGood | eval/eval_utils.py:806-814 | parsed ids are non-empty, without slash and newline |
| CellNames.RoundTripExactly | eval/eval_utils.py:806-814 | a printed name comes back if and only if the id is non-empty, slash-free and newline-free |
| Attempts.BelowIsTotal | eval/eval_utils.py:287-325 | selection keys of one mode are totally ordered |
| Attempts.BelowIsTransitive | eval/eval_utils.py:287-325 | and transitively |
| Attempts.SelectBestInBoard | eval/eval_utils.py:328-338 | the first row with the largest key, which is the first row no row beats on its fields; nothing for no rows |
| Attempts.SelectRoutedFirst | eval/aggregation.py:125-142 | the first row of the best tier there is (scored, routed, failed) that no row of the tier beats on its fields |
| Attempts.WinnerIsOfTheBestTier | eval/aggregation.py:125-142 | never failed when a routed row exists, never an error when a scored one exists |
| Attempts.WinnerIsUnique | eval/aggregation.py:125-142 | there is one winner |
| Attempts.KeyTells | eval/eval_utils.py:287-325 | one row's key is not below another's exactly when, field by field in the order of the mode, nothing in the other beats it first: larger potential and routability, fewer errors, shorter wire, fewer vias, smaller rollout index; a blank is worst |
| Attempts.BestOnFields | eval/eval_utils.py:328-338 | the row with the first largest key is the first row that no row beats on the fields |
| Attempts.WinnerOnFields | eval/aggregation.py:125-142 | no row is of a better tier than the winner, no row of its tier beats it on the fields, and it is the first such |
| Aggregation.ClassifyCellRows | eval/aggregation.py:152-190 | an error exactly when some row contradicts its name or its file; otherwise every row is placed in order |
| Aggregation.ChargeFailed | eval/aggregation.py:942-956 | each failed attempt goes to its own ckpt, else to the cell's only one, else it stays unattributed |
| Aggregation.OnlyCkptIs | eval/aggregation.py:940-956 | a cell has an only ckpt exactly when it has groups and all of them are of that ckpt |
| Aggregation.PriceUnscored | eval/aggregation.py:957-961 | a group whose routed attempts were all unscored is re-priced as a whole, any other is left alone |
| Aggregation.FillMissing | eval/aggregation.py:995-1012 | boards without unattributed failures are completed to every ckpt of the cell |
| Aggregation.CkptRows | eval/aggregation.py:1020-1050 | one line per group with its counts and its winner |
| Aggregation.AggregateBoards | eval/aggregation.py:820-1064 | stops exactly for the refusals, in their order; otherwise classification, charging, pricing, completion and report in one |
| AttemptConservation.PlacedCounts | eval/aggregation.py:152-190 | every row lands in exactly one list, failed or routed, errors among the routed counted separately |
| AttemptConservation.CompletedCounts | eval/aggregation.py:932-1012 | charging, pricing and completion neither lose nor double an attempt, for each of the three counters |
| BoardReports.AttemptsAreConserved | eval/aggregation.py:1053-1064 | summed over the report, n_runs is the input rows plus n_missing, n_failed the unrouted rows plus n_missing, n_eval_error the routed rows whose scoring failed |
| BoardReports.EveryBoardEveryCkpt | eval/aggregation.py:995-1012 | every reported board without unattributed failures has an attempt at every ckpt |
| BoardReports.NoUnscoredGroupIsLeft | eval/aggregation.py:957-961 | no finished group consists of unscored routed attempts, so no winner is an unscored row ranked on stale values |
| BoardReports.ColumnsAre | eval/aggregation.py:1053-1064 | a board's line counts its groups, its unattributed attempts, and all its attempts as those of its groups and the unattributed ones |
| FinishedRows.EveryRowIsFinished | eval/aggregation.py:932-1012 | in the finished report every failure, filled-in and re-priced ones included, starts and ends at its board's Φ₀ with gain 0, blank metrics and the failing values; every other attempt is a row of the file of that board and ckpt, with Stage 2's Φ₀ where it had none |
| FinishedRows.FailureScoreIs | eval/aggregation.py:62-72 | the failing values are False, False and 0, blank for a metric no routed row has, unless every routed row is an error |
| CrashCounts.CrashesAreConserved | eval/aggregation.py:193-208 | summed over the report the crashes are the crashed rows of the file, when no routed row is marked as a crash |
| Refusals.StopsExactly | eval/aggregation.py:866-931 | Stage 3 stops for the first of its seven reasons, each read off the rows of the file and the expected boards |
| PhiZero.PricedRows | eval/pipeline.py:366-396 | the rows a board is priced for: its failed ones, else its first unscored group, else those without Φ₀ |
| PhiZero.FailedBoardInputs | eval/pipeline.py:366-396 | Stage 2 needs a board exactly when it has such rows, or is expected and has no row |
| PhiZero.InputPathIs | eval/pipeline.py:388-395 | a board is scored from the first path its rows name, else the expected board's, else from none |
| PhiZero.IndexHasEveryRow | eval/aggregation.py:152-190 | a board is in the index if and only if it has a failed or a routed row |
| PhiZero.AttributionIsExact | eval/aggregation.py:942-956 | after charging, every list is what it was followed by exactly the failed rows charged to it, in order |
| PhiZeroContract.PricedForAReason | eval/pipeline.py:366-396 | before completion Stage 3 prices at Φ₀ exactly the boards Stage 2 has a reason for |
| PhiZeroContract.PricedAfterFill | eval/aggregation.py:979-1012 | completion adds exactly the boards without a row and the boards that miss a ckpt |
| PhiZeroContract.StageTwoAsksForWhatStageThreePrices | eval/pipeline.py:366-396 | Stage 3 uses a board's Φ₀ if and only if Stage 2 asked for it or the board, having rows elsewhere, misses a single ckpt |
| Copper.LabelsAreClusters | eval/metrics.py:388-402 | the cluster labels of a net tell exactly which items copper connects |
| Copper.OneTouchMore | eval/metrics.py:393-402 | a touch joining two pad-holding clusters lowers the pad groups by exactly one; any other touch, dangling copper included, changes nothing |
| Copper.AddedCopperOnlyJoins | eval/metrics.py:400-404 | adding any copper never raises the number of pad groups and never brings it to 0 |
| Copper.BareNet | eval/metrics.py:403-405 | on a stripped net every pad is its own group |
| Copper.OneGroupIsWhole | eval/metrics.py:399-400 | one group means all pads are connected |
| Routability.Balance | eval/metrics.py:420-423 | what was made exceeds what had to be made by the number of nets less the pad groups left on them |
| Routability.ScoreExactly | eval/metrics.py:407-425 | on any counts, a missing net read as no group: refused exactly on a regression, never negative, at most 1 if and only if nothing had to be made or at least as many groups are left as nets; and it tells success if and only if no net is missing, or something had to be made and the groups left are not as many as the nets |
| Routability.ScoreIsAFraction | eval/metrics.py:407-425 | so on counts that have every net the score is in [0, 1] and 1 if and only if success |
| Routability.RoutedBoardIsScored | eval/metrics.py:386-425 | a board routed by adding copper is always scored, and 1 means every net is whole |
| Routability.MissingNetMisleads | eval/metrics.py:420-425 | a missing net of two groups scores 2, one of a single group scores 1 without being a success |
| Routability.DeleteAll | eval/metrics.py:245-262 | ends without a track when every deletion lowers the count, else it is refused; the board is reached by deletions alone |
| Flatten.FlattenRolloutArtifacts | eval/pipeline.py:145-211 | the loop equals the pass over rows and files |
| Flatten.TargetParses | eval/pipeline.py:186-188 | every name the step writes is in the grammar with this board, seed and rollout |
| Flatten.FlatteningIsIdempotent | eval/pipeline.py:145-211 | a second run changes no row and no file and moves nothing |
| Flatten.NothingIsLostExactly | eval/pipeline.py:180-201 | all file contents survive if and only if no row moves onto a file that stands there or onto an earlier row's target; otherwise there are fewer files |
| Flatten.NoBoardIsLost | eval/pipeline.py:180-201 | rows that differ in (board_id, rollout_idx), moved to free places, lose nothing |
| Flatten.OccupiedPlaceLosesABoard | eval/pipeline.py:186-190 | differing pairs alone are not enough: a file left at a target is replaced |
| LegacyFill.ApplyLegacyFill | configs/loader/__init__.py:96-126 | the recursive loops equal the fill function, result and reported keys |
| LegacyFillLaws.FillIsRun | configs/loader/__init__.py:96-126 | a table without siblings of `"*"` acts on each key separately |
| LegacyFillLaws.FillTwice | configs/loader/__init__.py:96-126 | a second application changes nothing and reports nothing when `"*"` has no siblings |
| LegacyFillLaws.SiblingsBreakIdempotence | configs/loader/__init__.py:96-126 | a sibling filled as `{}` is changed by the second application |
| LegacyFillTables.SiblingIsHarmlessExactly | configs/loader/__init__.py:96-126 | a value filled beside `"*"` keeps the fill idempotent on every file if and only if the `"*"` table would leave that value as it is and report nothing |
| LegacyFillTables.ShippedFillsAreLonely | configs/ckpt_migrations.yaml:72-87 | in the shipped tables `"*"` has no siblings |
| LegacyFillTables.ShippedFillsTwice | configs/ckpt_migrations.yaml:72-87 | so a second migration of any rule file changes nothing and reports nothing |
| LegacyFillLaws.FillIsReported | configs/loader/__init__.py:96-126 | the mapping is unchanged if and only if nothing is reported and no null entry is read by a `"*"` table |
| LegacyFillLaws.NullIsReadSilently | configs/loader/__init__.py:96-126 | a null entry that is changed and not reported |
| CkptConfig.LoadCkptConfig | configs/loader/ckpt.py:213-294 | renames, CLI forms, derivation, fill and checks, refusals included |
| CkptConfig.AddCliForms | configs/loader/ckpt.py:258-261 | each field stored under an inverted dest gets the negated value, source ckpt |
| CkptFixedPoint.RenamesRetire | configs/loader/ckpt.py:234-257 | after the renames no retired key is left |
| CkptFixedPoint.OldLoadIsStable | configs/loader/ckpt.py:213-294 | the values of any successful old load satisfy what a further load checks and fills |
| CkptFixedPoint.StableReloads | configs/loader/ckpt.py:152-155 | such values written as arguments load as themselves, every field from the checkpoint |
| CkptFixedPoint.MigrationIsAFixedPoint | tools/ckpt_migrate.py:35-47 | loading an old checkpoint, writing its values back and loading again gives the same values with every source ckpt |
| CkptFixedPoint.WritableExactly | configs/loader/ckpt.py:152-155 | writing back is refused exactly for a rules source the old format has no value for |
| CkptFixedPoint.MigratingTwice | tools/ckpt_migrate.py:35-47 | a second migration leaves the checkpoint alone |
| CkptFixedPoint.TableOrderIsFree | configs/loader/ckpt.py:297-308 | the fill gives the same values and sources in any order of the table |
| CkptFixedPoint.OrderWouldMatter | configs/loader/ckpt.py:302-305 | it would not if proxies were read from the values filled so far |
| CkptValues.RenamesAre | configs/loader/ckpt.py:234-257 | each retired `no_x` gives its field the negation of the stored value, the int grid its mode, the YAML fallback its rules source; every other stored value stays |
| CkptValues.StoredIsLoaded | configs/loader/ckpt.py:213-294 | an old checkpoint loads every value it stores, renamed fields as said, fields of inverted forms as the negation of the stored dest |
| CkptValues.WeightsDecide | configs/loader/ckpt.py:178-210 | the loaded layout fields agree with the weights: presence, sizes and the two tokenizer layouts |
| CkptValues.AbsentIsFilled | configs/loader/ckpt.py:297-308 | a field with no other source takes its table value, a proxied one by whether the proxy was stored, and says so in its source |
| CkptValues.SchemaTwoIsLoaded | configs/loader/ckpt.py:213-283 | a schema-2 checkpoint loads what it stores, and what it lacks is derived or a field its writer never records |
| CkptValues.SchemaTwoSources | configs/loader/ckpt.py:157-167 | a stored field's source is an estimate where the checkpoint, or the base it was initialized from, says so, and else the checkpoint |
| CkptValues.OffTextIs | configs/loader/schema.py:72-77 | a text reads as off exactly when it is nothing but spaces, or none or off in any case between spaces |
| CkptValues.LoadedIsWhole | configs/loader/ckpt.py:284-292 | a loaded checkpoint has every field and corners of 45 or 90 degrees |
| Resolve.CollectLinks | configs/loader/resolve.py:171-171 | the entries of the layers that set a key, in layer order |
| Resolve.ResolveKey | configs/loader/resolve.py:169-197 | a key's chain, or a refusal exactly when a user layer sets a pinned key to another value against the table |
| Resolve.DecideKeys | configs/loader/resolve.py:168-200 | every key of the first defaults layer is decided, or the whole is refused |
| Resolve.ResolveConfig | configs/loader/resolve.py:141-201 | refused if and only if a check fails or some user layer breaks the table, read off scope, flags, mode, strictness and the stored value; otherwise every entry is the last link of its chain |
| Resolve.RefusedIsBroken | configs/loader/resolve.py:172-210 | the table refuses exactly when some user layer gives a stored key another value where the mode fixes it: resume arch keys and experiment keys without resume_mutable, eval arch keys and those without eval_override, init-ckpt arch keys if strict or recorded |
| Resolve.ChecksAre | configs/loader/resolve.py:158-166 | what the checks before any key look for: a key the first defaults layer does not list, and one that both the first command-line layer and a layer of code set |
| ResolveLaws.LastLayerDecides | configs/loader/resolve.py:168-200 | an entry is the last user layer that sets the key, else the pinned checkpoint value, else the last default |
| ResolveLaws.PinnedKeysHold | configs/loader/resolve.py:172-197 | a stored key that resume, eval or init-ckpt fixes ends same_value with the checkpoint, except an unrecorded architecture key of a non-strict init-ckpt run, which then has a user's value |
| ResolveLaws.ResumeReproduces | configs/loader/resolve.py:115-118 | saving a run and resuming it without user layers gives every non-process key its value back |
| ResolveLaws.ChainsUnlessAPrintMeetsAnEqual | configs/loader/resolve.py:128-138 | for all values, floats and lists included, same_value chains unless the middle is no text, one end is an == value of another print and the other end is the text the middle prints as |
| ResolveLaws.ChainsExceptForOne | configs/loader/resolve.py:128-138 | among flags, integers and texts that gap is the one between the spellings of True and 1 |
| ResolveLaws.FloatsAndListsHaveTheGap | configs/loader/resolve.py:128-138 | "45.0" is 45.0 and 45.0 is 45, but "45.0" is not 45; the same for "[True]", [True] and [1] |
| ResolveLaws.OffIsNoNumber | configs/loader/resolve.py:128-138 | the spellings of off equal each other and nothing else, zero included, and a number equals its print |
| PyValues.PrintTells | configs/loader/resolve.py:134-134 | values other than texts that print alike are one value, nested lists with quoted texts included |
| PyValues.FalseIsZeroOrEmpty | configs/loader/ckpt.py:243-251 | a value counts as false exactly when it is none, equals zero, or is empty |
| PyValues.IntReads | configs/loader/ckpt.py:234-241 | `int` of an integer, of its print and of the float equal to it is the integer |
| PyValues.Transitive | configs/loader/resolve.py:134-134 | == of flags, integers, floats and lists chains |
| FloatText.ReadText | configs/loader/resolve.py:134-134 | a float printed as Python prints it reads back as itself, in positional and in exponent form |

## Left out

- Floating point: coordinates, Φ and metrics are reals; `round(x, 3)` and `log1p` are arbitrary functions, so NaN, infinities and rounding error are not modelled, nor is the 64-bit width of the tables.
- The KiCad engine, its router and DRC: an engine is a record of arbitrary functions; the only facts ever assumed are that `start_route` alone opens sessions and `cancel` ends them (`SessionsHonest`) and that repeating a DRC run on an unchanged board reports the same (`DrcRepeatable`). The incremental DRC is taken as the full one, and a restore as returning the saved board.
- Engine calls that raise: an action either succeeds or fails.
- Re-opening a routing session after a restore, dragging, the KIID rewind, crash logging and timing.
- The keep and strip policies of `reset` (one abstract `strip`), the board reload behind keep-routing, its incompleteness error, and the RNG draws.
- Terminal-reward noise, whose random state a checkpoint does not save.
- The DRC and info fields of `step` other than reward, flags, Φ and the board, and the text of an observation: an observation is everything it is computed from.
- Environment.Checkpoint.Release: does not model the weak reference and the release by the garbage collector; checkpoints and closed sets are values, so Python's aliasing cannot arise in the model and the copies the code makes are not separately visible.
- Gym spaces, rendering, net constraints in observations and `set_target_nets`.
- The tokenizer, the augmentations behind `_aug` and array memory layout.
- Rewards.PhiDefined: reads a Φ that the code refuses to compute as absent; in the environment, whose reset always binds first, it is total.
- `compute_final` beyond its value Φ, the legacy `RewardFunction` and `FinalOnlyReward` classes.
- YAML, CSV and JSON parsing, the mask schema's validation and the mask registry.
- Aggregation.AggregateBoards: states classification, charging, pricing, completion, counts and winners; the metric means, deviations, time columns, `giveup_quality`, API-failure sums and printed warnings are not modelled, and its lists are in dict order where the code sorts its output.
- Aggregation.ClassifyCellRows: takes the ckpt column as a number or blank and file existence as a predicate.
- The checks on the Φ₀ file (reward configuration and angle of Stage 2), the several-`check_angle` refusal, and inline aggregation.
- Attempts.SelectBestInBoard: a missing value orders below every number, as the code's fill values do; infinite metric values are not modelled.
- CellNames.ParsedIsMatch: `\d` is the ten ASCII digits, although Python's also matches other Unicode digits.
- Routability.DeleteAll: is one of the two loops of the code, over an arbitrary deletable board.
- DRC violation records, the routing-angle check, runtime columns and the remaining metrics.
- CkptFixedPoint.MigrationIsAFixedPoint: requires tables that do not overlap (`TablesOk`: no table sets a retired key or an inverted dest, which can be read off the tables).
- Schema-2 checkpoints are loaded, but their fixed point is not stated: their migration writes `args` that the loader ignores.
- `with_legacy_env_defaults`, `merge_configs`, `_from_old_reward_format` and the schema checks of the loader.
- Resolve.ResolveConfig: argument parsing, recipes, the warning of an accepted override, the run's `meta` and error texts are not modelled.
- BoardScheduling.BoardScheduler.constructor: takes the board list as a positive number; paths, pads and the validation of the config are not modelled.
- Wave planning, early-stop guards, loggers, scripts and experiment tooling: no deep property.
- IndexedStatic.StaticTablesFromDict: requires the keys of the nets to read as `net_<code>` and takes a dict with all its keys; the conversion error of another key and the defaults of missing optional keys are not modelled, nor a point prefix other than `P` and `Q`.
- IndexedDynamic.DynamicTablesFromDict: likewise takes a dict with all its keys, nets keyed `net_<code>`.
- ObservationForms.DictToArrays: likewise.
- Rewards.PotentialReward.constructor: does not model the refusals of contradictory knobs; Φ is stated for knobs with positive offsets.
- Environment.ActionDispatcher.Dispatch: does not model defaults of missing parameters or the info dict of a handler.
- Environment.PCBWorld.ResetEngine: has one abstract `strip` for the keep and strip policies, and no KIID rewind.
- Environment.PCBWorld.Reset: likewise.
- Environment.PCBWorld.StepOnce: returns the observation, reward, flags, Φ difference and final potential; the other info fields are not modelled.
- Aggregation.CkptRows: states a group's counts and winner, not its metric and time columns.
- BoundEpisodes.BoundRewardsTelescope: assumes that every state read off the engine carries the per-net facts, as `RewardState.from_snapshot` fills them.
- Flatten.FlattenRolloutArtifacts: does not move the `.kicad_pro` and `.kicad_prl` sidecars, remove the staging directory or write the CSV, and reads paths as text, without `..` or links.
- Flatten.FlatteningIsIdempotent: requires of the rows still in staging that the board id has no slash or newline and the rollout is not negative: a slash would name a directory that is not there, and the other two give names outside the grammar, which the next run moves again.
- Flatten.NothingIsLostExactly: likewise.
- Flatten.NoBoardIsLost: likewise.
- CkptConfig.LoadCkptConfig: values are none, flags, integers, floats, texts and lists; other objects, the warning, its once-per-process memory and `strict` are not modelled, and `lower` and `strip` are those of ASCII text.
- PyValues.PrintTells: a float is the decimal it prints as, so its exact binary value, signed zero, infinities and NaN are not modelled; a quoted text escapes the backslash, the quote and the three common control characters, other unprintable characters stand as they are.
- LegacyFillLaws.FillTwice: requires that `"*"` has no siblings at any level; `SiblingIsHarmlessExactly` gives the exact condition for one filled sibling behind `"*"`, and several siblings, nested tables or siblings before it are not characterized.
- CrashCounts.CrashesAreConserved: requires that no routed row has the status `crashed`, as the rollouts write it; a re-priced group with such a row would count it.
- CkptValues.StoredIsLoaded: requires that no field of an inverted form is one that a retired key was renamed to, which can be read off the tables.
- StepLaws.TruncatedExactly: is about committed steps from a reset; a search rests the counter.
