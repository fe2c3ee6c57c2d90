# Machine-telemetry dashboard: a verified model

This project models the data-handling core of a vibration-monitoring system.

A replay simulator serves one reading per machine on every call. Each machine
cycles through its own rows of a table.

The backend turns readings into records in two steps:

- three classifiers' numeric outputs are mapped to fault labels and combined by a
  two-out-of-three vote into a fault and a confidence;
- per-axis features are read from fixed columns of the reading's first row.

Two React dashboards poll the resulting feed. Each poll folds a snapshot
(machine id to status and features) into an ordered machine list. The fold
keeps the user-edited fields and a 50-sample history per machine, and drops or
keeps the machines the snapshot does not mention:

- the frontend dashboard keeps every such machine whose id is non-empty;
- the second dashboard keeps every such machine whose id starts with `manual-`, which covers the machines added on it.

Machines are added and removed locally, and each card is coloured from its
fault and confidence. A live chart keeps four series (rms, kurtosis,
peak-to-peak, crest factor). On every refresh tick it pushes the newest sample,
then evicts every point at or before `now - 20000` ms.

Layout:

| file | module | models |
|---|---|---|
| wrappers.dfy | `Wrappers` | `Option`, `Result` |
| seqs.dfy | `Seqs` | `filter` with its characterisation, `slice(-n)`, `unique()` |
| telemetry.dfy | `Telemetry` | the feed entry, the machine record, `data[id]`, `find`, the carried user fields, the status colour and icon |
| frontend_app.dfy | `FrontendApp` | the frontend merge, the selection sync, add and remove; class `Dashboard` holds the component state |
| rolling_chart.dfy | `RollingChart` | the chart's push-then-evict tick; class `StreamingChart` over an array of four series |
| project_app.dfy | `ProjectApp` | the second dashboard as pure state transitions: the merge with `manual-` retention, add and remove |
| predictor.dfy | `Predictor` | label lookup, the vote and the decision rule |
| data_processing.dfy | `DataProcessing` | `graph_value` and the result record |
| simulator.dfy | `Simulator` | class `MachineDataSimulator` with its round-robin cursors |

Every source of time or outside input is a parameter:

- `Date.now()` is `now`;
- `format(new Date(), 'yyyy-MM-dd')` is `today`;
- an HTTP response is an `Option` or an outcome datatype;
- a classifier's prediction is an integer argument;
- the CSV table is a sequence of rows.

## Model

| member | source | states |
|---|---|---|
| Telemetry.Lookup | frontend/src/App.tsx:271-272 | `data[id]` is present exactly when the id is a key of the snapshot |
| Telemetry.LookupDistinct | frontend/src/App.tsx:271 | with distinct keys, `data[id]` is the entry stored under that id |
| Telemetry.FindIndex | frontend/src/App.tsx:229 | `find` returns the first machine with the id, and none exactly when no machine has it |
| Telemetry.FindIndexAt | frontend/src/App.tsx:297 | the first position holding an id is the one `find` picks |
| Telemetry.CarriedInfo | frontend/src/App.tsx:255-258 | each non-empty previous name, type, location and date is kept; each empty or missing one becomes `Machine <id>`, `Conveyor`, `Floor 1` or today respectively |
| Telemetry.StatusColor | frontend/src/App.tsx:306-310 | emerald iff the fault is `normal`; red iff it is not normal and confidence is `high`; amber iff neither |
| Telemetry.StatusIcon | frontend/src/App.tsx:460-466 | check iff normal; triangle iff not normal and confidence is `low`; circle otherwise |
| Telemetry.IconAgreesWithColor | frontend/src/App.tsx:460-466 | icon colour and card colour agree iff the fault is normal or the confidence is `high` or `low`; any other confidence gives an amber card with a red icon |
| FrontendApp.SampleOf | frontend/src/App.tsx:230-250 | the new sample is stamped `now` and each axis feature is the `graph_value` field, or 0 when the axis or field is missing |
| FrontendApp.Fed | frontend/src/App.tsx:228 | one merged machine per snapshot entry, in snapshot order |
| FrontendApp.Merge | frontend/src/App.tsx:227-266 | the result is the fed machines in snapshot order followed by the retained previous machines |
| FrontendApp.MergedHistory | frontend/src/App.tsx:251-262 | a fed history is the previous history plus the new sample, capped at 50: non-empty, ends with the sample stamped `now`, and a full history loses exactly its oldest sample |
| FrontendApp.MergedSampleDefaults | frontend/src/App.tsx:232-249 | every feature of the appended sample is the snapshot's field, or 0 when it is missing |
| FrontendApp.MergedStatus | frontend/src/App.tsx:259-261 | a missing or empty fault becomes `normal` (emerald card); every other field of the entry is copied unchanged |
| FrontendApp.MergedUserFields | frontend/src/App.tsx:229-262 | a matched machine keeps its non-empty user fields and extends its own history; an unknown id gets the defaults and a one-sample history |
| FrontendApp.MergeRetainsAbsent | frontend/src/App.tsx:265-266 | after the fed machines come exactly the previous machines with a non-empty id absent from the snapshot, unchanged and in previous order; a previous id survives iff the snapshot lists it or it is non-empty |
| FrontendApp.MergeIds | frontend/src/App.tsx:228-266 | merged ids are the snapshot's ids followed by the retained machines' ids |
| FrontendApp.MergeKeepsIdsDistinct | frontend/src/App.tsx:227-266 | distinct previous ids and distinct snapshot keys give distinct merged ids |
| FrontendApp.UpdateMachine | frontend/src/App.tsx:228-262 | a fed machine has the entry's id, confidence, model labels and features, a non-empty fault (the entry's when non-empty), at most 50 history samples; an unknown id gets the defaults and a one-sample history |
| FrontendApp.SyncSelectedFromFeed | frontend/src/App.tsx:269-283 | a selected machine the snapshot lists takes the snapshot's data and keeps its user fields and history; otherwise the selection stays |
| FrontendApp.ResyncSelected | frontend/src/App.tsx:295-303 | a selected machine whose id is listed becomes the first listed machine with that id; otherwise the selection stays |
| FrontendApp.SelectionRefresh | frontend/src/App.tsx:269-303 | after a poll, a selected machine the snapshot mentions is the merged machine itself |
| FrontendApp.NewMachine | frontend/src/App.tsx:328-349 | a registered machine has the given id, the form's name, type and location and today's date, confidence `high` and `normal` model labels; it is normal (emerald), has all-zero features and an empty history |
| FrontendApp.RemoveById | frontend/src/App.tsx:363 | the removed id is no longer listed and the list does not grow |
| FrontendApp.RemoveKeepsOthers | frontend/src/App.tsx:363 | remove keeps exactly the machines with another id, unchanged and in order |
| FrontendApp.RemoveKeepsIdsDistinct | frontend/src/App.tsx:362-363 | removing machines never creates a repeated id |
| FrontendApp.AddKeepsIdsDistinct | frontend/src/App.tsx:327-351 | registering keeps ids distinct iff the backend's `machine_id` is not listed yet, which the dashboard does not check |
| FrontendApp.ResyncKeepsListedSelection | frontend/src/App.tsx:295-303 | with distinct ids, the resync leaves a listed selection as it is |
| FrontendApp.AddThenRemove | frontend/src/App.tsx:351-363 | adding a machine under a fresh id and removing that id restores the list |
| FrontendApp.AddedMachineSurvivesMerge | frontend/src/App.tsx:265-266 | a registered machine the feed does not list survives the next poll unchanged and last |
| FrontendApp.Dashboard.constructor | frontend/src/App.tsx:210-219 | empty list, no selection, the default form, closed |
| FrontendApp.Dashboard.Poll | frontend/src/App.tsx:221-303 | a failed fetch changes nothing; otherwise the list is merged and the selection is synced from the snapshot, then from the merged list |
| FrontendApp.Dashboard.AddMachine | frontend/src/App.tsx:295-359 | nothing without a name; otherwise the count is posted, and only a response with a `machine_id` appends the machine, resets the form and resynchronises the selection with the new list; a failed POST only closes the form |
| FrontendApp.Dashboard.Select | frontend/src/App.tsx:638-640 | a card click selects that listed machine and changes nothing else |
| FrontendApp.Dashboard.Deselect | frontend/src/App.tsx:527-529 | "Back to Dashboard" clears the selection and changes nothing else |
| FrontendApp.Dashboard.RemoveMachine | frontend/src/App.tsx:295-371 | filters the id out, posts the new length, clears a matching selection and resynchronises any other selection with the new list |
| RollingChart.TickSeries | frontend/src/components/RealTimeChart.tsx:103-111 | a tick yields four series again |
| RollingChart.TickWindow | frontend/src/components/RealTimeChart.tsx:108-111 | every kept point has `x > now - 20000` |
| RollingChart.TickEndsWithPushed | frontend/src/components/RealTimeChart.tsx:103-110 | each series ends with the point just pushed, stamped `now`, carrying rms, kurtosis, pp, crestf in series order |
| RollingChart.TickIsWindowFilter | frontend/src/components/RealTimeChart.tsx:110 | the kept points are exactly the pushed series' points after `now - 20000`, in their original order |
| RollingChart.WindowExample | frontend/src/components/RealTimeChart.tsx:108-111 | a tick at 21000 ms evicts the point at 0 and keeps those at 5000, 10000, 15000 and the new one |
| RollingChart.LatestAxis | frontend/src/components/RealTimeChart.tsx:91-94 | the newest sample's axis is found iff the history is non-empty and that sample has the axis, and what is found is that sample's features for the axis |
| RollingChart.StreamingChart.constructor | frontend/src/App.tsx:85-128 | four empty datasets |
| RollingChart.StreamingChart.Tick | frontend/src/components/RealTimeChart.tsx:103-111 | pushes in place and then reassigns each dataset in a loop; the result is the push-then-evict tick |
| RollingChart.StreamingChart.OnRefresh | frontend/src/components/RealTimeChart.tsx:90-115 | an empty history or a missing axis changes nothing; otherwise the datasets tick with the newest sample |
| RollingChart.StreamingChart.OnRefreshInline | frontend/src/App.tsx:137-162 | no selection or an empty history changes nothing; otherwise the datasets tick with the newest sample's selected axis |
| ProjectApp.UpdateMachine | project/src/App.tsx:71-89 | a fed machine has the entry's id and stores the entry unchanged, with at most 50 history samples; an unknown id gets the defaults and a one-sample history |
| ProjectApp.Fed | project/src/App.tsx:71-90 | one merged machine per snapshot entry, in snapshot order |
| ProjectApp.Merge | project/src/App.tsx:70-99 | the result is the fed machines in snapshot order followed by the retained machines |
| ProjectApp.MergedHistory | project/src/App.tsx:73-88 | a fed history is the last 50 of the previous history plus a sample stamped `now` carrying the entry's `features` verbatim |
| ProjectApp.MergedStatus | project/src/App.tsx:84 | the status is the entry unchanged; an entry without a fault is never emerald |
| ProjectApp.MergedUserFields | project/src/App.tsx:72-83 | a matched machine keeps its non-empty user fields; an unknown id gets the defaults |
| ProjectApp.MergeIds | project/src/App.tsx:71-98 | merged ids are the snapshot's ids followed by the retained machines' ids |
| ProjectApp.MergeRetainsManual | project/src/App.tsx:93-98 | after the fed machines come exactly the previous `manual-` machines absent from the snapshot, unchanged and in order |
| ProjectApp.MergeKeepsManualIds | project/src/App.tsx:93-96 | a previous id survives a merge iff the snapshot lists it or it starts with `manual-` |
| ProjectApp.MergeKeepsIdsDistinct | project/src/App.tsx:70-99 | a merge keeps ids distinct |
| ProjectApp.DecimalString | project/src/App.tsx:119 | the decimal rendering of a timestamp is non-empty, with one digit iff the number is below 10 |
| ProjectApp.DecimalStringInjective | project/src/App.tsx:119 | different numbers render differently |
| ProjectApp.ManualId | project/src/App.tsx:119 | a locally added id starts with `manual-` |
| ProjectApp.ManualIdsDiffer | project/src/App.tsx:119 | additions at different times get different ids |
| ProjectApp.NewMachine | project/src/App.tsx:118-139 | the new machine has the given id, the form's name, type and location and today's date, confidence `high` and `normal` model labels; it is normal (emerald), has zeroed features on all axes and an empty history |
| ProjectApp.Poll | project/src/App.tsx:66-107 | a failed fetch changes nothing; a successful one replaces the list by the merge and leaves the selection and the form as they were |
| ProjectApp.AddMachine | project/src/App.tsx:115-149 | nothing without a name; otherwise `manual-<now>` is appended last, the new length is posted, and the form closes and resets |
| ProjectApp.RemoveMachine | project/src/App.tsx:151-161 | the list is filtered by id, so the id is gone; the new length is posted, a matching selection is cleared, and the form and its open flag stay |
| ProjectApp.RemoveKeepsOthers | project/src/App.tsx:153 | remove keeps exactly the machines with another id, unchanged and in order |
| ProjectApp.AddMachineKeepsIdsDistinct | project/src/App.tsx:115-141 | adding keeps ids distinct when `manual-<now>` is not listed yet |
| ProjectApp.RemoveMachineKeepsIdsDistinct | project/src/App.tsx:151-155 | removing never creates a repeated id |
| ProjectApp.AddThenRemove | project/src/App.tsx:115-161 | adding at `now` and removing `manual-<now>` restores the list when the id was fresh |
| ProjectApp.AddedMachineSurvivesMerge | project/src/App.tsx:93-98 | a locally added machine survives a later poll that does not list it, unchanged and last |
| Predictor.LabelOf | backend/predictor.py:12-17 | 0..3 map to normal, misalignment, unbalance, bearing_fault; any other output is an error naming it |
| Predictor.LabelsBijective | backend/predictor.py:12-17 | the label map is injective, covers every vote key, and label names are distinct |
| Predictor.IncrementsTally | backend/predictor.py:32-40 | three in-place increments of the zeroed dictionary leave every label holding the number of models that voted for it |
| Predictor.TwoVotesIsAgreed | backend/predictor.py:38-44 | a label has two or more votes iff two models agree and it is their label |
| Predictor.VotesSumToThree | backend/predictor.py:38-40 | the counts sum to 3, so a label with two or more votes is the only one |
| Predictor.MaxVotes | backend/predictor.py:43 | the maximum bounds every count and is attained |
| Predictor.FirstWith | backend/predictor.py:45 | `max(votes, key=votes.get)` is the first key in scan order with the maximum count |
| Predictor.ScanVoteKeys | backend/predictor.py:32-45 | the maximum and the winner of the four-key scan in closed form |
| Predictor.MajorityVote | backend/predictor.py:43-49 | the maximum reaches 2 iff two models agree, and then the winner is the agreed label whatever the scan order |
| Predictor.Decision | backend/predictor.py:43-49 | confidence is `high` iff two models agree, and the fault is then an agreeing model's label; otherwise `suspicious` with `low` |
| Predictor.Predict | backend/predictor.py:19-57 | succeeds iff all three outputs are labelled; the labels are echoed and the decision is the agreement rule's |
| Predictor.PredictFault | backend/predictor.py:19-57 | the imperative vote computes the agreement rule: the agreed label with `high`, else `suspicious` with `low`, labels echoed, or the lookup error |
| Predictor.PredictErrors | backend/predictor.py:27-29 | the call fails iff some output is outside 0..3, reporting the first in the order svm, knn, gnb |
| Predictor.TwoAgreeGiveHigh | backend/predictor.py:43-57 | two agreeing models decide the fault with `high`; the per-model labels are echoed |
| Predictor.AllDifferGiveSuspicious | backend/predictor.py:43-57 | three different labels iff `suspicious`, `suspicious` iff `low`, and a `high` fault is one of the models' labels |
| DataProcessing.ColumnsDistinct | backend/data_processing.py:17-36 | the twelve columns read are distinct and all below 26 |
| DataProcessing.GraphValueOf | backend/data_processing.py:17-36 | succeeds iff there is a first row of at least 26 columns; each feature is its column of that row (x at 3, 6, 5, 7; y at +9; z at +18) |
| DataProcessing.GraphValueReadsFirstRow | backend/data_processing.py:17-36 | only the first row matters |
| DataProcessing.FourColumnChunkRejected | backend/data_stream.py:15-22 | a four-column chunk as the stream produces it always fails with an index error |
| DataProcessing.ProcessItem | backend/data_processing.py:10-49 | a record is produced iff the prediction and the feature table both succeed; it is tagged with the machine id and carries the condition, the fault and the features |
| DataProcessing.ProcessOutcome | backend/data_processing.py:11-49 | a record is produced iff the prediction succeeds and the row is wide enough; a failed prediction is reported first |
| DataProcessing.ProcessCopiesFields | backend/data_processing.py:39-49 | the record is tagged with the machine id, echoes the condition, and copies fault, confidence, model labels and columns |
| DataProcessing.FeedEntryReachesChart | frontend/src/App.tsx:230-262 | a backend record reaches the chart history unchanged, and its card is emerald iff its fault is `normal` |
| Simulator.ListedHasRows | simulator.py:14-15 | a listed machine has at least one row, so the modulus is never zero |
| Simulator.ReadingOf | simulator.py:18-24 | a reading copies time/x/y/z; a missing `fault_type` becomes `normal` |
| Simulator.ReadingFromOwnRow | simulator.py:14-15 | the served reading is the machine's own row at position `cursor mod rowCount`, and the machine's rows are exactly those with its id |
| Simulator.ReadingPeriodic | simulator.py:15 | the readings cycle with period equal to the machine's row count |
| Simulator.OtherRowsIrrelevant | simulator.py:14 | other machines' rows change neither a machine's own rows nor what it is served |
| Simulator.ServedKeys | simulator.py:13-24 | one call serves exactly the listed machines |
| Simulator.ServedReading | simulator.py:14-24 | each served machine gets the reading at its own cursor |
| Simulator.AdvancedSpec | simulator.py:13-16 | with no machine listed twice, each listed cursor moves on by exactly one and every other cursor stays |
| Simulator.ReadingAt | simulator.py:14-15 | the reading served to a machine comes from one of its own rows |
| Simulator.ServeAll | simulator.py:12-24 | the loop fills the results with each machine's reading at its starting cursor and advances every listed cursor once |
| Simulator.MachineDataSimulator.constructor | simulator.py:5-8 | machines are the distinct ids of the table and every cursor starts at 0 |
| Simulator.MachineDataSimulator.GetAllMachinesData | simulator.py:10-26 | every cursor advances by exactly 1, nothing else changes, and each machine gets its reading at its old cursor |

## Left out

- Machine ids are compared as strings and JSON keys as a sequence of distinct pairs. A snapshot key such as `constructor` that JavaScript would also find on the object prototype is not modelled.
- Floating-point features are opaque `real` values. `float()` conversions, NaN and the chart's `suggestedMax` scaling are not modelled.
- I/O, timers and rendering are not modelled: axios requests, `setInterval`, Chart.js construction, `chart.update()`, JSX, `console` output and the simulator's `print`. Request outcomes are parameters.
- Interleavings of asynchronous polls and state setters are not modelled. The frontend's selection sync reads the closure's stale `selectedMachine`; the model applies both sync steps in order after the merge.
- The frontend's inline chart checks `if (axisData)`. In the model a frontend sample always has all three axes, so that check cannot fail.
- FrontendApp.Dashboard.AddMachine: the POST body's machine fields are not modelled. Only the posted count is returned.
- The backend's `while True` queue loop, `queue.get` and `result_queue.put` are not modelled. One pass is `ProcessItem`.
- The sklearn classifiers and model loading are not modelled. Their numeric predictions are arguments.
- The simulator's machine ids are a type parameter with equality, because pandas infers the `machine_id` column's type from the file.
- Simulator.MachineDataSimulator.GetAllMachinesData: the loop advances a local copy of the cursors, which replaces `pointers` once the loop ends. No step of the loop can fail, so the final state is the same as advancing `pointers` in place.
- `pd.read_csv` is not modelled. The table is the constructor's argument, with the `fault_type` column present or absent per row rather than per table.
- Simulator.MachineDataSimulator.constructor: states that the machine list is the first-appearance de-duplication of the ids. The order of `unique()` is stated only through `Seqs.Dedup`'s membership facts, not as an order lemma.
- Predictor.MajorityVote: the uniqueness of a winner with two or more votes is stated as "the winner is the agreed label", with `TwoVotesIsAgreed` giving the count argument.
- The two dashboards' duplicated `updateMachineCount` helper is modelled as the count a step returns, not as a request.
- The second dashboard's selected machine is never refreshed by a poll (project/src/App.tsx has no resync). The model states that a poll leaves it unchanged.
- backend/server.py, backend/main.py, backend/feature_extraction.py, summa.py, dump.py and test.py are not part of this model.
