# pytest-metaexport run recorder, in Dafny

pytest-metaexport is a pytest plugin. It keeps one metadata record per test and three outcome counters while a session runs. At the end of the session it writes a JSON summary of them. This project models that run recorder and proves what its hooks do to the state.

- `wrappers.dfy`: the `Option` datatype.
- `ordered_dict.dfy`, module `OrderedDict`: a Python `dict` as a value.
  - It pairs a map with the order in which its keys were first inserted.
  - Assigning to a present key keeps that key's place; a new key goes to the end.
  - `Values` lists the values in that order.
- `metaexport.dfy`, module `MetaExport`: the plugin itself.
  - The state: `test_metadata`, a default-creating dict from node id to record, and `test_state`, the counters `passed`/`failed`/`skipped`.
  - The pure specification of each hook: `Merge`, `CollectOne` and `CollectAll` for collection, `Log` for a report, `ShouldEmit`, `BuildSummary` and `Finish` for the end of the session.
  - The class `Recorder`: its fields are the two pieces of module state, and its methods are the three hooks, and the static method `UpdateRecord` is the body of the collection loop. Each method is proved equal to its specification function.
- `properties.dfy`, module `RunProperties`: properties of whole runs.
  - What collection guarantees for every item.
  - Counter bookkeeping over any sequence of reports.
  - First-touch order of the records.
  - The exact emit gate.
  - A worked two-test run.

Behaviour the model follows from the code:

- A `call` report whose outcome is not `passed`, `failed` or `skipped` writes `status` and `duration` first. It then raises `KeyError` at the counter increment. `Log` models this with the record changed, the counters unchanged and `ok == false`. The hook does not ignore unknown `call` outcomes; it raises.
- Declared metadata is merged with `dict.update`, so a declared key overwrites the same key already in the record. Only `nodeid` is forced back afterwards, and `title` is kept once present. The merge is not purely additive.
- A skipped `setup` stores the integer `0` as its duration (`Value.Int(0)`). A `call` stores the report's float duration (`Value.Float`).
- A session that collected tests and saw no failure emits nothing.
- The counters count `call` reports, not distinct tests. Two `call` reports for one node id raise the total by two (`RepeatedCallCountsTwice`), so the counters equal the number of tests only when each test has one `call` report.

## Model

| member | source | states |
|---|---|---|
| MetaExport.Recorder.constructor | pytest_metaexport/pytest_metaexport.py:6-7 | at module import there are no records and all three counters are zero |
| OrderedDict.Empty | pytest_metaexport/pytest_metaexport.py:6 | the empty dict has no keys and no values |
| OrderedDict.Set | pytest_metaexport/pytest_metaexport.py:29-30 | assigning a key updates its value; a new key is appended at the end, a present key keeps its place |
| OrderedDict.ValuesAt | pytest_metaexport/pytest_metaexport.py:74 | the values stored under a key list, one per key, in the list's order |
| OrderedDict.Values | pytest_metaexport/pytest_metaexport.py:74 | `list(d.values())` has one entry per key, the i-th being the value of the i-th inserted key |
| MetaExport.Bump | pytest_metaexport/pytest_metaexport.py:38 | `test_state[o] += 1` raises counter `o` by exactly one, leaves the other two and raises the total by one |
| MetaExport.RecordOf | pytest_metaexport/pytest_metaexport.py:29-40 | reading `test_metadata[id]` gives the stored record, or the empty dict the defaultdict creates for an unknown node id |
| MetaExport.Declared | pytest_metaexport/pytest_metaexport.py:24-27 | `meta` is the function's `_custom_meta` when it has one, else empty |
| MetaExport.Merge | pytest_metaexport/pytest_metaexport.py:24-31 | after one collection step the record has the previous keys plus the declared keys plus `nodeid` and `title`; `nodeid` is the item's node id; `title` is the declared one, else the one already present, else the item's name; other declared keys overwrite; every other previous field is kept |
| MetaExport.Recorder.UpdateRecord | pytest_metaexport/pytest_metaexport.py:24-31 | the loop body builds `meta`, updates the record, forces `nodeid` and sets `title` only if absent, giving exactly `Merge` |
| MetaExport.CollectOne | pytest_metaexport/pytest_metaexport.py:29-31 | one iteration touches only the item's record, which becomes the merge of what the defaultdict held; a new node id is appended to the key order, a known one keeps its place |
| MetaExport.CollectAll | pytest_metaexport/pytest_metaexport.py:22-31 | the whole loop keeps the existing key order as a prefix, and the stored node ids become the old ones plus every item's node id |
| MetaExport.CollectAllStep | pytest_metaexport/pytest_metaexport.py:23 | collecting one more item is one more loop iteration |
| MetaExport.Recorder.CollectionModifyItems | pytest_metaexport/pytest_metaexport.py:22-31 | the hook leaves `test_metadata` equal to `CollectAll` of the old one and the counters unchanged |
| MetaExport.SetResult | pytest_metaexport/pytest_metaexport.py:36-37 | writing `status` and `duration` changes only that node id's record, creating it at the end of the order if absent |
| MetaExport.Log | pytest_metaexport/pytest_metaexport.py:34-42 | the hook returns normally unless a `call` has an outcome that is no counter; a counted report raises its outcome's counter by one and the total by one, every other report leaves the total; other counters never change; a report that is neither `call` nor skipped `setup` changes nothing; a touched record gets `status` and a `duration` (the float for `call`, integer 0 for skipped `setup`), other records stay, and the key order only grows at the end |
| MetaExport.Recorder.RuntestLogreport | pytest_metaexport/pytest_metaexport.py:34-42 | the hook leaves state and outcome equal to `Log` of the old state |
| MetaExport.Collected | pytest_metaexport/pytest_metaexport.py:56 | `getattr(session, "testscollected", 0)` is the session's count when set, else 0 |
| MetaExport.CollectOnly | pytest_metaexport/pytest_metaexport.py:49-52 | the flag loop returns early exactly when one of `collectonly`, `collect_only`, `co`, `dry_run` is truthy |
| MetaExport.ShouldEmit | pytest_metaexport/pytest_metaexport.py:49-63 | the hook goes on to build the summary exactly when no collect-only flag is set, not (collected > 0 and no failure), and the exit status is not 5 |
| MetaExport.BuildSummary | pytest_metaexport/pytest_metaexport.py:65-74 | the summary carries the collected count, the three counters, and one record per key in first-touch order |
| MetaExport.Finish | pytest_metaexport/pytest_metaexport.py:45-74 | the hook emits exactly when the gate opens, and then the summary carries the collected count, the three counters and one record per key, position by position in first-touch order |
| MetaExport.Recorder.SessionFinish | pytest_metaexport/pytest_metaexport.py:45-74 | a summary is returned exactly when `ShouldEmit` holds, and then it is `BuildSummary` of the current state |
| RunProperties.NodeIds | pytest_metaexport/pytest_metaexport.py:23 | the node ids of the items, position by position |
| RunProperties.CollectStampsEveryItem | pytest_metaexport/pytest_metaexport.py:29-31 | after collection every item has a record whose `nodeid` is its node id and which has a `title` |
| RunProperties.CollectLeavesOthers | pytest_metaexport/pytest_metaexport.py:22-31 | collection leaves the records of node ids it does not see untouched |
| RunProperties.CollectKeepsFields | pytest_metaexport/pytest_metaexport.py:29-31 | collection never removes or resets a field other than `nodeid` that no item of that node id declares, such as `status` or `duration` |
| RunProperties.CollectOneKeepsTitle | pytest_metaexport/pytest_metaexport.py:31 | a collection step keeps a present title that the item does not declare |
| RunProperties.CollectTitleFirst | pytest_metaexport/pytest_metaexport.py:31 | the first item with a node id, when it declares no `title`, sets `title` to its name unless the record already had one |
| RunProperties.CollectTitle | pytest_metaexport/pytest_metaexport.py:31 | with no declared title, a record's title is the one it had before collection, else the name of the first item with that node id |
| RunProperties.CollectDeclared | pytest_metaexport/pytest_metaexport.py:26-29 | after the whole loop, a field an item declares (`title` included, `nodeid` excepted) is in its record with the declared value, unless a later item with the same node id declares it again |
| RunProperties.FirstTouchesSnoc | pytest_metaexport/pytest_metaexport.py:6 | one more id extends the first-touch list exactly when it is new |
| RunProperties.NodeIdsSnoc | pytest_metaexport/pytest_metaexport.py:23 | the node ids of one more item are the old ones followed by its node id |
| RunProperties.NodeIdsCover | pytest_metaexport/pytest_metaexport.py:23 | the set of node ids and the list of node ids hold the same ids |
| RunProperties.CollectKeysStep | pytest_metaexport/pytest_metaexport.py:29 | one more item leaves the key order alone when its node id is already known, and otherwise appends it |
| RunProperties.OrderStep | pytest_metaexport/pytest_metaexport.py:6 | extending by a node id preserves "existing keys followed by first touches in discovery order" |
| RunProperties.CollectOrder | pytest_metaexport/pytest_metaexport.py:6-31 | after collection the key order is the old key order followed by the new node ids, each once, in discovery order |
| RunProperties.LogAllCounts | pytest_metaexport/pytest_metaexport.py:38-42 | over any sequence of reports each counter rises by exactly the number of counted reports with its outcome |
| RunProperties.LogAllTotal | pytest_metaexport/pytest_metaexport.py:38-42 | over any sequence of reports the counters together rise by one per counted report, so no report is counted twice |
| RunProperties.TalliesPartition | pytest_metaexport/pytest_metaexport.py:38-42 | the three per-outcome tallies add up to the number of counted reports |
| RunProperties.LogAllKeepsOrder | pytest_metaexport/pytest_metaexport.py:36-40 | reports never reorder records: the key order before is a prefix of the key order after |
| RunProperties.LogAll | pytest_metaexport/pytest_metaexport.py:34-42 | successive calls of the hook never delete a record |
| RunProperties.LogAllOk | pytest_metaexport/pytest_metaexport.py:35-38 | a run of reports returns normally exactly when none of them is a `call` whose outcome is no counter |
| RunProperties.DistinctIdsCount | pytest_metaexport/pytest_metaexport.py:36 | reports for distinct node ids name that many node ids |
| RunProperties.CallReportsAllCounted | pytest_metaexport/pytest_metaexport.py:35-38 | every `call` report with a counter outcome is counted |
| RunProperties.CallReportsTotal | pytest_metaexport/pytest_metaexport.py:35-38 | logging only `call` reports with counter outcomes raises the counter total by the number of reports |
| RunProperties.CallReportsCountTests | pytest_metaexport/pytest_metaexport.py:35-38 | one `call` report per test with a known outcome raises the counters' total by the number of tests, so from zero counters they add up to that number |
| RunProperties.RepeatedCallCountsTwice | pytest_metaexport/pytest_metaexport.py:35-38 | any two `call` reports with counter outcomes for one node id raise the counter total by two while naming one node id |
| RunProperties.LogAllSnoc | pytest_metaexport/pytest_metaexport.py:34-42 | logging one more report is one more step of the hook |
| RunProperties.LogAllAppend | pytest_metaexport/pytest_metaexport.py:34-42 | logging two report sequences one after the other is logging their concatenation |
| RunProperties.CallOutcomeIsFinal | pytest_metaexport/pytest_metaexport.py:34-42 | a test whose setup passes ends with its call's outcome and duration whatever its teardown reports, is counted once under that outcome, and no other record changes |
| RunProperties.SkippedAtSetup | pytest_metaexport/pytest_metaexport.py:34-42 | a test skipped at setup ends `skipped` with integer duration 0 whatever its teardown reports, and raises only the skipped counter, by one |
| RunProperties.CallLoggedOnKnown | pytest_metaexport/pytest_metaexport.py:34-42 | the passing setup, the counter-outcome call and the passing teardown of a test that already has a record return normally, keep the key order, set only that record's status and float duration, and bump the call's outcome |
| RunProperties.TwoCallsLogged | pytest_metaexport/pytest_metaexport.py:34-42 | two known, distinct tests reported one after the other update both records independently and bump both outcomes in order |
| RunProperties.PassBumps | pytest_metaexport/pytest_metaexport.py:38 | proof helper for the scenario lemmas: a `passed` call raises only the passed counter |
| RunProperties.FailBumps | pytest_metaexport/pytest_metaexport.py:38 | proof helper for the scenario lemmas: a `failed` call raises only the failed counter |
| RunProperties.EmitGate | pytest_metaexport/pytest_metaexport.py:49-63 | a summary is emitted exactly when none of `collectonly`, `collect_only`, `co`, `dry_run` is set, not (collected > 0 and failed == 0), and the exit status is not 5 |
| RunProperties.SummaryInDiscoveryOrder | pytest_metaexport/pytest_metaexport.py:22-74 | collecting distinct node ids into an empty state and emitting lists one record per item, in discovery order, each carrying its node id |
| RunProperties.NoRepeatsFirstTouches | pytest_metaexport/pytest_metaexport.py:29 | with distinct node ids, every node id is a first touch, in order |
| RunProperties.TwoTestsCollected | pytest_metaexport/pytest_metaexport.py:22-31 | two undecorated tests collected into an empty state give two records, in order, holding exactly `nodeid` and `title` |
| RunProperties.CollectNewPlain | pytest_metaexport/pytest_metaexport.py:24-31 | an undecorated item with a new node id appends a record holding exactly `nodeid` and `title` (its name) |
| RunProperties.CollectPair | pytest_metaexport/pytest_metaexport.py:23 | collecting two items is two loop iterations, in order |
| RunProperties.CollectTwoNew | pytest_metaexport/pytest_metaexport.py:22-31 | two undecorated items with new, distinct node ids append their two plain records in discovery order |
| RunProperties.TwoTestsLogged | pytest_metaexport/pytest_metaexport.py:34-42 | for two distinct known node ids, one passing and one failing test, each with three phase reports, set each record's status and duration, keep the key order, and raise passed and failed by one each, skipped not at all |
| RunProperties.TwoRecordsLogged | pytest_metaexport/pytest_metaexport.py:34-42 | after one pass and one failure, the two freshly collected records hold `nodeid`, `title`, `status` and `duration`, in the same order |
| RunProperties.TwoTestRun | pytest_metaexport/pytest_metaexport.py:22-74 | the whole session for those two tests emits a summary with collected 2, one pass, one failure and both full records in discovery order |
| RunProperties.TwoTestRunFrom | pytest_metaexport/pytest_metaexport.py:34-74 | from the two collected records, reporting one pass and one failure and finishing the session emits collected 2, one pass, one failure and both full records in order |
| RunProperties.TwoTestSummary | pytest_metaexport/pytest_metaexport.py:34-74 | from any counters, the two collected records with one pass and one failure give a summary with collected 2, passed and failed each one higher, and both full records in order |
| RunProperties.SummaryAfterTwo | pytest_metaexport/pytest_metaexport.py:57-74 | with at least one failure, the summary of the two finished records carries collected 2, the counters and both records, as four-field maps, in order |
| RunProperties.SummaryOfTwo | pytest_metaexport/pytest_metaexport.py:65-74 | when the gate opens on a state with two keys, the summary lists their two records in key order with the collected count and the three counters |

## Left out

- `run_date` and `duration_seconds`: these need the wall clock (`datetime.now()`), as does the start instant stored by `pytest_sessionstart`. `Summary` omits both fields.
- The file write (`getoption("--metaexport-json")`, `open`, `json.dump`): this is I/O. `SessionFinish` returns the summary value that would be written.
- `pytest_addoption`: option registration with pytest has no logic to model.
- `hasattr(item.function, "_custom_meta")` and `getattr(...)` lookups on pytest objects are replaced by explicit inputs:
  - `Item.customMeta` for the declared metadata;
  - `Session.options`, the set of option names whose value is truthy;
  - `Session.testsCollected`, read with default 0.
- Field order inside one record is not modelled: a record is a plain map. The order of the records themselves is modelled.
- Float durations are modelled as `real`. They are only ever copied, never computed on.
- Values of any type an author attaches are abstracted to `Value.Other`, and the keys of `_custom_meta` to strings.
- Errors raised while reading declared metadata are not modelled: the hooks' inputs are plain values.
- An item without a `function` attribute, such as a doctest item, makes line 26 of `pytest_metaexport.py` raise `AttributeError` before `hasattr` is reached. `Item.customMeta` cannot express such an item, so the model has no collection error path.
- `LogAll`: a `KeyError` raised at line 38 of `pytest_metaexport.py` leaves the hook, and pytest then stops the session with an internal error. `LogAll` records it as `ok == false` but keeps applying the reports that follow; its results after the first `ok == false` report are outside the plugin's behaviour.
- Concurrency: pytest calls the hooks one at a time.
