# Fronius Modbus control surface, in Dafny

This project models the control core of the `fronius_modbus` Home Assistant
integration, which talks to a Fronius inverter and its battery storage over
Modbus TCP. The model covers these pieces:

- **The hub** (`hub.dfy`, module `FroniusHub`):
  - the busy flag and the `toggle_busy` guard that drops a guarded operation while another runs;
  - `set_mode`, which maps extended-control-mode codes 0..8 to one client call each;
  - the guarded storage setters and the unguarded export-limit and connection setters;
  - the hub id, the client timeout and the library version gate;
  - the coordinator's poll cycle (`_async_update_data`), which reads the register groups in a fixed order and turns the first failure into one `UpdateFailed`.
- **The register client** (`client.dfy`, module `FroniusClient`) is a stand-in for the real one:
  - every call is appended to a call log;
  - a fault schedule says which call positions raise, and with what message;
  - each successful read merges a fixed response into the client's `data` dict.

  That dict is one object (`Snapshot`), shared by the client, the hub and the
  coordinator, as it is in the integration.
- **The entity base** (`base.dfy`): the optional attributes set at construction, the unique id, availability, and `should_poll`.
- **Number entities** (`number.dfy`):
  - availability by extended control mode;
  - the percentage-to-watts scaling of the rate setpoints;
  - the dispatch of a new value to the hub;
  - setup with the max bound taken from the snapshot.
- **Select entities** (`select.dfy`):
  - the reverse lookup from label to code (`get_key`);
  - the dispatch to `set_mode`, `set_export_limit_enable` or `set_conn_status`;
  - the optimistic write of the picked label into the snapshot;
  - `current_option` and setup.

The entity-type tables and `DOMAIN` are parameters: `const.py` is not part of this model.

Behaviour of the code worth noting, which the model follows:

- The poll is not busy-guarded. `_async_update_data` (hub.py:38-75) calls the client directly, so `Coordinator.Update` neither reads nor changes the busy flag.
- A failed poll is not all-or-nothing:
  - each successful read merges into the client's own dict before the next read starts;
  - after a successful poll the coordinator's data *is* that dict;
  - so a cycle that fails part-way leaves the earlier reads merged (`Coordinator.Update`, `FroniusClient.MergedKeepsKeys`).
- Number availability is the table in number.py:117-132:
  - `charge_limit` is available in modes 1, 3 and 6 (charge, charge_discharge, block_discharge);
  - `discharge_limit` in modes 2, 3 and 7 (discharge, charge_discharge, block_charge).

  Calibrate (8) enables neither.
- An unknown select label is not rejected:
  - the mode select makes no call but returns normally;
  - the other selects pass `None` on to the client;
  - the label is then written into the snapshot, provided the snapshot is non-empty and the call did not raise.

  The optimistic write also happens when the busy guard dropped the mode change.

## Model

| member | source | states |
|---|---|---|
| FroniusClient.MergedKeepsKeys | custom_components/fronius_modbus/hub.py:40-75 | reads merged before a failure are not rolled back: every key present before, and every key a successful earlier read supplied, is still in the dict |
| FroniusClient.Client.constructor | custom_components/fronius_modbus/hub.py:92 | the client is built with host, port, unit ids and timeout, an empty call log, and a fresh data dict |
| FroniusHub.Older | custom_components/fronius_modbus/hub.py:136-139 | a version is older than another exactly when it is lower in the first component where the two differ, so never older than itself |
| FroniusHub.OlderIsStrictTotalOrder | custom_components/fronius_modbus/hub.py:136-139 | version comparison is a strict total order: irreflexive, transitive, any two versions comparable |
| FroniusHub.CheckPymodbusVersion | custom_components/fronius_modbus/hub.py:129-146 | an error exactly when a version is installed and it is older than 3.11.2, naming both versions; a missing version passes |
| FroniusHub.ClientTimeout | custom_components/fronius_modbus/hub.py:92 | the timeout is at least 3 and at least scan interval - 1, and is one of the two |
| FroniusHub.Lower | custom_components/fronius_modbus/hub.py:89 | lower-casing keeps the length and maps each character through ASCII lower-casing |
| FroniusHub.StripDots | custom_components/fronius_modbus/hub.py:89 | the result holds no '.', is no longer than the input, holds only characters of the input, and equals a dot-free input |
| FroniusHub.StripDotsKeepsOthers | custom_components/fronius_modbus/hub.py:89 | removing dots keeps every other character exactly as many times as the input holds it |
| FroniusHub.StripDotsAppend | custom_components/fronius_modbus/hub.py:89 | removing the dots of a joined string is removing them from each part and joining the results |
| FroniusHub.HubId | custom_components/fronius_modbus/hub.py:89 | the id is the lower-cased name, '_', then exactly the lower-cased host with its dots removed (StripDots), so no '.' follows the '_'; no letter of the id is upper-case |
| FroniusHub.LowerIdempotent | custom_components/fronius_modbus/hub.py:89 | lower-casing twice is lower-casing once |
| FroniusHub.ModeCall | custom_components/fronius_modbus/hub.py:231-250 | a call exactly for a code in 0..8, and the call made stands for that code |
| FroniusHub.ModeCallInjective | custom_components/fronius_modbus/hub.py:233-250 | two codes that make the same call are the same code |
| FroniusHub.ModeCallIsModeChange | custom_components/fronius_modbus/hub.py:233-250 | every call set_mode makes is a mode change and never a read |
| FroniusHub.CallsOf | custom_components/fronius_modbus/hub.py:193-282 | each hub operation makes at most one client call, never a read, and none only for a mode code outside 0..8 |
| FroniusHub.CallsOfInjective | custom_components/fronius_modbus/hub.py:231-282 | different operations make different client calls |
| FroniusHub.IsGuarded | custom_components/fronius_modbus/hub.py:193-282 | an operation is busy-guarded exactly when it is not the export-limit rate, export-limit enable, export-limit apply or connection setter |
| FroniusHub.Invoke | custom_components/fronius_modbus/hub.py:97-113 | an operation leaves the busy flag as it found it; it makes exactly its own calls, or none only when it is guarded and the hub was busy; it raises only after a call, and then with the client's fault; test_connection on an idle hub answers true exactly when the call did not fail and the client's reply was true |
| FroniusHub.BodyReply | custom_components/fronius_modbus/hub.py:193-282 | test_connection answers the client's reply, or false when the client raised; a failing client call in any other operation raises its error; otherwise nothing is returned |
| FroniusHub.BusyGuardSkips | custom_components/fronius_modbus/hub.py:99-101 | a guarded operation called while busy makes no call, returns None and leaves the hub busy |
| FroniusHub.BusyGuardRunsOnce | custom_components/fronius_modbus/hub.py:102-112 | a guarded operation called while idle runs its body once, clears the flag on success and on failure, and re-raises the body's error |
| FroniusHub.UnguardedIgnoresBusy | custom_components/fronius_modbus/hub.py:272-282 | the export-limit and connection setters run whether or not the hub is busy, make exactly one call, and leave the flag alone |
| FroniusHub.Hub.constructor | custom_components/fronius_modbus/hub.py:83-95 | the hub starts idle, with its id and a client built with the derived timeout |
| FroniusHub.Hub.Enter | custom_components/fronius_modbus/hub.py:99-102 | the guard proceeds exactly when the hub was idle, and the hub is busy afterwards |
| FroniusHub.Hub.Exit | custom_components/fronius_modbus/hub.py:109-112 | the flag is cleared and the body's outcome passed on unchanged |
| FroniusHub.Hub.Write | custom_components/fronius_modbus/hub.py:252-282 | one client write is logged, leaves the data dict alone, and its failure becomes the operation's error |
| FroniusHub.Hub.Run | custom_components/fronius_modbus/hub.py:193-282 | the body of each operation logs exactly its calls, leaves the data dict alone, and replies as BodyReply says |
| FroniusHub.Hub.SetMode | custom_components/fronius_modbus/hub.py:231-250 | the body of set_mode logs exactly the mode-change call of a code in 0..8 and nothing otherwise, and a failing call raises its error |
| FroniusHub.Hub.Guarded | custom_components/fronius_modbus/hub.py:97-113 | while busy: no call, None, still busy; while idle: the body's calls and reply, and idle afterwards |
| FroniusHub.Hub.Execute | custom_components/fronius_modbus/hub.py:193-282 | calling any hub operation has exactly the effect Invoke describes: busy flag, calls made and reply |
| FroniusHub.Hub.Overlapping | custom_components/fronius_modbus/hub.py:97-113 | an operation that makes a client call and is suspended in it, then a second one: the first's calls are logged, then whatever the second makes when it sees the hub busy exactly if the first is guarded; an unguarded second (export limit, connection) runs either way; a guarded second after a guarded first returns None with no call; the hub is idle afterwards |
| FroniusHub.MeterReads | custom_components/fronius_modbus/hub.py:54-59 | one meter read per unit id, in order, all under the prefix "m1_" |
| FroniusHub.MeterPart | custom_components/fronius_modbus/hub.py:54-59 | meter reads only when meters are configured |
| FroniusHub.TailReads | custom_components/fronius_modbus/hub.py:61-70 | one read for export limit, plus one each for MPPT and storage when configured |
| FroniusHub.PlannedReads | custom_components/fronius_modbus/hub.py:40-70 | a cycle makes 5 reads plus one per meter, MPPT and storage when configured, and only reads |
| FroniusHub.PlanIndex | custom_components/fronius_modbus/hub.py:40-70 | the read at each position of a cycle |
| FroniusHub.PlanInverterAt | custom_components/fronius_modbus/hub.py:41-51 | the first four reads are inverter data, status, model settings and controls, in that order |
| FroniusHub.PlanTailAt | custom_components/fronius_modbus/hub.py:61-70 | after the inverter and meter reads the cycle continues with exactly the MPPT, export-limit and storage reads |
| FroniusHub.PlanMpptAt | custom_components/fronius_modbus/hub.py:61-63 | when configured, the MPPT read comes right after the meter reads |
| FroniusHub.PlanExportAt | custom_components/fronius_modbus/hub.py:65-66 | the export-limit read comes right after the MPPT read, or right after the meter reads when there is no MPPT |
| FroniusHub.PlanStorageAt | custom_components/fronius_modbus/hub.py:68-70 | when configured, the storage read comes right after the export-limit read |
| FroniusHub.PlanMeterAt | custom_components/fronius_modbus/hub.py:54-59 | with meters configured, the read at position 4 + i is the read of the i-th meter unit id |
| FroniusHub.PlannedReadsOrder | custom_components/fronius_modbus/hub.py:40-70 | the four inverter reads come first; meter reads only when configured and only at their positions; MPPT and storage reads occur exactly when configured; storage is last; export limit just before it; MPPT just before export limit |
| FroniusHub.PlanPrefixes | custom_components/fronius_modbus/hub.py:41-59 | the cycle starts with the inverter reads, followed by the meter reads when configured |
| FroniusHub.PlanMetersOnly | custom_components/fronius_modbus/hub.py:53-59 | a meter read occurs only with meters configured, only at positions 4 to 3 + the number of ids, and reads the matching unit id |
| FroniusHub.PlanOptionalReads | custom_components/fronius_modbus/hub.py:61-70 | the MPPT read and the storage read occur in the cycle exactly when configured |
| FroniusHub.FirstFault | custom_components/fronius_modbus/hub.py:40-75 | the position of the first failing call among n, or none exactly when none of them fails |
| FroniusHub.FirstFaultAt | custom_components/fronius_modbus/hub.py:40-75 | a failing call with no failing call before it is the first fault |
| FroniusHub.CycleStep | custom_components/fronius_modbus/hub.py:40-72 | making the next read of a cycle either extends the cycle's progress by one read, merging its response, or ends the cycle failed at that read with its message |
| FroniusHub.CycleComplete | custom_components/fronius_modbus/hub.py:40-72 | a cycle that made every read found no fault, logged the whole plan and merged every response |
| FroniusHub.CycleFailedFirst | custom_components/fronius_modbus/hub.py:40-75 | a cycle that failed at read k failed at its first fault, logged the reads up to k, and keeps the merges of the reads before k |
| FroniusHub.CycleOutcome | custom_components/fronius_modbus/hub.py:40-75 | a finished cycle has the outcome PollOutcome describes for the first fault of the schedule: no fault, every read logged and merged and the dict returned; a fault at read k, reads up to k logged, those before k merged, and the failure message built from the fault at k |
| FroniusHub.Coordinator.constructor | custom_components/fronius_modbus/hub.py:28-36 | the coordinator is named DOMAIN_<hub id>_coordinator, holds no data yet and counts as successful |
| FroniusHub.Coordinator.Read | custom_components/fronius_modbus/hub.py:42 | one awaited read extends the progress of the cycle, or records the cycle's failure at that position |
| FroniusHub.Coordinator.ReadAll | custom_components/fronius_modbus/hub.py:40-72 | either every read of the cycle succeeded in order, or the reads stopped at the first failure |
| FroniusHub.Coordinator.ReadInverter | custom_components/fronius_modbus/hub.py:41-51 | the four inverter reads in order, stopping at the first failure |
| FroniusHub.Coordinator.ReadMeters | custom_components/fronius_modbus/hub.py:53-59 | one read per meter unit id when meters are configured, stopping at the first failure |
| FroniusHub.Coordinator.ReadOptional | custom_components/fronius_modbus/hub.py:61-70 | MPPT when configured, export limit, then storage when configured, stopping at the first failure |
| FroniusHub.Coordinator.ReadMppt | custom_components/fronius_modbus/hub.py:61-63 | the MPPT read only when configured |
| FroniusHub.Coordinator.ReadExport | custom_components/fronius_modbus/hub.py:65-66 | the export-limit read, always |
| FroniusHub.Coordinator.ReadStorage | custom_components/fronius_modbus/hub.py:68-70 | the storage read only when configured, completing the cycle |
| FroniusHub.Coordinator.Update | custom_components/fronius_modbus/hub.py:38-75 | the poll has the outcome PollOutcome gives for the first failing read: with none, every read made and merged and the client's own dict returned; otherwise the reads up to and including the first failing one are made, those before it stay merged, and one UpdateFailed carries the failing read's message after "Fronius data update failed: " |
| FroniusHub.Coordinator.Refresh | custom_components/fronius_modbus/hub.py:38-75 | a cycle succeeds exactly when no read fails; then every read is logged and merged, the coordinator's data is the client's dict and the last update succeeded; otherwise the reads up to the failing one are logged, those before it merged into the client's dict, the coordinator keeps its data (which, when it already was that dict, shows the partial merge) and the last update failed |
| FroniusBase.Labels | custom_components/fronius_modbus/base.py:29-31 | the labels of an options dict are its values, in order |
| FroniusBase.SnapshotOf | custom_components/fronius_modbus/number.py:89 | the snapshot an entity sees is empty exactly when the coordinator has no data or an empty dict, and is otherwise the coordinator's dict |
| FroniusBase.BaseEntity.constructor | custom_components/fronius_modbus/base.py:14-44 | each optional attribute is set exactly when given; options also sets the option list; the entity has an entity name, and its unique id is the coordinator's name, '_' and the key |
| FroniusBase.BaseEntity.Available | custom_components/fronius_modbus/base.py:46-49 | an entity is available exactly when the coordinator's last update succeeded |
| FroniusBase.BaseEntity.ShouldPoll | custom_components/fronius_modbus/base.py:61-64 | entities never poll |
| FroniusNumber.IsAvailable | custom_components/fronius_modbus/number.py:117-132 | only the six number keys are ever available; minimum reserve and export-limit rate are available in every mode; outside modes 1..7 only those two are |
| FroniusNumber.AvailableMatchesModeTable | custom_components/fronius_modbus/number.py:117-132 | availability by key agrees with the by-mode table: minimum reserve and export-limit rate always; charge limit in 1, 3, 6; discharge limit in 2, 3, 7; grid charge power in 4; grid discharge power in 5 |
| FroniusNumber.GridPowersExclusive | custom_components/fronius_modbus/number.py:126-129 | grid charge power and grid discharge power are never available together |
| FroniusNumber.GridModesSwap | custom_components/fronius_modbus/number.py:126-129 | switching from mode 4 to mode 5 swaps which grid power is available |
| FroniusNumber.RoundHalfUp | custom_components/fronius_modbus/number.py:91-93 | the rounded value is within one half of the exact value |
| FroniusNumber.Presented | custom_components/fronius_modbus/number.py:86-96 | no state exactly when the key is missing; other keys show the stored value; rate keys show watts within one half of percent / 100 times the matching ceiling, or a type error when the stored value is not a number |
| FroniusNumber.FullPercentIsCeiling | custom_components/fronius_modbus/number.py:90-93 | 100 percent is shown as exactly the ceiling |
| FroniusNumber.PresentedWithinCeiling | custom_components/fronius_modbus/number.py:90-93 | a percentage in 0..100 is shown as watts in 0..ceiling |
| FroniusNumber.HalfOfCeiling | custom_components/fronius_modbus/number.py:92-93 | 50 percent of an 8000 W ceiling is shown as 4000 W |
| FroniusNumber.MaxBound | custom_components/fronius_modbus/number.py:28-33 | the max bound is the snapshot's value under the max key when present and not None, otherwise the static max |
| FroniusNumber.NumberCommand | custom_components/fronius_modbus/number.py:98-112 | an operation exactly for the six number keys; guarded exactly when the key is not the export-limit rate; one client call, which KeyOfCall maps back to the same key and the value unchanged, so each key reaches its own setter |
| FroniusNumber.NumberCommandsDistinct | custom_components/fronius_modbus/number.py:101-112 | different number keys write through different client calls |
| FroniusNumber.NumberEntity.constructor | custom_components/fronius_modbus/number.py:71-84 | the entity carries its name, key, min, max, step, unit and mode, and no options; it has an entity name equal to its name, and its unique id is the coordinator's name, '_' and the key |
| FroniusNumber.NumberEntity.Available | custom_components/fronius_modbus/number.py:117-132 | a number entity is available exactly when its key is in the table for the client's current control mode |
| FroniusNumber.NumberEntity.State | custom_components/fronius_modbus/number.py:86-96 | no state exactly when there is no data or the key is missing; other keys show the stored value; discharge-rate keys show watts within one half of percent / 100 times the discharge ceiling, charge-rate keys likewise with the charge ceiling, and a stored value that is not a number gives a type error |
| FroniusNumber.NumberEntity.SetNativeValue | custom_components/fronius_modbus/number.py:98-115 | setting a value has exactly the effect of invoking the key's hub operation with it, with no call for an unknown key, and leaves the snapshot alone |
| FroniusNumber.SnapshotMaxes | custom_components/fronius_modbus/number.py:28-33 | each type gets the max bound MaxBound takes from the snapshot |
| FroniusNumber.StaticMaxes | custom_components/fronius_modbus/number.py:53-66 | each inverter type gets its own static max |
| FroniusNumber.BuildNumbers | custom_components/fronius_modbus/number.py:20-66 | one entity per type, in order, each with its type's name, key, min, step, unit and mode and the given max, bound to the coordinator and the hub |
| FroniusNumber.SetupNumbers | custom_components/fronius_modbus/number.py:20-66 | storage types only when storage is configured, each built with the max bound MaxBound takes from the snapshot; then every inverter type with its static max; in order |
| FroniusSelect.LabelCode | custom_components/fronius_modbus/select.py:53-57 | no code exactly when the label is not listed; otherwise the code of the first item with that label |
| FroniusSelect.GetKey | custom_components/fronius_modbus/select.py:53-57 | the scan returns the code LabelCode describes |
| FroniusSelect.LabelRoundTrip | custom_components/fronius_modbus/select.py:53-57 | with distinct labels, looking up an item's label gives back its code |
| FroniusSelect.LabelCodeFirstWins | custom_components/fronius_modbus/select.py:53-57 | when two items share a label, the lookup gives the code of an item at or before the earlier one |
| FroniusSelect.SelectCommand | custom_components/fronius_modbus/select.py:82-87 | an operation exactly for the three select keys; only the mode select is guarded; the other two make one call carrying the code unchanged; the mode select makes no call exactly for a missing code or one outside 0..8 |
| FroniusSelect.UnknownModeLabelMakesNoCall | custom_components/fronius_modbus/select.py:80-83 | a label the mode select does not list makes no client call |
| FroniusSelect.UnknownModeLabelReturnsNormally | custom_components/fronius_modbus/select.py:80-83 | an unknown mode label makes no call, returns normally and leaves the busy flag as it was |
| FroniusSelect.UnknownLabelPassesNone | custom_components/fronius_modbus/select.py:80-87 | an unknown label makes the connection select call set_conn_status(None) and the export-limit-enable select call set_export_limit_enable(None) |
| FroniusSelect.ModeLabelSelectsMode | custom_components/fronius_modbus/select.py:80-83 | a listed mode label with a code in 0..8 makes exactly the mode change of that code |
| FroniusSelect.SelectEntity.constructor | custom_components/fronius_modbus/select.py:62-71 | the entity carries its name, key, options dict (possibly none) and the option labels when there is a dict; it has an entity name equal to its name, and its unique id is the coordinator's name, '_' and the key |
| FroniusSelect.SelectEntity.CurrentOption | custom_components/fronius_modbus/select.py:73-76 | an option is shown exactly when the snapshot holds the key, and it is the value stored there |
| FroniusSelect.SelectEntity.SelectOption | custom_components/fronius_modbus/select.py:78-92 | the effect of invoking the key's hub operation with the looked-up code; when that did not raise and the snapshot is non-empty, the label is written under the key and CurrentOption then shows it, every other key unchanged; a raised error is passed on with no write; an entity without options raises |
| FroniusSelect.BuildSelects | custom_components/fronius_modbus/select.py:27-48 | one entity per type, in order, each with its type's name, key, options dict and option labels, the coordinator and the hub |
| FroniusSelect.SetupSelects | custom_components/fronius_modbus/select.py:20-51 | the storage selects, built from the storage types, only when storage is configured, then the inverter selects built from every inverter type, in order, each carrying its type's name, key, options dict and labels |

## Left out

- The Home Assistant framework is not modelled:
  - scheduling, entity registration, `async_write_ha_state` and the state-change push to entities;
  - device-info builders and `entity_prefix`.

  A framework refresh is modelled only as `Coordinator.Refresh`, which keeps the coordinator's previous data after a failure.
- The register client's internals are not modelled: Modbus framing, register decoding, connection handling, `init_data`, `get_json_storage_info` and `close`. The client stands in as a call log with a fault schedule and fixed read responses.
- Real concurrency is not modelled. Overlap is modelled only at the one suspension point that matters to the guard, a client call (`Hub.Overlapping`).
- Logging is not modelled.
- FroniusHub.BusyGuardRunsOnce: only errors derived from `Exception` are modelled, and the model's errors are client errors. `toggle_busy` catches only `Exception` (hub.py:106) and clears the flag with a plain statement, not in a `finally` (hub.py:109). So a cancellation (`asyncio.CancelledError`, a `BaseException`) raised during the awaited body leaves `_busy` set, and every later guarded operation is dropped. The model does not capture this.
- The client's configuration is fixed at construction: the extended control mode, both rate ceilings and the meter, MPPT and storage flags are `const` fields of `FroniusClient.Client`. The hub's properties (hub.py:211-229) read them from the client on every access, and the real client can change them when it reads. So in the model no read and no mode change alters number availability, the watts a number shows, or the poll plan.
- FroniusHub.CheckPymodbusVersion: compares three-component release versions. Parsing version strings and pre-release ordering are not modelled. A package lookup that itself raises is not modelled; only a missing version (a warning) is.
- FroniusHub.Lower: ASCII lower-casing only, with no Unicode case mapping.
- FroniusNumber.RoundHalfUp: rounds ties upward. Python's `round` rounds ties to even, so an exact .5 may differ by one. Float arithmetic is modelled with exact reals.
- FroniusNumber.Presented: an empty snapshot and a missing one are treated alike; both are falsy in the source.
- `const.py` is not part of this model: the entity-type tables (`STORAGE_NUMBER_TYPES`, `INVERTER_NUMBER_TYPES`, the select types) and `DOMAIN` are parameters.
- FroniusSelect.SelectEntity.SelectOption: an entity built without options (the constructor takes an optional dict, as select.py:62-71 passes `options` on unchecked) raises `NoOptions`. The Python code raises an attribute error there.
