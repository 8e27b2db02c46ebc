# Guard records to fault-log entries

A Dafny model of `openpower::faultlog::GuardWithEidRecords` from
openpower-hw-isolation. This component reads hardware guard records. A guard
record marks a unit that was deconfigured because of a fault. The component:

- counts the records that name an originating error log (`getCount`);
- turns each such record into one `SERVICABLE_EVENT` entry of the fault-log
  report (`populate`).

To build an entry, `populate` first looks up the error log (PEL). That means
translating the PEL id over D-Bus and then making two `GetAll` property
calls. Next it finds the guarded unit in the hardware topology: it asks for
the unit's physical path, then walks the tree for the first node whose
physical-path attribute equals that path. Last, it merges the two results
into JSON. A deleted error log gets fallback content. An unknown unit, or an
exception, drops only that record.

Files and modules:

- `wrappers.dfy` (`Wrappers`): `Option`.
- `ints.dfy` (`Ints`): the C++ fixed-width integer types, as subset types.
- `json.dfy` (`Json`): a small JSON value type, key lookup (`Field`,
  `FieldPath`), and `JsonArray`. `JsonArray` is the report array that
  `populate` appends to in place.
- `numerals.dfy` (`Numerals`): decimal and lower-case hex rendering, as done
  by `std::to_string` and a `std::hex` stream. `Parse` reads a rendering back.
- `properties.dfy` (`Properties`): the `PropertyValue` variant and its
  try-get accessors. It also holds the first-word rule for `EventId` and the
  two loops that read the consumed keys out of a `GetAll` map.
- `topology.dfy` (`Topology`): the target tree and the pure pre-order
  first-match `Search`. It also holds `GuardedTarget`, the callback's `priv`
  data, with the callback and the walk as methods.
- `collections.dfy` (`Collections`): collecting optional per-element results
  in order, and where each result came from.
- `guard_with_eid_records.dfy` (`GuardWithEidRecords`): guard records, the
  collaborators, counting, and the assembler.

Every D-Bus call and every helper from another file is a field of
`Collaborators`: a function from the call's arguments to its outcome. These
are `GetBMCLogIdFromPELId` (`Translated`, `SdBusError` or `OtherError`),
`GetAll` (`Reply(map)` or `CallFailed`), `getPhysicalPath`, `parseCallout`,
`epochTimeToBCD` and `getGuardReason`. An exception that the code does not
catch locally is an outcome that drops the record, just as the catch at
line 250 does. One more field, `unreadDeconfiguredByEid`, is not a call. It
stands for whatever an unread HWAS state holds (see "## Left out").

The libpdbg reads are the attributes of the `Target` tree:
- the `DT_GET_PROP` reads (lines 49, 204, 224) are its `Option` fields;
- `pdbgTargetName` (line 201) is `Target.name`;
- `pdbg_target_traverse` (line 192) is `Search`, run as
  `GuardedTarget.Traverse`.

The per-record pipeline is also written as pure functions, which serve as
the specification:

- `ResolveErrorLog` (lines 89-172) covers the id translation and the two
  property reads.
- `ResolveTarget` (lines 182-199) covers the physical path and the tree
  search.
- `CurrentState` (lines 202-211) gives the state string.
- `FoundErrorLogJson` (lines 173-178), `FallbackErrorLogJson`
  (lines 219-236), `ResourceJson` (lines 200-216) and `ServiceEventJson`
  (lines 238-248) build the entry's JSON.
- `EntryFor` (lines 82-254) gives the entry of one record, if any.
- `Report` (lines 80-255) gives the entries of a record sequence.

The imperative methods are proved equal to these functions:

- `LookUpErrorLog` and `LookUpTarget` each do one lookup step.
- `ProcessRecord` is one pass of the loop body.
- `Populate` is the loop that appends to `jsonNag`.

The lemmas then state the report-level properties on the functions.

Three points of the code's behaviour are easy to misread:

- Only `SdBusError` from the id translation counts as "log deleted"
  (line 102). Any other exception there, and any failure of either `GetAll`
  call (lines 123, 152), reaches the catch at line 250 and drops the record
  (`FailedLookupDropped`).
- The error log is looked up before the hardware (lines 89-179, then
  182-199).
- The number of entries equals `getCount` only when two things hold for
  every reportable record (`ReportLength`). First, no error-log call fails,
  except for a bus error from the id translation. Second, its unit is found.
  A deleted log still yields an entry (`DeletedLogStillEmitted`).

## Model

| member | source | states |
|---|---|---|
| `GuardWithEidRecords.GetCount` | src/faultlog/guard_with_eid_records.cpp:60-73 | the loop returns the number of records with a non-zero `elogId`, which is at most the number of records |
| `GuardWithEidRecords.CountBounds` | src/faultlog/guard_with_eid_records.cpp:60-73 | the count is at most the length; it equals the length exactly when no record is manual, and is 0 exactly when all are |
| `GuardWithEidRecords.CountAppend` | src/faultlog/guard_with_eid_records.cpp:63-71 | the count of a concatenation is the sum of the counts |
| `GuardWithEidRecords.CountIgnoresManual` | src/faultlog/guard_with_eid_records.cpp:65-69 | inserting a record with `elogId == 0` anywhere never changes the count |
| `GuardWithEidRecords.CurrentState` | src/faultlog/guard_with_eid_records.cpp:202-211 | the state is one of CONFIGURED / DECONFIGURED, and CONFIGURED exactly when the HWAS state is readable and functional |
| `GuardWithEidRecords.LookUpErrorLog` | src/faultlog/guard_with_eid_records.cpp:89-172 | the id translation then the two `GetAll` calls give the specified lookup outcome: deleted on a bus error, dropped on any other exception or a failed `GetAll`, otherwise the four extracted values |
| `GuardWithEidRecords.LookUpTarget` | src/faultlog/guard_with_eid_records.cpp:182-199 | the physical-path lookup then the walk give the path and the first matching node, or nothing |
| `GuardWithEidRecords.ProcessRecord` | src/faultlog/guard_with_eid_records.cpp:82-254 | one loop pass yields exactly the specified entry of the record, or nothing when it is skipped or throws |
| `GuardWithEidRecords.Populate` | src/faultlog/guard_with_eid_records.cpp:75-256 | the entries already in `jsonNag` stay as they are, and the report of all records is appended after them in record order |
| `Json.JsonArray.PushBack` | src/faultlog/guard_with_eid_records.cpp:248 | appending leaves the earlier items and adds the new one at the end |
| `GuardWithEidRecords.ReportAppend` | src/faultlog/guard_with_eid_records.cpp:80-255 | records are independent: the report of a concatenation is the concatenation of the reports |
| `GuardWithEidRecords.ReportLength` | src/faultlog/guard_with_eid_records.cpp:60-88 | the report never has more entries than `getCount`, and has exactly that many iff every reportable record yields an entry |
| `GuardWithEidRecords.ReportOrigin` | src/faultlog/guard_with_eid_records.cpp:80-248 | entry k is the entry of record idx[k]; the indexes increase; each names a record with non-zero `elogId`; every record that yields an entry is named |
| `GuardWithEidRecords.DroppedRecordSkipped` | src/faultlog/guard_with_eid_records.cpp:250-254 | a record yielding nothing (skipped, thrown, unresolved) leaves the entries of the records around it unchanged |
| `GuardWithEidRecords.EntryEmittedIff` | src/faultlog/guard_with_eid_records.cpp:84-199 | an entry is emitted iff `elogId != 0`, the error-log lookups do not throw, the physical path is known and some node carries it |
| `GuardWithEidRecords.UnresolvedTargetDropped` | src/faultlog/guard_with_eid_records.cpp:182-199 | with no physical path or no matching node the record adds nothing, and the records after it are processed as usual |
| `GuardWithEidRecords.ResolvedTargetIsFirstMatch` | src/faultlog/guard_with_eid_records.cpp:182-193 | the resolved unit carries the looked-up path and no node before it in traversal order does |
| `GuardWithEidRecords.EntryShape` | src/faultlog/guard_with_eid_records.cpp:200-248 | every entry's `CEC_ERROR_LOG` has two elements, the second giving TYPE, CURRENT_STATE, REASON_DESCRIPTION and `GARD_RECORD = true` for the unit found |
| `GuardWithEidRecords.FoundEntryContents` | src/faultlog/guard_with_eid_records.cpp:110-178 | with the log found, PLID is "0x"+hex of `PlatformLogID` (0 if missing or mistyped), SRC the first word of `EventId`, callouts and date from the helpers |
| `GuardWithEidRecords.FallbackEntryContents` | src/faultlog/guard_with_eid_records.cpp:218-236 | with the log deleted and the unit found, the entry is still emitted with SRC 0, the placeholder date, Callout Count 1, a Location Code iff readable, and PLID the decimal deconfiguring id |
| `GuardWithEidRecords.HexExamples` | src/faultlog/guard_with_eid_records.cpp:173-175 | platform log id 291 renders as "0x123" and 4096 as "0x1000" |
| `GuardWithEidRecords.RefCodeExample` | src/faultlog/guard_with_eid_records.cpp:135-143 | an `EventId` of "ABCD1234 extra text" gives the reference code "ABCD1234" |
| `GuardWithEidRecords.WorkedExample` | src/faultlog/guard_with_eid_records.cpp:75-256 | one record with log and unit found (core0, functional, PLID 4096, EventId "B1234567 x") gives one entry with TYPE core0, CONFIGURED, PLID "0x1000", SRC "B1234567" |
| `GuardWithEidRecords.CountReportable` | src/faultlog/guard_with_eid_records.cpp:60-73 | the number of records with a non-zero `elogId`, never more than the number of records; `CountBounds`, `CountAppend` and `CountIgnoresManual` state the rest |
| `GuardWithEidRecords.ResolveErrorLog` | src/faultlog/guard_with_eid_records.cpp:89-172 | the error-log lookup outcome: deleted exactly on a bus error from the id translation; dropped exactly on any other translation error or a failed `GetAll`; otherwise the four extracted values (`FoundEntryContents`) |
| `GuardWithEidRecords.ResolveTarget` | src/faultlog/guard_with_eid_records.cpp:182-199 | present exactly when the physical path is known and some node carries it; then the path is the looked-up one and the node carries it (`ResolvedTargetIsFirstMatch` adds that it is the first such node) |
| `GuardWithEidRecords.FailedLookupDropped` | src/faultlog/guard_with_eid_records.cpp:102-152 | a translation error other than a bus error, or a failed `GetAll` call, drops the record whatever the topology holds (the catch at line 250) |
| `GuardWithEidRecords.FoundErrorLogJson` | src/faultlog/guard_with_eid_records.cpp:173-178 | the error-log object built from a found log: hex PLID, parsed callouts, SRC and converted date; its fields are stated by `FoundEntryContents` |
| `GuardWithEidRecords.FallbackErrorLogJson` | src/faultlog/guard_with_eid_records.cpp:219-236 | the error-log object synthesised from the unit when the log is gone; its fields are stated by `FallbackEntryContents` |
| `GuardWithEidRecords.ResourceJson` | src/faultlog/guard_with_eid_records.cpp:200-216 | the resource-actions object of the unit found; its four fields are stated by `EntryShape` |
| `GuardWithEidRecords.ServiceEventJson` | src/faultlog/guard_with_eid_records.cpp:238-248 | the `SERVICABLE_EVENT` / `CEC_ERROR_LOG` nesting of the two objects; stated by `EntryShape` |
| `GuardWithEidRecords.EntryFor` | src/faultlog/guard_with_eid_records.cpp:82-254 | the entry one record contributes, if any; when it is present is stated by `EntryEmittedIff`, and `ProcessRecord` is proved equal to it |
| `GuardWithEidRecords.Report` | src/faultlog/guard_with_eid_records.cpp:80-255 | the entries of a record sequence in record order; stated by `ReportAppend`, `ReportLength` and `ReportOrigin`, and appended by `Populate` |
| `Properties.FirstToken` | src/faultlog/guard_with_eid_records.cpp:140-141 | the first whitespace-delimited word, as `iss >> refCode` stores it; stated by `FirstTokenSplit` and `FirstTokenOfSplit` |
| `Properties.RefCode` | src/faultlog/guard_with_eid_records.cpp:135-143 | the first word of a string `EventId`, empty when the key is missing or mistyped; stated by `ReadLoggingEntry` and `RefCodeExample` |
| `Topology.Search` | src/faultlog/guard_with_eid_records.cpp:45-58 | a node it returns matches the path; `SearchIsFirstMatch` and `SearchFindsFirstMatch` show that it is the first match in traversal order |
| `Topology.SearchList` | src/faultlog/guard_with_eid_records.cpp:192 | the search over a node's subtrees, left to right; a node it returns matches the path (`SearchListIsFirstMatch`) |
| `GuardWithEidRecords.IsReportable` | src/faultlog/guard_with_eid_records.cpp:66-69 | the one manual-guard rule (`elogId != 0`) shared by the counter and the assembler (also line 85); used by `CountIgnoresManual`, `ReportOrigin` and `EntryEmittedIff` |
| `Topology.Matches` | src/faultlog/guard_with_eid_records.cpp:49-51 | the callback's test: the physical-path attribute is readable and equal to the searched path; `GetGuardedTarget` and `SearchFindsFirstMatch` are stated with it |
| `GuardWithEidRecords.LogEntryPath` | src/faultlog/guard_with_eid_records.cpp:116-117 | the object path is the logging-entry prefix followed by decimal digits from which the BMC log id reads back |
| `GuardWithEidRecords.DeconfiguredByEid` | src/faultlog/guard_with_eid_records.cpp:203-232 | the id the fallback PLID is rendered from: the read HWAS state's `deconfiguredByEid`, or the unconstrained unread value when the read failed; used by `FallbackEntryContents` |
| `GuardWithEidRecords.ErrorLogJson` | src/faultlog/guard_with_eid_records.cpp:110-236 | the found/fallback choice: the found log's object when the translation succeeded (line 112), the synthesised one after a bus error (line 219); its fields are stated by `FoundEntryContents` and `FallbackEntryContents` |
| `GuardWithEidRecords.DeletedLogStillEmitted` | src/faultlog/guard_with_eid_records.cpp:102-244 | a reportable record whose id translation fails with a bus error and whose unit is found still yields an entry |
| `Properties.StringProp` | src/faultlog/guard_with_eid_records.cpp:127-133 | key lookup then string try-get: present exactly when the key is there with a string value, and then that value |
| `Properties.Uint32Prop` | src/faultlog/guard_with_eid_records.cpp:156-162 | present exactly when the key is there with a uint32 value, and then that value |
| `Properties.Uint64Prop` | src/faultlog/guard_with_eid_records.cpp:164-170 | present exactly when the key is there with a uint64 value, and then that value |
| `Properties.GetString` | src/faultlog/guard_with_eid_records.cpp:129-130 | the string try-get is present exactly when the value holds the string alternative, and then gives it |
| `Properties.GetUint32` | src/faultlog/guard_with_eid_records.cpp:158-159 | the uint32 try-get is present exactly on the uint32 tag |
| `Properties.GetUint64` | src/faultlog/guard_with_eid_records.cpp:166-167 | the uint64 try-get is present exactly on the uint64 tag |
| `Properties.ReadLoggingEntry` | src/faultlog/guard_with_eid_records.cpp:114-144 | the loop over the map yields the `Resolution` string and the first word of the `EventId` string, each empty when the key is missing or mistyped |
| `Properties.ReadPelEntry` | src/faultlog/guard_with_eid_records.cpp:145-172 | the loop over the map yields the uint32 `PlatformLogID` and the uint64 `Timestamp`, each 0 when missing or mistyped |
| `Properties.FirstTokenSplit` | src/faultlog/guard_with_eid_records.cpp:140-141 | the input is leading whitespace, then the word (no whitespace), then a rest that is empty or starts with whitespace; an empty word means an all-whitespace input |
| `Properties.FirstTokenOfSplit` | src/faultlog/guard_with_eid_records.cpp:140-141 | conversely, any such split yields its word: trailing text is discarded |
| `Numerals.Render` | src/faultlog/guard_with_eid_records.cpp:173-175 | rendering uses only digits of the base (lower-case for hex), at least one, with no leading zero except for 0 itself |
| `Numerals.ParseRender` | src/faultlog/guard_with_eid_records.cpp:173-175 | reading the digits back gives the number: the rendering loses nothing |
| `Numerals.RenderInjective` | src/faultlog/guard_with_eid_records.cpp:231-232 | different ids render to different decimal (and hex) strings |
| `Topology.FirstMatch` | src/faultlog/guard_with_eid_records.cpp:192-193 | reference first-match scan: absent iff no node matches, otherwise a matching node with no match before it |
| `Topology.SearchIsFirstMatch` | src/faultlog/guard_with_eid_records.cpp:192 | the tree search equals the first match in the pre-order list of nodes |
| `Topology.SearchFindsFirstMatch` | src/faultlog/guard_with_eid_records.cpp:45-58 | the search result has a readable path equal to the target path, and no earlier node in traversal order has one; absent iff no node does |
| `Topology.GuardedTarget.constructor` | src/faultlog/guard_with_eid_records.cpp:19-26 | the search data starts with the path and no target |
| `Topology.GuardedTarget.GetGuardedTarget` | src/faultlog/guard_with_eid_records.cpp:45-58 | the callback returns 1 and records the node exactly when its path attribute is readable and equal; otherwise it returns 0 and changes nothing |
| `Topology.GuardedTarget.Traverse` | src/faultlog/guard_with_eid_records.cpp:191-193 | the walk returns 1 iff the search finds a node, records exactly that node, and otherwise leaves the record untouched |

## Left out

- D-Bus transport is not modelled: `new_method_call`, `call`, `read`. Each
  call is one collaborator function from its arguments to an outcome. The
  object path string is modelled.
- libpdbg is not modelled: its internals, the `DT_GET_PROP` attribute
  encoding and the `pdbg_target_root`/`pdbgTargetName` calls. The topology is
  a tree of `Target` values. Each target has a name and three optional
  attributes, each `None` when the read fails. The root is a parameter.
- `parseCallout`, `epochTimeToBCD`, `getGuardReason` and `getPhysicalPath`
  are uninterpreted collaborator functions, and their results are copied
  verbatim. An exception thrown from inside one of them would be caught at
  line 250. That case is not modelled; they are taken never to throw.
- `lg2` logging is left out. It is diagnostic only.
- The `double` alternative of `PropertyValue` is kept as opaque bits. No
  consumed key reads it.
- `DeconfiguredByEid`: if the HWAS state read fails, line 232 reads an
  uninitialised struct. The model takes that value from the collaborator
  field `unreadDeconfiguredByEid` and makes no claim about it.
  `FallbackEntryContents` states the PLID only when the HWAS state is
  readable.
- JSON library semantics are not modelled, beyond objects as key maps and
  arrays as sequences. `jsonNag` is taken to be an array. `push_back` on some
  other JSON kind would throw and be caught; that is not modelled.
- `GetCount`: the C++ `int` accumulator could overflow past 2^31-1 records.
  The model's count is unbounded.
- `std::map` visits keys in sorted order. The reading loops visit keys in an
  arbitrary order. The keys are unique, so the outcome is the same.
- Running the assembly twice on the same inputs gives the same output. This
  holds because the specification is made of pure functions, so there is no
  separate lemma for it.
