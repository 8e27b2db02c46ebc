/** The assembler of `openpower::faultlog::GuardWithEidRecords`: it counts
    the guard records that have an originating error log and turns each of
    them into one `SERVICABLE_EVENT` entry of the fault-log report.

    Every D-Bus call and every helper from another file is a field of
    `Collaborators`, a function from the call's arguments to its outcome;
    an exception the code does not catch locally is an outcome that drops the
    record, as the catch at the record boundary does. The libpdbg reads are
    the attributes of the `Target` tree, and the walk is `Search`. */
module GuardWithEidRecords {
  import opened Wrappers
  import opened Ints
  import opened Json
  import opened Numerals
  import opened Properties
  import opened Topology
  import opened Collections

  /** The opaque entity path of the guarded unit. */
  type EntityPath = seq<uint8>

  /** The fields of a libguard guard record that the assembler reads. An
      `elogId` of 0 marks a manually created guard. */
  datatype GuardRecord = GuardRecord(recordId: uint32, elogId: uint32, targetId: EntityPath)

  /** Outcome of the `GetBMCLogIdFromPELId` method call. */
  datatype IdTranslation =
    | Translated(bmcLogId: uint32)
    | SdBusError     // caught locally: the error log is taken to be deleted
    | OtherError     // any other exception: reaches the record boundary

  /** Outcome of a `GetAll` property call. */
  datatype GetAllReply = Reply(props: Properties) | CallFailed

  datatype Collaborators = Collaborators(
    getBmcLogIdFromPelId: uint32 -> IdTranslation,
    /** `GetAll(objectPath, interface)` on the logging service. */
    getAll: (string, string) -> GetAllReply,
    getPhysicalPath: EntityPath -> Option<string>,
    parseCallout: string -> Json,
    epochTimeToBcd: uint64 -> string,
    getGuardReason: (seq<GuardRecord>, string) -> string,
    /** Whatever the unread HWAS state holds for `deconfiguredByEid` when the
        attribute read failed; nothing is claimed about it. */
    unreadDeconfiguredByEid: GuardRecord -> uint32)

  const StateConfigured := "CONFIGURED"
  const StateDeconfigured := "DECONFIGURED"
  const LogEntryPathPrefix := "/xyz/openbmc_project/logging/entry/"
  const LoggingEntryInterface := "xyz.openbmc_project.Logging.Entry"
  const PelEntryInterface := "org.open_power.Logging.PEL.Entry"
  const NoDateTime := "00/00/0000 00:00:00"

  // ---------------------------------------------------------------------
  // Counting

  /** The one exclusion rule shared by the counter and the assembler. */
  predicate IsReportable(r: GuardRecord)
  {
    r.elogId != 0
  }

  function CountReportable(rs: seq<GuardRecord>): (n: nat)
    ensures n <= |rs|
  {
    if rs == [] then 0
    else CountReportable(rs[..|rs| - 1]) + (if IsReportable(rs[|rs| - 1]) then 1 else 0)
  }

  lemma {:induction false} CountAppend(a: seq<GuardRecord>, b: seq<GuardRecord>)
    ensures CountReportable(a + b) == CountReportable(a) + CountReportable(b)
    decreases |b|
  {
    if b == [] {
      assert a + b == a;
    } else {
      assert (a + b)[..|a + b| - 1] == a + b[..|b| - 1];
      CountAppend(a, b[..|b| - 1]);
    }
  }

  /** At most one per record; a manual record never changes the count, and
      the count is the length exactly when no record is manual. */
  lemma {:induction false} CountBounds(rs: seq<GuardRecord>)
    ensures CountReportable(rs) <= |rs|
    ensures CountReportable(rs) == |rs| <==> forall i :: 0 <= i < |rs| ==> IsReportable(rs[i])
    ensures CountReportable(rs) == 0 <==> forall i :: 0 <= i < |rs| ==> !IsReportable(rs[i])
  {
    if rs != [] {
      var init := rs[..|rs| - 1];
      CountBounds(init);
      assert forall i :: 0 <= i < |init| ==> init[i] == rs[i];
    }
  }

  lemma CountIgnoresManual(a: seq<GuardRecord>, r: GuardRecord, b: seq<GuardRecord>)
    requires !IsReportable(r)
    ensures CountReportable(a + [r] + b) == CountReportable(a + b)
  {
    CountAppend(a + [r], b);
    CountAppend(a, [r]);
    CountAppend(a, b);
    assert [r][..0] == [];
  }

  /** `getCount`: the number of records with a non-zero `elogId`. */
  method GetCount(guardRecords: seq<GuardRecord>) returns (count: int)
    ensures count == CountReportable(guardRecords)
    ensures 0 <= count <= |guardRecords|
  {
    count := 0;
    for i := 0 to |guardRecords|
      invariant count == CountReportable(guardRecords[..i])
    {
      assert guardRecords[..i + 1][..i] == guardRecords[..i];
      if guardRecords[i].elogId == 0 {
        continue;
      }
      count := count + 1;
    }
    assert guardRecords[..|guardRecords|] == guardRecords;
    CountBounds(guardRecords);
  }

  // ---------------------------------------------------------------------
  // The per-record pipeline, as functions

  /** What the error-log lookups yield for one record. */
  datatype ErrorLog = ErrorLog(plid: uint32, callouts: string, refCode: string, timestamp: uint64)
  datatype LogLookup =
    | LogFound(log: ErrorLog)
    | LogDeleted   // the id translation failed with a bus error
    | LogFailed    // an exception that drops the record

  /** The logging entry's object path: the fixed prefix, then the decimal
      BMC log id, which can be read back from it. */
  function LogEntryPath(bmcLogId: uint32): (p: string)
    ensures |LogEntryPathPrefix| < |p| && p[..|LogEntryPathPrefix|] == LogEntryPathPrefix
    ensures Parse(p[|LogEntryPathPrefix|..], 10) == bmcLogId
  {
    var digits := Render(bmcLogId, 10);
    ParseRender(bmcLogId, 10);
    assert (LogEntryPathPrefix + digits)[|LogEntryPathPrefix|..] == digits;
    LogEntryPathPrefix + digits
  }

  /** The id translation and, when it succeeds, the two `GetAll` calls and
      the reading of their maps. */
  function ResolveErrorLog(env: Collaborators, elogId: uint32): (r: LogLookup)
    ensures r.LogDeleted? <==> env.getBmcLogIdFromPelId(elogId).SdBusError?
    ensures r.LogFailed? <==>
      env.getBmcLogIdFromPelId(elogId).OtherError? ||
      (env.getBmcLogIdFromPelId(elogId).Translated? &&
       (env.getAll(LogEntryPath(env.getBmcLogIdFromPelId(elogId).bmcLogId), LoggingEntryInterface).CallFailed? ||
        env.getAll(LogEntryPath(env.getBmcLogIdFromPelId(elogId).bmcLogId), PelEntryInterface).CallFailed?))
  {
    match env.getBmcLogIdFromPelId(elogId)
    case SdBusError => LogDeleted
    case OtherError => LogFailed
    case Translated(bmcLogId) =>
      var objPath := LogEntryPath(bmcLogId);
      match env.getAll(objPath, LoggingEntryInterface)
      case CallFailed => LogFailed
      case Reply(loggingEntry) =>
        match env.getAll(objPath, PelEntryInterface)
        case CallFailed => LogFailed
        case Reply(pelEntry) =>
          LogFound(ErrorLog(
            Uint32Prop(pelEntry, "PlatformLogID").GetOr(0),
            StringProp(loggingEntry, "Resolution").GetOr(""),
            RefCode(loggingEntry),
            Uint64Prop(pelEntry, "Timestamp").GetOr(0)))
  }

  /** The physical path of the guarded unit and its topology node. */
  function ResolveTarget(env: Collaborators, root: Target, targetId: EntityPath): (r: Option<(string, Target)>)
    ensures r.Some? <==> env.getPhysicalPath(targetId).Some? && Search(root, env.getPhysicalPath(targetId).value).Some?
    ensures r.Some? ==> env.getPhysicalPath(targetId) == Some(r.value.0) && r.value.1.physDevPath == Some(r.value.0)
  {
    match env.getPhysicalPath(targetId)
    case None => None
    case Some(path) =>
      match Search(root, path)
      case None => None
      case Some(node) => Some((path, node))
  }

  /** `CURRENT_STATE`: configured only when the HWAS state is readable and
      says functional; an unreadable state counts as deconfigured. */
  function CurrentState(hwas: Option<HwasState>): (state: string)
    ensures state == StateConfigured || state == StateDeconfigured
    ensures state == StateConfigured <==> hwas.Some? && hwas.value.functional
  {
    match hwas
    case Some(h) => if h.functional then StateConfigured else StateDeconfigured
    case None => StateDeconfigured
  }

  /** The error-log object when the log was found. */
  function FoundErrorLogJson(env: Collaborators, log: ErrorLog): Json
  {
    JObject(map[
      "PLID" := JString("0x" + Render(log.plid, 16)),
      "Callout Section" := env.parseCallout(log.callouts),
      "SRC" := JString(log.refCode),
      "DATE_TIME" := JString(env.epochTimeToBcd(log.timestamp))])
  }

  /** The deconfiguring error log id the fallback PLID is rendered from. */
  function DeconfiguredByEid(env: Collaborators, rec: GuardRecord, node: Target): uint32
  {
    match node.hwasState
    case Some(h) => h.deconfiguredByEid
    case None => env.unreadDeconfiguredByEid(rec)
  }

  /** The error-log object synthesised when the log is gone. */
  function FallbackErrorLogJson(env: Collaborators, rec: GuardRecord, node: Target): Json
  {
    var callout := match node.locationCode
      case Some(loc) => map["Location Code" := JString(loc)]
      case None => map[];
    JObject(map[
      "PLID" := JString(Render(DeconfiguredByEid(env, rec, node), 10)),
      "Callout Section" := JObject(map["Callout Count" := JInt(1), "Callouts" := JObject(callout)]),
      "SRC" := JInt(0),
      "DATE_TIME" := JString(NoDateTime)])
  }

  function ResourceJson(env: Collaborators, all: seq<GuardRecord>, path: string, node: Target): Json
  {
    JObject(map[
      "TYPE" := JString(node.name),
      "CURRENT_STATE" := JString(CurrentState(node.hwasState)),
      "REASON_DESCRIPTION" := JString(env.getGuardReason(all, path)),
      "GARD_RECORD" := JBool(true)])
  }

  function ServiceEventJson(errorLog: Json, resource: Json): Json
  {
    JObject(map["SERVICABLE_EVENT" :=
      JObject(map["CEC_ERROR_LOG" := JArray([errorLog, JObject(map["RESOURCE_ACTIONS" := resource])])])])
  }

  /** The error-log object: from the log when it was found, synthesised
      from the unit when it is gone. */
  function ErrorLogJson(env: Collaborators, rec: GuardRecord, log: LogLookup, node: Target): Json
    requires !log.LogFailed?
  {
    if log.LogFound? then FoundErrorLogJson(env, log.log) else FallbackErrorLogJson(env, rec, node)
  }

  /** The entry one record contributes, if any. `all` is the whole record
      sequence, which the reason lookup consults. */
  function EntryFor(env: Collaborators, root: Target, all: seq<GuardRecord>, rec: GuardRecord): Option<Json>
  {
    if !IsReportable(rec) then None
    else
      var log := ResolveErrorLog(env, rec.elogId);
      if log.LogFailed? then None
      else match ResolveTarget(env, root, rec.targetId)
        case None => None
        case Some((path, node)) =>
          Some(ServiceEventJson(ErrorLogJson(env, rec, log, node), ResourceJson(env, all, path, node)))
  }

  /** The entries `rs` contributes to the report. */
  function Report(env: Collaborators, root: Target, all: seq<GuardRecord>, rs: seq<GuardRecord>): seq<Json>
  {
    Collect(rs, rec => EntryFor(env, root, all, rec))
  }

  // ---------------------------------------------------------------------
  // The assembler, as the C++ runs it

  /** The error-log lookups of one record: the id translation, where only
      a bus error means the log is gone and any other exception drops the
      record, then the two `GetAll` calls (a failure of either drops the
      record) and the loops that read their maps. */
  method LookUpErrorLog(env: Collaborators, elogId: uint32) returns (log: LogLookup)
    ensures log == ResolveErrorLog(env, elogId)
  {
    var bmcLogId: uint32 := 0;
    var dbusErrorObjFound := true;
    match env.getBmcLogIdFromPelId(elogId) {
      case Translated(id) =>
        bmcLogId := id;
      case SdBusError =>
        dbusErrorObjFound := false;
      case OtherError =>
        return LogFailed;
    }
    if !dbusErrorObjFound {
      return LogDeleted;
    }
    var objPath := LogEntryPathPrefix + Render(bmcLogId, 10);
    var loggingEntryReply := env.getAll(objPath, LoggingEntryInterface);
    if loggingEntryReply.CallFailed? {
      return LogFailed;
    }
    var callouts, refCode := ReadLoggingEntry(loggingEntryReply.props);
    var pelEntryReply := env.getAll(objPath, PelEntryInterface);
    if pelEntryReply.CallFailed? {
      return LogFailed;
    }
    var plid, timestamp := ReadPelEntry(pelEntryReply.props);
    log := LogFound(ErrorLog(plid, callouts, refCode, timestamp));
  }

  /** The hardware lookups of one record: the physical path of the target,
      then the walk of the topology for the node carrying it. */
  method LookUpTarget(env: Collaborators, root: Target, targetId: EntityPath) returns (found: Option<(string, Target)>)
    ensures found == ResolveTarget(env, root, targetId)
  {
    var physicalPath := env.getPhysicalPath(targetId);
    if physicalPath.None? {
      return None;
    }
    var guardedTarget := new GuardedTarget(physicalPath.value);
    var _ := guardedTarget.Traverse(root);
    if guardedTarget.target.None? {
      return None;
    }
    found := Some((physicalPath.value, guardedTarget.target.value));
  }

  /** One pass of the loop body of `populate`: the entry for `elem`, or
      `None` when the record is skipped or its processing throws. The error
      log is looked up before the hardware. */
  method ProcessRecord(env: Collaborators, root: Target, guardRecords: seq<GuardRecord>, elem: GuardRecord)
    returns (entry: Option<Json>)
    ensures entry == EntryFor(env, root, guardRecords, elem)
  {
    // ignore manual guard records
    if elem.elogId == 0 {
      return None;
    }
    var log := LookUpErrorLog(env, elem.elogId);
    if log.LogFailed? {
      return None;
    }
    var jsonErrorLog: map<string, Json> := map[];
    if log.LogFound? {
      jsonErrorLog := jsonErrorLog["PLID" := JString("0x" + Render(log.log.plid, 16))];
      jsonErrorLog := jsonErrorLog["Callout Section" := env.parseCallout(log.log.callouts)];
      jsonErrorLog := jsonErrorLog["SRC" := JString(log.log.refCode)];
      jsonErrorLog := jsonErrorLog["DATE_TIME" := JString(env.epochTimeToBcd(log.log.timestamp))];
    }

    // add resource actions section
    var target := LookUpTarget(env, root, elem.targetId);
    if target.None? {
      return None;
    }
    var (physicalPath, node) := target.value;
    var jsonResource: map<string, Json> := map["TYPE" := JString(node.name)];
    var state := StateDeconfigured;
    var deconfiguredByEid := env.unreadDeconfiguredByEid(elem);
    if node.hwasState.Some? {
      deconfiguredByEid := node.hwasState.value.deconfiguredByEid;
      if node.hwasState.value.functional {
        state := StateConfigured;
      }
    }
    jsonResource := jsonResource["CURRENT_STATE" := JString(state)];
    jsonResource := jsonResource["REASON_DESCRIPTION" := JString(env.getGuardReason(guardRecords, physicalPath))];
    jsonResource := jsonResource["GARD_RECORD" := JBool(true)];

    // the error log is deleted: add whatever data is found
    if log.LogDeleted? {
      var jsonCallout: map<string, Json> := map[];
      if node.locationCode.Some? {
        jsonCallout := jsonCallout["Location Code" := JString(node.locationCode.value)];
      }
      var sectionJson := map["Callout Count" := JInt(1), "Callouts" := JObject(jsonCallout)];
      jsonErrorLog := jsonErrorLog["PLID" := JString(Render(deconfiguredByEid, 10))];
      jsonErrorLog := jsonErrorLog["Callout Section" := JObject(sectionJson)];
      jsonErrorLog := jsonErrorLog["SRC" := JInt(0)];
      jsonErrorLog := jsonErrorLog["DATE_TIME" := JString(NoDateTime)];
    }
    assert JObject(jsonErrorLog) == ErrorLogJson(env, elem, log, node);
    assert JObject(jsonResource) == ResourceJson(env, guardRecords, physicalPath, node);

    var jsonErrorLogSection := [JObject(jsonErrorLog)];
    var jsonEventData := map["RESOURCE_ACTIONS" := JObject(jsonResource)];
    jsonErrorLogSection := jsonErrorLogSection + [JObject(jsonEventData)];
    var jsonErrlogObj := map["CEC_ERROR_LOG" := JArray(jsonErrorLogSection)];
    var jsonServiceEvent := map["SERVICABLE_EVENT" := JObject(jsonErrlogObj)];
    entry := Some(JObject(jsonServiceEvent));
    assert jsonErrorLogSection == [JObject(jsonErrorLog), JObject(jsonEventData)];
  }

  /** `populate`: appends to `jsonNag` the entries of `guardRecords` in
      order, leaving the entries already there untouched. */
  method Populate(env: Collaborators, root: Target, guardRecords: seq<GuardRecord>, jsonNag: JsonArray)
    modifies jsonNag
    ensures jsonNag.items == old(jsonNag.items) + Report(env, root, guardRecords, guardRecords)
  {
    for i := 0 to |guardRecords|
      invariant jsonNag.items == old(jsonNag.items) + Report(env, root, guardRecords, guardRecords[..i])
    {
      assert guardRecords[..i + 1][..i] == guardRecords[..i];
      var entry := ProcessRecord(env, root, guardRecords, guardRecords[i]);
      if entry.Some? {
        jsonNag.PushBack(entry.value);
      }
    }
    assert guardRecords[..|guardRecords|] == guardRecords;
  }

  // ---------------------------------------------------------------------
  // Properties of the report

  /** When manual records yield nothing, there are at most as many entries
      as reportable records, and exactly as many when every reportable
      record yields one. */
  lemma {:induction false} CollectLength<E>(rs: seq<GuardRecord>, entryOf: GuardRecord -> Option<E>)
    requires forall i :: 0 <= i < |rs| && !IsReportable(rs[i]) ==> entryOf(rs[i]).None?
    ensures |Collect(rs, entryOf)| <= CountReportable(rs)
    ensures |Collect(rs, entryOf)| == CountReportable(rs) <==>
            forall i :: 0 <= i < |rs| && IsReportable(rs[i]) ==> entryOf(rs[i]).Some?
  {
    if rs != [] {
      var init := rs[..|rs| - 1];
      assert forall i :: 0 <= i < |init| ==> init[i] == rs[i];
      CollectLength(init, entryOf);
    }
  }

  /** Records are processed independently: the report of a concatenation is
      the concatenation of the reports. */
  lemma ReportAppend(env: Collaborators, root: Target, all: seq<GuardRecord>, a: seq<GuardRecord>, b: seq<GuardRecord>)
    ensures Report(env, root, all, a + b) == Report(env, root, all, a) + Report(env, root, all, b)
  {
    CollectAppend(a, b, rec => EntryFor(env, root, all, rec));
  }

  /** At most one entry per reportable record, so never more entries than
      `getCount` reports; exactly that many when no reportable record is
      dropped. */
  lemma ReportLength(env: Collaborators, root: Target, all: seq<GuardRecord>, rs: seq<GuardRecord>)
    ensures |Report(env, root, all, rs)| <= CountReportable(rs)
    ensures |Report(env, root, all, rs)| == CountReportable(rs) <==>
            forall i :: 0 <= i < |rs| && IsReportable(rs[i]) ==> EntryFor(env, root, all, rs[i]).Some?
  {
    CollectLength(rs, rec => EntryFor(env, root, all, rec));
  }

  /** The entries correspond, in order, to the records that produce one:
      entry `k` is the entry of record `idx[k]`, the indexes increase, each
      names a record with a non-zero `elogId`, and every record that produces
      an entry is named. */
  lemma ReportOrigin(env: Collaborators, root: Target, all: seq<GuardRecord>, rs: seq<GuardRecord>)
    returns (idx: seq<nat>)
    ensures |idx| == |Report(env, root, all, rs)|
    ensures forall k :: 0 <= k < |idx| ==>
      idx[k] < |rs| && IsReportable(rs[idx[k]]) && EntryFor(env, root, all, rs[idx[k]]) == Some(Report(env, root, all, rs)[k])
    ensures forall k, l :: 0 <= k < l < |idx| ==> idx[k] < idx[l]
    ensures forall i :: 0 <= i < |rs| && EntryFor(env, root, all, rs[i]).Some? ==> i in idx
  {
    var entryOf := rec => EntryFor(env, root, all, rec);
    idx := Origins(rs, entryOf);
    OriginsEntries(rs, entryOf);
    OriginsComplete(rs, entryOf);
  }

  /** A record that yields no entry leaves the entries of the records
      around it as they are. */
  lemma DroppedRecordSkipped(env: Collaborators, root: Target, all: seq<GuardRecord>,
                             a: seq<GuardRecord>, r: GuardRecord, b: seq<GuardRecord>)
    requires EntryFor(env, root, all, r).None?
    ensures Report(env, root, all, a + [r] + b) == Report(env, root, all, a + b)
  {
    ReportAppend(env, root, all, a + [r], b);
    ReportAppend(env, root, all, a, [r]);
    ReportAppend(env, root, all, a, b);
    assert [r][..0] == [];
  }

  /** When an entry is emitted: for a record with a non-zero `elogId` whose
      error-log lookups do not throw and whose unit is found. A deleted log
      does not stop the entry; an unknown physical path or a path no node
      carries does. */
  lemma EntryEmittedIff(env: Collaborators, root: Target, all: seq<GuardRecord>, rec: GuardRecord)
    ensures EntryFor(env, root, all, rec).Some? <==>
      IsReportable(rec) &&
      !ResolveErrorLog(env, rec.elogId).LogFailed? &&
      env.getPhysicalPath(rec.targetId).Some? &&
      Search(root, env.getPhysicalPath(rec.targetId).value).Some?
  {
  }

  /** A record is dropped when the id translation throws anything but a
      bus error, or when either `GetAll` call fails, whatever the topology
      holds: the exception reaches the per-record catch. */
  lemma FailedLookupDropped(env: Collaborators, root: Target, all: seq<GuardRecord>, rec: GuardRecord)
    requires env.getBmcLogIdFromPelId(rec.elogId).OtherError? ||
      (env.getBmcLogIdFromPelId(rec.elogId).Translated? &&
       (env.getAll(LogEntryPath(env.getBmcLogIdFromPelId(rec.elogId).bmcLogId), LoggingEntryInterface).CallFailed? ||
        env.getAll(LogEntryPath(env.getBmcLogIdFromPelId(rec.elogId).bmcLogId), PelEntryInterface).CallFailed?))
    ensures EntryFor(env, root, all, rec).None?
  {
  }

  /** A deleted error log does not drop the record: a reportable record whose
      id translation fails with a bus error and whose unit is found still
      yields an entry, built from the fallback content. */
  lemma DeletedLogStillEmitted(env: Collaborators, root: Target, all: seq<GuardRecord>, rec: GuardRecord)
    requires IsReportable(rec)
    requires env.getBmcLogIdFromPelId(rec.elogId).SdBusError?
    requires ResolveTarget(env, root, rec.targetId).Some?
    ensures EntryFor(env, root, all, rec).Some?
  {
  }

  /** A record whose physical path is unknown, or carried by no node,
      adds nothing, and the records after it are processed as usual. */
  lemma UnresolvedTargetDropped(env: Collaborators, root: Target, all: seq<GuardRecord>,
                                before: seq<GuardRecord>, rec: GuardRecord, after: seq<GuardRecord>)
    requires env.getPhysicalPath(rec.targetId).None? || Search(root, env.getPhysicalPath(rec.targetId).value).None?
    ensures EntryFor(env, root, all, rec).None?
    ensures Report(env, root, all, before + [rec] + after) == Report(env, root, all, before) + Report(env, root, all, after)
  {
    EntryEmittedIff(env, root, all, rec);
    DroppedRecordSkipped(env, root, all, before, rec, after);
    ReportAppend(env, root, all, before, after);
  }

  /** The unit an entry describes is the first node, in traversal order,
      whose readable physical path is the one looked up for the record. */
  lemma ResolvedTargetIsFirstMatch(env: Collaborators, root: Target, targetId: EntityPath, path: string, node: Target)
    requires ResolveTarget(env, root, targetId) == Some((path, node))
    ensures env.getPhysicalPath(targetId) == Some(path) && node.physDevPath == Some(path)
    ensures exists k :: 0 <= k < |PreOrder(root)| && PreOrder(root)[k] == node &&
                        forall j :: 0 <= j < k ==> PreOrder(root)[j].physDevPath != Some(path)
  {
    SearchFindsFirstMatch(root, path);
  }

  /** The error-log section (`CEC_ERROR_LOG`) of an emitted entry. */
  function CecErrorLog(entry: Json): Option<seq<Json>>
  {
    match FieldPath(entry, ["SERVICABLE_EVENT", "CEC_ERROR_LOG"])
    case Some(JArray(items)) => Some(items)
    case _ => None
  }

  /** An emitted entry wraps the error-log object and the resource actions
      of the unit found. */
  lemma EmittedEntry(env: Collaborators, root: Target, all: seq<GuardRecord>, rec: GuardRecord, path: string, node: Target)
    requires IsReportable(rec) && !ResolveErrorLog(env, rec.elogId).LogFailed?
    requires ResolveTarget(env, root, rec.targetId) == Some((path, node))
    ensures EntryFor(env, root, all, rec) ==
      Some(ServiceEventJson(ErrorLogJson(env, rec, ResolveErrorLog(env, rec.elogId), node), ResourceJson(env, all, path, node)))
  {
  }

  lemma ServiceEventSections(errorLog: Json, resource: Json)
    ensures CecErrorLog(ServiceEventJson(errorLog, resource)) == Some([errorLog, JObject(map["RESOURCE_ACTIONS" := resource])])
  {
    var keys := ["SERVICABLE_EVENT", "CEC_ERROR_LOG"];
    assert keys[1..][1..] == [];
  }

  lemma ResourceFields(env: Collaborators, all: seq<GuardRecord>, path: string, node: Target)
    ensures var actions := JObject(map["RESOURCE_ACTIONS" := ResourceJson(env, all, path, node)]);
      && FieldPath(actions, ["RESOURCE_ACTIONS", "TYPE"]) == Some(JString(node.name))
      && FieldPath(actions, ["RESOURCE_ACTIONS", "CURRENT_STATE"]) == Some(JString(CurrentState(node.hwasState)))
      && FieldPath(actions, ["RESOURCE_ACTIONS", "REASON_DESCRIPTION"]) == Some(JString(env.getGuardReason(all, path)))
      && FieldPath(actions, ["RESOURCE_ACTIONS", "GARD_RECORD"]) == Some(JBool(true))
  {
    var keys: seq<string> := ["RESOURCE_ACTIONS", ""];
    assert keys[1..][1..] == [];
    assert forall k: string {:trigger [k]} :: ["RESOURCE_ACTIONS", k][1..] == [k] && [k][1..] == [];
  }

  /** Every emitted entry holds a two-element `CEC_ERROR_LOG` whose second
      element carries the resource actions of the unit found: its name, its
      current state, the reason looked up for its path, and the guard marker. */
  lemma EntryShape(env: Collaborators, root: Target, all: seq<GuardRecord>, rec: GuardRecord, path: string, node: Target)
    requires EntryFor(env, root, all, rec).Some?
    requires ResolveTarget(env, root, rec.targetId) == Some((path, node))
    ensures var section := CecErrorLog(EntryFor(env, root, all, rec).value);
      && section.Some? && |section.value| == 2
      && FieldPath(section.value[1], ["RESOURCE_ACTIONS", "TYPE"]) == Some(JString(node.name))
      && FieldPath(section.value[1], ["RESOURCE_ACTIONS", "CURRENT_STATE"]) == Some(JString(CurrentState(node.hwasState)))
      && FieldPath(section.value[1], ["RESOURCE_ACTIONS", "REASON_DESCRIPTION"]) == Some(JString(env.getGuardReason(all, path)))
      && FieldPath(section.value[1], ["RESOURCE_ACTIONS", "GARD_RECORD"]) == Some(JBool(true))
  {
    var log := ResolveErrorLog(env, rec.elogId);
    EmittedEntry(env, root, all, rec, path, node);
    ServiceEventSections(ErrorLogJson(env, rec, log, node), ResourceJson(env, all, path, node));
    ResourceFields(env, all, path, node);
  }

  lemma FoundFields(env: Collaborators, log: ErrorLog)
    ensures var errorLog := FoundErrorLogJson(env, log);
      && FieldPath(errorLog, ["PLID"]) == Some(JString("0x" + Render(log.plid, 16)))
      && FieldPath(errorLog, ["Callout Section"]) == Some(env.parseCallout(log.callouts))
      && FieldPath(errorLog, ["SRC"]) == Some(JString(log.refCode))
      && FieldPath(errorLog, ["DATE_TIME"]) == Some(JString(env.epochTimeToBcd(log.timestamp)))
  {
    assert forall k: string {:trigger [k]} :: [k][1..] == [];
  }

  /** With the error log found, the error-log object renders the platform
      log id as "0x" and lower-case hex, takes the callouts and the date
      from the helpers, and the reference code from `EventId`; missing or
      mistyped properties read as 0 or the empty string. */
  lemma FoundEntryContents(env: Collaborators, root: Target, all: seq<GuardRecord>, rec: GuardRecord,
                           bmcLogId: uint32, loggingEntry: Properties, pelEntry: Properties)
    requires IsReportable(rec)
    requires env.getBmcLogIdFromPelId(rec.elogId) == Translated(bmcLogId)
    requires env.getAll(LogEntryPath(bmcLogId), LoggingEntryInterface) == Reply(loggingEntry)
    requires env.getAll(LogEntryPath(bmcLogId), PelEntryInterface) == Reply(pelEntry)
    requires ResolveTarget(env, root, rec.targetId).Some?
    ensures EntryFor(env, root, all, rec).Some?
    ensures var section := CecErrorLog(EntryFor(env, root, all, rec).value);
      && section.Some? && |section.value| == 2
      && FieldPath(section.value[0], ["PLID"]) == Some(JString("0x" + Render(Uint32Prop(pelEntry, "PlatformLogID").GetOr(0), 16)))
      && FieldPath(section.value[0], ["Callout Section"]) == Some(env.parseCallout(StringProp(loggingEntry, "Resolution").GetOr("")))
      && FieldPath(section.value[0], ["SRC"]) == Some(JString(RefCode(loggingEntry)))
      && FieldPath(section.value[0], ["DATE_TIME"]) == Some(JString(env.epochTimeToBcd(Uint64Prop(pelEntry, "Timestamp").GetOr(0))))
  {
    var log := ErrorLog(Uint32Prop(pelEntry, "PlatformLogID").GetOr(0), StringProp(loggingEntry, "Resolution").GetOr(""),
                        RefCode(loggingEntry), Uint64Prop(pelEntry, "Timestamp").GetOr(0));
    assert ResolveErrorLog(env, rec.elogId) == LogFound(log);
    var (path, node) := ResolveTarget(env, root, rec.targetId).value;
    EmittedEntry(env, root, all, rec, path, node);
    ServiceEventSections(FoundErrorLogJson(env, log), ResourceJson(env, all, path, node));
    FoundFields(env, log);
  }

  lemma FallbackFields(env: Collaborators, rec: GuardRecord, node: Target)
    ensures var errorLog := FallbackErrorLogJson(env, rec, node);
      && FieldPath(errorLog, ["SRC"]) == Some(JInt(0))
      && FieldPath(errorLog, ["DATE_TIME"]) == Some(JString(NoDateTime))
      && FieldPath(errorLog, ["PLID"]) == Some(JString(Render(DeconfiguredByEid(env, rec, node), 10)))
      && FieldPath(errorLog, ["Callout Section", "Callout Count"]) == Some(JInt(1))
      && FieldPath(errorLog, ["Callout Section", "Callouts", "Location Code"]) ==
           match node.locationCode
           case Some(loc) => Some(JString(loc))
           case None => None
  {
    assert forall k: string {:trigger [k]} :: [k][1..] == [];
    var toCount := ["Callout Section", "Callout Count"];
    assert toCount[1..] == ["Callout Count"];
    var toLoc := ["Callout Section", "Callouts", "Location Code"];
    assert toLoc[1..] == ["Callouts", "Location Code"] && toLoc[1..][1..] == ["Location Code"];
  }

  /** With the error log gone (a bus error from the id translation), the
      entry is still emitted when the unit is found, with SRC 0, the
      placeholder date, one callout carrying the location code when it can
      be read, and the PLID in decimal from the unit's HWAS state. */
  lemma FallbackEntryContents(env: Collaborators, root: Target, all: seq<GuardRecord>, rec: GuardRecord,
                              path: string, node: Target)
    requires IsReportable(rec)
    requires env.getBmcLogIdFromPelId(rec.elogId) == SdBusError
    requires ResolveTarget(env, root, rec.targetId) == Some((path, node))
    ensures EntryFor(env, root, all, rec).Some?
    ensures var section := CecErrorLog(EntryFor(env, root, all, rec).value);
      && section.Some? && |section.value| == 2
      && FieldPath(section.value[0], ["SRC"]) == Some(JInt(0))
      && FieldPath(section.value[0], ["DATE_TIME"]) == Some(JString(NoDateTime))
      && FieldPath(section.value[0], ["Callout Section", "Callout Count"]) == Some(JInt(1))
      && (FieldPath(section.value[0], ["Callout Section", "Callouts", "Location Code"]).Some? <==> node.locationCode.Some?)
      && (node.locationCode.Some? ==>
            FieldPath(section.value[0], ["Callout Section", "Callouts", "Location Code"]) == Some(JString(node.locationCode.value)))
      && (node.hwasState.Some? ==>
            FieldPath(section.value[0], ["PLID"]) == Some(JString(Render(node.hwasState.value.deconfiguredByEid, 10))))
  {
    assert ResolveErrorLog(env, rec.elogId) == LogDeleted;
    EmittedEntry(env, root, all, rec, path, node);
    ServiceEventSections(FallbackErrorLogJson(env, rec, node), ResourceJson(env, all, path, node));
    FallbackFields(env, rec, node);
  }

  /** Hex rendering of the two platform log ids used as examples. */
  lemma HexExamples()
    ensures "0x" + Render(291, 16) == "0x123"
    ensures "0x" + Render(4096, 16) == "0x1000"
  {
    assert Render(1, 16) == "1" && Render(18, 16) == "12" && Render(291, 16) == "123";
    assert Render(16, 16) == "10" && Render(256, 16) == "100" && Render(4096, 16) == "1000";
  }

  /** The reference code of an event id with trailing text is its first word. */
  lemma RefCodeExample()
    ensures RefCode(map["Resolution" := PString("loc1"), "EventId" := PString("B1234567 x")]) == "B1234567"
    ensures RefCode(map["EventId" := PString("ABCD1234 extra text")]) == "ABCD1234"
  {
    assert "B1234567 x" == [] + "B1234567" + " x";
    FirstTokenOfSplit([], "B1234567", " x");
    assert "ABCD1234 extra text" == [] + "ABCD1234" + " extra text";
    FirstTokenOfSplit([], "ABCD1234", " extra text");
  }

  /** A one-record report holds that record's entry, if any. */
  lemma ReportSingleton(env: Collaborators, root: Target, all: seq<GuardRecord>, rec: GuardRecord)
    ensures Report(env, root, all, [rec]) == if EntryFor(env, root, all, rec).Some? then [EntryFor(env, root, all, rec).value] else []
  {
    CollectSingleton(rec, rec => EntryFor(env, root, all, rec));
  }

  /** The worked example of one guard record whose error log and unit are
      both found: a functional unit "core0", platform log id 4096 and event
      id "B1234567 x" give an entry with TYPE "core0", state CONFIGURED,
      PLID "0x1000" and SRC "B1234567". */
  lemma WorkedExample(env: Collaborators, root: Target, bmcLogId: uint32, targetId: EntityPath, path: string, node: Target)
    requires env.getBmcLogIdFromPelId(50) == Translated(bmcLogId)
    requires env.getAll(LogEntryPath(bmcLogId), LoggingEntryInterface) ==
             Reply(map["Resolution" := PString("loc1"), "EventId" := PString("B1234567 x")])
    requires env.getAll(LogEntryPath(bmcLogId), PelEntryInterface) ==
             Reply(map["PlatformLogID" := PUint32(4096), "Timestamp" := PUint64(1000)])
    requires env.getPhysicalPath(targetId) == Some(path) && Search(root, path) == Some(node)
    requires node.name == "core0" && node.hwasState.Some? && node.hwasState.value.functional
    ensures var rec := GuardRecord(1, 50, targetId);
      var report := Report(env, root, [rec], [rec]);
      && |report| == 1
      && var section := CecErrorLog(report[0]);
      && section.Some? && |section.value| == 2
      && FieldPath(section.value[0], ["PLID"]) == Some(JString("0x1000"))
      && FieldPath(section.value[0], ["SRC"]) == Some(JString("B1234567"))
      && FieldPath(section.value[1], ["RESOURCE_ACTIONS", "TYPE"]) == Some(JString("core0"))
      && FieldPath(section.value[1], ["RESOURCE_ACTIONS", "CURRENT_STATE"]) == Some(JString(StateConfigured))
  {
    var rec := GuardRecord(1, 50, targetId);
    var loggingEntry := map["Resolution" := PString("loc1"), "EventId" := PString("B1234567 x")];
    var pelEntry := map["PlatformLogID" := PUint32(4096), "Timestamp" := PUint64(1000)];
    assert ResolveTarget(env, root, targetId) == Some((path, node));
    FoundEntryContents(env, root, [rec], rec, bmcLogId, loggingEntry, pelEntry);
    EntryShape(env, root, [rec], rec, path, node);
    ReportSingleton(env, root, [rec], rec);
    HexExamples();
    RefCodeExample();
    assert Uint32Prop(pelEntry, "PlatformLogID").GetOr(0) == 4096;
  }
}
