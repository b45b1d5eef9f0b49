/**
 * The client sync engine's `sync()` as a specification: the state the
 * engine keeps (its fields, the durable variables, what it has started and
 * emitted) and, phase by phase, how one call changes it.
 *
 * Each replication attempt's result comes from a script in the inputs; so
 * does a cancel request, which the model lets arrive during the session
 * request or during any attempt. The source retries without bound; when a
 * script runs out while the engine would retry, the model stops with
 * `StillRetrying`.
 */
module SyncEngine {
  import opened Wrappers
  import opened JsonValues
  import opened SyncLocations
  import opened PullSelector
  import opened Replication

  const InitialBatchSize := 1000
  const ReducedBatchSize := 10
  const ReducedWriteBatchSize := 10
  const ReducedChangesBatchSize := 1

  const PushSeqKey := "sync-push-last_seq"
  const PullSeqKey := "sync-pull-last_seq"
  const PreviousLocationsKey := "previousDeviceSyncLocations"
  const TrackingKey := "usePouchDbLastSequenceTracking"

  /** A value in the durable variable store. */
  datatype Stored = JsonValue(json: Json) | LocationsValue(locations: seq<LocationConfig>)

  /** A replication the engine started, with its options. */
  datatype ReplicationRun = PushRun(options: ReplicationOptions) | PullRun(options: ReplicationOptions)

  /** The engine's fields and the effects of `sync()` that outlive the call. */
  datatype Engine = Engine(
    cancelling: bool,
    fullSync: Option<SyncDirection>,
    batchSize: int,
    writeBatchSize: int,
    changesBatchSize: int,
    retryCount: int,
    pushSyncOptions: Option<ReplicationOptions>,
    pullSyncOptions: Option<ReplicationOptions>,
    vars: map<string, Stored>,
    cancelled: seq<Status>,
    runs: seq<ReplicationRun>,
    sleeps: nat,
    reinstalls: nat)

  /** The checkpoint keys hold values and the previous-locations key holds a location list. */
  predicate ValidVars(vars: map<string, Stored>) {
    && (PushSeqKey in vars ==> vars[PushSeqKey].JsonValue?)
    && (PullSeqKey in vars ==> vars[PullSeqKey].JsonValue?)
    && (TrackingKey in vars ==> vars[TrackingKey].JsonValue?)
    && (PreviousLocationsKey in vars ==> vars[PreviousLocationsKey].LocationsValue?)
  }

  /** `variableService.get(k)` for a key holding a value. */
  function SeqVar(vars: map<string, Stored>, k: string): Json {
    if k in vars && vars[k].JsonValue? then vars[k].json else Undefined
  }

  function PreviousLocations(vars: map<string, Stored>): Option<seq<LocationConfig>> {
    if PreviousLocationsKey in vars && vars[PreviousLocationsKey].LocationsValue? then
      Some(vars[PreviousLocationsKey].locations)
    else None
  }

  /** `appConfig.x || current`, for a configured number. */
  function OrElse(configured: Option<int>, current: int): int {
    if configured.Some? && configured.value != 0 then configured.value else current
  }

  datatype AppConfig = AppConfig(
    batchSize: Option<int>,
    writeBatchSize: Option<int>,
    changesBatchSize: Option<int>,
    usePouchDbLastSequenceTracking: bool)

  datatype SyncDetails = SyncDetails(
    formInfos: seq<FormInfo>,
    deviceId: string,
    disableDeviceUserFilteringByAssignment: bool)

  datatype PushAttempt = PushAttempt(result: PushResult, cancelAfter: bool)

  /** A pull attempt; `localLastSeq` is what the local changes feed reports should the attempt throw. */
  datatype PullAttempt = PullAttempt(result: PullResult, localLastSeq: Json, cancelAfter: bool)

  /** The arguments of `sync()` and everything its awaits return. */
  datatype SyncInputs = SyncInputs(
    isFirstSync: bool,
    fullSync: Option<SyncDirection>,
    reduceBatchSize: bool,
    appConfig: AppConfig,
    details: SyncDetails,
    tr: Translations,
    session: Option<seq<LocationConfig>>,
    cancelDuringSession: bool,
    pushScript: seq<PushAttempt>,
    forcedPushScript: seq<PushAttempt>,
    pullScript: seq<PullAttempt>,
    assignedIds: Option<seq<string>>,
    issueScript: seq<PullAttempt>)

  /** What `sync()` settles with: a status or `undefined`, a rejection, or (beyond the scripts) nothing yet. */
  datatype SyncOutcome = Resolved(status: Option<Status>) | Rejected | StillRetrying

  /** How a retry loop ended. */
  datatype LoopStatus<T> = Finished(value: T) | Threw | Exhausted

  /** The push loop's variables when it ends. */
  datatype PushEnd = PushEnd(docsWritten: Json, last: Option<Status>, success: bool)

  /** The batch sizes and `fullSync` that `sync()` sets before anything else. */
  function Configure(e: Engine, inp: SyncInputs): Engine {
    e.(fullSync := inp.fullSync,
       batchSize :=
         if inp.isFirstSync || inp.fullSync == Some(Pull) then InitialBatchSize
         else if inp.reduceBatchSize then ReducedBatchSize
         else OrElse(inp.appConfig.batchSize, e.batchSize),
       writeBatchSize := if inp.reduceBatchSize then ReducedBatchSize else OrElse(inp.appConfig.writeBatchSize, e.writeBatchSize),
       changesBatchSize :=
         if inp.reduceBatchSize then ReducedChangesBatchSize else OrElse(inp.appConfig.changesBatchSize, e.changesBatchSize))
  }

  predicate UsePouchDbTracking(e: Engine, inp: SyncInputs) {
    inp.appConfig.usePouchDbLastSequenceTracking || Truthy(SeqVar(e.vars, TrackingKey))
  }

  /** `finishCancelling(status)`: clear the flag and emit `{...status, cancelled: true}`. */
  function FinishCancelling(e: Engine, rs: Option<Status>): Engine {
    e.(cancelling := false, cancelled := e.cancelled + [Merge(rs, None)["cancelled" := Bool(true)]])
  }

  function SessionFailedStatus(tr: Translations): Status {
    map["pushError" := Str(tr.pleaseRetry)]
  }

  /** The sequence `push()` starts from. */
  function PushSince(e: Engine): Json {
    var stored := SeqVar(e.vars, PushSeqKey);
    if stored.Undefined? || e.fullSync == Some(Push) then Num(0) else stored
  }

  function PushRunOptions(e: Engine, usePouch: bool): ReplicationOptions {
    if e.pushSyncOptions.Some? then e.pushSyncOptions.value
    else PushOptions(usePouch, PushSince(e), e.batchSize, e.changesBatchSize)
  }

  /** Starting one push: the run is recorded. */
  function StartPush(e: Engine, usePouch: bool): Engine {
    e.(runs := e.runs + [PushRun(PushRunOptions(e, usePouch))])
  }

  function Cancel(e: Engine, requested: bool): Engine {
    e.(cancelling := e.cancelling || requested)
  }

  /** How one attempt of a retry loop leaves it: ended, or going round again with new loop variables. */
  datatype Attempt<T, C> = Ended(after: Engine, result: LoopStatus<T>) | Again(after: Engine, carry: C)

  /** The loop variables of the incremental push loop: the running `docs_written` total and the last status. */
  datatype PushCarry = PushCarry(docsWritten: Json, last: Option<Status>)

  /** How a push attempt that produced status `s` goes on, once its cancel request (if any) has arrived. */
  function SettlePush(e: Engine, cancelAfter: bool, s: Status, c: PushCarry): Attempt<PushEnd, PushCarry> {
    var e2 := Cancel(e, cancelAfter);
    if PushSucceeded(s) then
      Ended(e2.(vars := e2.vars[PushSeqKey := JsonValue(Get(InfoOf(s), "last_seq"))]),
            Finished(PushEnd(c.docsWritten, Some(s["hadPushSuccess" := Bool(true)]), true)))
    else
      var c' := PushCarry(Add(c.docsWritten, Get(InfoOf(s), "docs_written")), Some(s));
      if PushErrored(s) then Again(e2.(sleeps := e2.sleeps + 1, retryCount := e2.retryCount + 1), c')
      else Again(e2.(retryCount := e2.retryCount + 1), c')
  }

  /** Attempt `i` of the incremental push loop. */
  function PushStep(e: Engine, inp: SyncInputs, usePouch: bool, i: nat, c: PushCarry): Attempt<PushEnd, PushCarry>
    requires i < |inp.pushScript|
  {
    var a := inp.pushScript[i];
    match PushStatus(a.result, PushSince(e), e.retryCount, inp.tr)
    case None => Ended(StartPush(e, usePouch), Threw)
    case Some(s) => SettlePush(StartPush(e, usePouch), a.cancelAfter, s, c)
  }

  /** The incremental push loop, from attempt `i` with the loop variables given. */
  function PushLoop(e: Engine, inp: SyncInputs, usePouch: bool, i: nat, c: PushCarry): (Engine, LoopStatus<PushEnd>)
    decreases |inp.pushScript| - i
  {
    if e.cancelling then (e, Finished(PushEnd(c.docsWritten, c.last, false)))
    else if i >= |inp.pushScript| then (e, Exhausted)
    else
      match PushStep(e, inp, usePouch, i, c)
      case Ended(e', l) => (e', l)
      case Again(e', c') => PushLoop(e', inp, usePouch, i + 1, c')
  }

  /**
   * `pushReplicationStatus.info.docs_written = docs_written` and `pushed`:
   * None when the assignment throws (no status, or an `info` that is the
   * empty string left by a failed attempt, a primitive in strict mode).
   */
  function RecordPushTotal(last: Option<Status>, docsWritten: Json): Option<Status> {
    if last.None? then None
    else
      var info := InfoOf(last.value);
      if info.Obj? then
        Some(last.value["info" := Obj(ObjSet(info.fields, "docs_written", docsWritten))]["pushed" := docsWritten])
      else None
  }

  /** Where a phase of `sync()` leaves the call: continuing with its locals, or settled. */
  datatype Stage = Next(rs: Option<Status>, pushStatus: Option<Status>, hadPushSuccess: bool) | Stop(outcome: SyncOutcome)

  function OutcomeOf<T>(l: LoopStatus<T>): SyncOutcome {
    if l.Threw? then Rejected else StillRetrying
  }

  /** The push phase: skipped on a first sync, otherwise the incremental push loop and its total. */
  function PushPhase(e: Engine, inp: SyncInputs, usePouch: bool): (Engine, Stage) {
    if inp.isFirstSync then (e, Next(None, None, false))
    else
      var (e1, l) := PushLoop(e, inp, usePouch, 0, PushCarry(Num(0), None));
      if !l.Finished? then (e1, Stop(OutcomeOf(l)))
      else
        match RecordPushTotal(l.value.last, l.value.docsWritten)
        case None => (e1, Stop(Rejected))
        case Some(s) => (e1, Next(Some(Merge(None, Some(s))), Some(s), l.value.success))
  }

  /** How a push attempt after a location change that produced status `s` goes on. */
  function SettleForcedPush(e: Engine, cancelAfter: bool, s: Status): Attempt<Option<Status>, Option<Status>> {
    var e2 := Cancel(e, cancelAfter);
    if !Truthy(StatusGet(s, "pushError")) then Ended(e2, Finished(Some(s["hadPushSuccess" := Bool(true)])))
    else Again(e2.(sleeps := e2.sleeps + 1, retryCount := e2.retryCount + 1), Some(s))
  }

  /** Attempt `i` of the push loop run after a location change. */
  function ForcedPushStep(e: Engine, inp: SyncInputs, usePouch: bool, i: nat): Attempt<Option<Status>, Option<Status>>
    requires i < |inp.forcedPushScript|
  {
    var a := inp.forcedPushScript[i];
    match PushStatus(a.result, PushSince(e), e.retryCount, inp.tr)
    case None => Ended(StartPush(e, usePouch), Threw)
    case Some(s) => SettleForcedPush(StartPush(e, usePouch), a.cancelAfter, s)
  }

  /** One turn of the push loop: an attempt either ends it or hands on to the next. */
  lemma PushLoopTurn(e: Engine, inp: SyncInputs, usePouch: bool, i: nat, c: PushCarry)
    requires !e.cancelling && i < |inp.pushScript|
    ensures var r := PushStep(e, inp, usePouch, i, c);
            && (r.Ended? ==> PushLoop(e, inp, usePouch, i, c) == (r.after, r.result))
            && (r.Again? ==> PushLoop(e, inp, usePouch, i, c) == PushLoop(r.after, inp, usePouch, i + 1, r.carry))
  {
  }

  /** The push loop run after a location change, which re-enters only while no push has succeeded. */
  function ForcedPushLoop(e: Engine, inp: SyncInputs, usePouch: bool, i: nat, hadPushSuccess: bool, last: Option<Status>)
    : (Engine, LoopStatus<Option<Status>>)
    decreases |inp.forcedPushScript| - i
  {
    if hadPushSuccess || e.cancelling then (e, Finished(last))
    else if i >= |inp.forcedPushScript| then (e, Exhausted)
    else
      match ForcedPushStep(e, inp, usePouch, i)
      case Ended(e', l) => (e', l)
      case Again(e', last') => ForcedPushLoop(e', inp, usePouch, i + 1, false, last')
  }

  /** One turn of the forced push loop. */
  lemma ForcedPushLoopTurn(e: Engine, inp: SyncInputs, usePouch: bool, i: nat, last: Option<Status>)
    requires !e.cancelling && i < |inp.forcedPushScript|
    ensures var r := ForcedPushStep(e, inp, usePouch, i);
            && (r.Ended? ==> ForcedPushLoop(e, inp, usePouch, i, false, last) == (r.after, r.result))
            && (r.Again? ==> ForcedPushLoop(e, inp, usePouch, i, false, last)
                               == ForcedPushLoop(r.after, inp, usePouch, i + 1, false, r.carry))
  {
  }

  /** Whether the device's sync locations changed, None when the comparison throws. */
  function LocationsChanged(vars: map<string, Stored>, locs: seq<LocationConfig>): Option<bool> {
    var previous := PreviousLocations(vars);
    if previous.Some? then ConfigsDontMatch(locs, previous.value) else Some(true)
  }

  /**
   * After a location change on a device that synced before: a push from
   * sequence 0 (skipped when the incremental push succeeded), then the
   * reinstall of the shared user database, the new locations stored and the
   * pull checkpoint reset to 0.
   */
  function LocationsChangedPhase(e: Engine, inp: SyncInputs, locs: seq<LocationConfig>, usePouch: bool, st: Stage)
    : (Engine, Stage)
    requires st.Next?
  {
    var (e1, l) := ForcedPushLoop(e.(fullSync := Some(Push), retryCount := 1), inp, usePouch, 0, st.hadPushSuccess, st.pushStatus);
    if !l.Finished? then (e1, Stop(OutcomeOf(l)))
    else
      var e2 := e1.(reinstalls := e1.reinstalls + 1,
                    vars := e1.vars[PreviousLocationsKey := LocationsValue(locs)][PullSeqKey := JsonValue(Num(0))]);
      (e2, Next(Some(Merge(st.rs, l.value)), l.value, true))
  }

  /** Sync-location change detection and its consequences. */
  function LocationPhase(e: Engine, inp: SyncInputs, locs: seq<LocationConfig>, usePouch: bool, st: Stage): (Engine, Stage)
    requires st.Next?
  {
    match LocationsChanged(e.vars, locs)
    case None => (e, Stop(Rejected))
    case Some(changed) =>
      if !inp.isFirstSync && changed then LocationsChangedPhase(e, inp, locs, usePouch, st)
      else if inp.isFirstSync then
        (e.(vars := e.vars[PreviousLocationsKey := LocationsValue(locs)]), st)
      else (e, st)
  }

  /** The store after `_pull`'s `change` events, each of which records its `last_seq`. */
  function ApplyChanges(vars: map<string, Stored>, changes: seq<Json>): map<string, Stored>
    decreases |changes|
  {
    if changes == [] then vars else ApplyChanges(vars[PullSeqKey := JsonValue(changes[0])], changes[1..])
  }

  /** Starting one pull replication: the run is recorded and its change events are applied. */
  function StartPull(e: Engine, options: ReplicationOptions, r: PullResult): Engine {
    e.(runs := e.runs + [PullRun(if e.pullSyncOptions.Some? then e.pullSyncOptions.value else options)],
       vars := ApplyChanges(e.vars, r.Changes()))
  }

  /** The sequence `pull()` starts from. */
  function PullSince(e: Engine, prePull: Json): Json {
    if prePull.Undefined? || e.fullSync == Some(Pull) then Num(0) else prePull
  }

  /** The catch branch of the pull loop: the local latest sequence becomes the push checkpoint. */
  function PullThrew(e: Engine, a: PullAttempt): Engine {
    e.(vars := e.vars[PushSeqKey := JsonValue(a.localLastSeq)], sleeps := e.sleeps + 1)
  }

  /**
   * How a pull-loop attempt goes on once its replication ran and its cancel
   * request arrived, from the status `pull()` returned (None: it threw).
   */
  function SettlePull(e: Engine, a: PullAttempt, st: Option<Status>, last: Option<Status>): Attempt<Option<Status>, Option<Status>> {
    var e1 := Cancel(e, a.cancelAfter);
    match st
    case None => Again(PullThrew(e1, a), last)
    case Some(s) =>
      if PullSucceeded(s) then
        Ended(e1.(vars := e1.vars[PullSeqKey := JsonValue(Get(InfoOf(s), "last_seq"))]),
              Finished(Some(s["hadPullSuccess" := Bool(true)])))
      else Again(e1.(sleeps := e1.sleeps + 1, retryCount := e1.retryCount + 1), Some(s))
  }

  /** Attempt `i` of the pull loop. */
  function PullStep(e: Engine, inp: SyncInputs, locs: seq<LocationConfig>, usePouch: bool, prePull: Json, i: nat,
                    last: Option<Status>): Attempt<Option<Status>, Option<Status>>
    requires i < |inp.pullScript|
  {
    var a := inp.pullScript[i];
    var selector := GetPullSelector(inp.details.formInfos, locs, inp.details.deviceId,
                                    inp.details.disableDeviceUserFilteringByAssignment);
    if selector.None? then Again(Cancel(PullThrew(e, a), a.cancelAfter), last)
    else
      var since := PullSince(e, prePull);
      var options := PullOptions(usePouch, since, e.batchSize, e.writeBatchSize, e.changesBatchSize, selector, None);
      SettlePull(StartPull(e, options, a.result), a, PullStatus(a.result, since, e.retryCount, e.batchSize, inp.tr), last)
  }

  /** The pull loop, from attempt `i`. */
  function PullLoop(e: Engine, inp: SyncInputs, locs: seq<LocationConfig>, usePouch: bool, prePull: Json, i: nat,
                    last: Option<Status>): (Engine, LoopStatus<Option<Status>>)
    decreases |inp.pullScript| - i
  {
    if e.cancelling then (e, Finished(last))
    else if i >= |inp.pullScript| then (e, Exhausted)
    else
      match PullStep(e, inp, locs, usePouch, prePull, i, last)
      case Ended(e', l) => (e', l)
      case Again(e', last') => PullLoop(e', inp, locs, usePouch, prePull, i + 1, last')
  }

  /** One turn of the pull loop. */
  lemma PullLoopTurn(e: Engine, inp: SyncInputs, locs: seq<LocationConfig>, usePouch: bool, prePull: Json, i: nat,
                     last: Option<Status>)
    requires !e.cancelling && i < |inp.pullScript|
    ensures var r := PullStep(e, inp, locs, usePouch, prePull, i, last);
            && (r.Ended? ==> PullLoop(e, inp, locs, usePouch, prePull, i, last) == (r.after, r.result))
            && (r.Again? ==> PullLoop(e, inp, locs, usePouch, prePull, i, last)
                               == PullLoop(r.after, inp, locs, usePouch, prePull, i + 1, r.carry))
  {
  }

  /** The sequence `pullFormResponses()` records: the stored pull checkpoint when none was read before, or on a full pull. */
  function IssueSince(e: Engine, prePull: Json): Json {
    if prePull.Undefined? || e.fullSync == Some(Pull) then SeqVar(e.vars, PullSeqKey) else prePull
  }

  /** How an attempt of the assigned-documents loop goes on, from the status `pullFormResponses()` returned. */
  function SettleIssue(e: Engine, cancelAfter: bool, st: Option<Status>, last: Option<Status>)
    : Attempt<Option<Status>, Option<Status>>
  {
    var e1 := Cancel(e, cancelAfter);
    match st
    case None => Again(e1.(sleeps := e1.sleeps + 1), last)
    case Some(s) =>
      if PullSucceeded(s) then Ended(e1, Finished(Some(s["hadPullSuccess" := Bool(true)])))
      else Again(e1.(sleeps := e1.sleeps + 1, retryCount := e1.retryCount + 1), Some(s))
  }

  /** Attempt `i` of the loop pulling the documents assigned to the device. */
  function IssueStep(e: Engine, inp: SyncInputs, usePouch: bool, prePull: Json, ids: seq<string>, i: nat,
                     last: Option<Status>): Attempt<Option<Status>, Option<Status>>
    requires i < |inp.issueScript|
  {
    var a := inp.issueScript[i];
    var since := IssueSince(e, prePull);
    var options := PullOptions(usePouch, since, e.batchSize, e.writeBatchSize, e.changesBatchSize, None, Some(ids));
    SettleIssue(StartPull(e, options, a.result), a.cancelAfter, PullStatus(a.result, since, e.retryCount, e.batchSize, inp.tr), last)
  }

  /** The loop pulling the documents assigned to the device, from attempt `i`. */
  function IssueLoop(e: Engine, inp: SyncInputs, usePouch: bool, prePull: Json, ids: seq<string>, i: nat,
                     last: Option<Status>): (Engine, LoopStatus<Option<Status>>)
    decreases |inp.issueScript| - i
  {
    if e.cancelling then (e, Finished(last))
    else if i >= |inp.issueScript| then (e, Exhausted)
    else
      match IssueStep(e, inp, usePouch, prePull, ids, i, last)
      case Ended(e', l) => (e', l)
      case Again(e', last') => IssueLoop(e', inp, usePouch, prePull, ids, i + 1, last')
  }

  /** One turn of the assigned-documents loop: an attempt either ends it or hands on to the next. */
  lemma IssueLoopTurn(e: Engine, inp: SyncInputs, usePouch: bool, prePull: Json, ids: seq<string>, i: nat,
                      last: Option<Status>)
    requires !e.cancelling && i < |inp.issueScript|
    ensures var r := IssueStep(e, inp, usePouch, prePull, ids, i, last);
            && (r.Ended? ==> IssueLoop(e, inp, usePouch, prePull, ids, i, last) == (r.after, r.result))
            && (r.Again? ==> IssueLoop(e, inp, usePouch, prePull, ids, i, last)
                               == IssueLoop(r.after, inp, usePouch, prePull, ids, i + 1, r.carry))
  {
  }

  /** The pull loop and the assigned-documents loop, after the location phase. */
  function PullPhases(e: Engine, inp: SyncInputs, locs: seq<LocationConfig>, usePouch: bool, rs: Option<Status>)
    : (Engine, SyncOutcome)
  {
    var e1 := e.(retryCount := 1);
    var prePull := SeqVar(e1.vars, PullSeqKey);
    var (e2, pl) := PullLoop(e1, inp, locs, usePouch, prePull, 0, None);
    if !pl.Finished? then (e2, OutcomeOf(pl))
    else
      var rs2 := Some(Merge(rs, pl.value));
      var (e3, il) := IssueLoop(e2, inp, usePouch, prePull, inp.assignedIds.GetOr([]), 0, None);
      if !il.Finished? then (e3, OutcomeOf(il))
      else
        var rs3 := Merge(rs2, il.value);
        if e3.cancelling then (FinishCancelling(e3, Some(rs3)), Resolved(Some(rs3)))
        else (e3, Resolved(Some(rs3)))
  }

  /** `sync()` after the push phase: the location phase, then the pull phases. */
  function SyncAfterPush(e: Engine, inp: SyncInputs, locs: seq<LocationConfig>, usePouch: bool, st: Stage)
    : (Engine, SyncOutcome)
    requires st.Next?
  {
    var (e1, st1) := LocationPhase(e, inp, locs, usePouch, st);
    if st1.Stop? then (e1, st1.outcome)
    else PullPhases(e1, inp, locs, usePouch, st1.rs)
  }

  /** `sync()` once the sync session is established, with the device's sync locations. */
  function SyncAfterSession(e: Engine, inp: SyncInputs, locs: seq<LocationConfig>, usePouch: bool): (Engine, SyncOutcome) {
    if e.cancelling then (FinishCancelling(e, None), Resolved(None))
    else
      var (e1, st) := PushPhase(e.(retryCount := 1), inp, usePouch);
      if st.Stop? then (e1, st.outcome)
      else if e1.cancelling then (FinishCancelling(e1, st.rs), Resolved(st.rs))
      else SyncAfterPush(e1, inp, locs, usePouch, st)
  }

  /** One call of `sync()`: the engine afterwards and what the call settles with. */
  function Sync(e: Engine, inp: SyncInputs): (Engine, SyncOutcome) {
    var e1 := Configure(e, inp);
    var usePouch := UsePouchDbTracking(e1, inp);
    if inp.session.None? then (e1, Resolved(Some(SessionFailedStatus(inp.tr))))
    else SyncAfterSession(Cancel(e1, inp.cancelDuringSession), inp, inp.session.value, usePouch)
  }
}
