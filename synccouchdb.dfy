/**
 * `SyncCouchdbService`: the client sync engine as an object whose methods
 * update its fields step by step, each proved to do what the
 * specification in `SyncEngine` says.
 */
module SyncCouchdb {
  import opened Wrappers
  import opened JsonValues
  import opened SyncLocations
  import opened PullSelector
  import opened Replication
  import opened SyncEngine

  class SyncCouchdbService {
    var cancelling: bool
    var fullSync: Option<SyncDirection>
    var batchSize: int
    var writeBatchSize: int
    var changesBatchSize: int
    var retryCount: int
    var pushSyncOptions: Option<ReplicationOptions>
    var pullSyncOptions: Option<ReplicationOptions>
    /** The durable variable store (`VariableService`). */
    var vars: map<string, Stored>
    /** The statuses emitted on `onCancelled$`. */
    var cancelled: seq<Status>
    /** The replications started, in order. */
    var runs: seq<ReplicationRun>
    /** How many retry delays were slept. */
    var sleeps: nat
    /** How many times the shared user database was reinstalled. */
    var reinstalls: nat

    function State(): Engine
      reads this
    {
      Engine(cancelling, fullSync, batchSize, writeBatchSize, changesBatchSize, retryCount, pushSyncOptions,
             pullSyncOptions, vars, cancelled, runs, sleeps, reinstalls)
    }

    /** A new service; `retryCount` is undefined in the source until `sync()` sets it, here 0. */
    constructor (store: map<string, Stored>)
      ensures State() == Engine(false, None, 200, 50, 25, 0, None, None, store, [], [], 0, 0)
    {
      cancelling := false;
      fullSync := None;
      batchSize := 200;
      writeBatchSize := 50;
      changesBatchSize := 25;
      retryCount := 0;
      pushSyncOptions := None;
      pullSyncOptions := None;
      vars := store;
      cancelled := [];
      runs := [];
      sleeps := 0;
      reinstalls := 0;
    }

    /** `cancel()`: only the flag changes; the running `sync()` looks at it between steps. */
    method Cancel()
      modifies this
      ensures State() == old(State()).(cancelling := true)
    {
      cancelling := true;
    }

    /** `finishCancelling(status)`. */
    method FinishCancelling(rs: Option<Status>)
      modifies this
      ensures State() == SyncEngine.FinishCancelling(old(State()), rs)
      ensures !cancelling && cancelled == old(cancelled) + [Merge(rs, None)["cancelled" := Bool(true)]]
    {
      cancelling := false;
      cancelled := cancelled + [Merge(rs, None)["cancelled" := Bool(true)]];
    }

    /** Starts one push replication: the run is recorded with its options. */
    method StartPush(usePouch: bool)
      modifies this
      ensures State() == SyncEngine.StartPush(old(State()), usePouch)
    {
      runs := runs + [PushRun(PushRunOptions(State(), usePouch))];
    }

    /** The push loop's reaction to the status of one attempt. */
    method SettlePush(cancelAfter: bool, s: Status, c: PushCarry) returns (stop: Option<LoopStatus<PushEnd>>, c': PushCarry)
      modifies this
      ensures var r := SyncEngine.SettlePush(old(State()), cancelAfter, s, c);
              && State() == r.after
              && (stop.Some? <==> r.Ended?)
              && (r.Ended? ==> stop.value == r.result)
              && (r.Again? ==> c' == r.carry)
    {
      cancelling := cancelling || cancelAfter;
      if PushSucceeded(s) {
        vars := vars[PushSeqKey := JsonValue(Get(InfoOf(s), "last_seq"))];
        return Some(Finished(PushEnd(c.docsWritten, Some(s["hadPushSuccess" := Bool(true)]), true))), c;
      }
      if PushErrored(s) {
        sleeps := sleeps + 1;
      }
      retryCount := retryCount + 1;
      return None, PushCarry(Add(c.docsWritten, Get(InfoOf(s), "docs_written")), Some(s));
    }

    /** One attempt of the incremental push loop; `stop` is how the loop ends at this attempt, if it does. */
    method PushStep(inp: SyncInputs, usePouch: bool, i: nat, c: PushCarry)
      returns (stop: Option<LoopStatus<PushEnd>>, c': PushCarry)
      requires i < |inp.pushScript|
      modifies this
      ensures var r := SyncEngine.PushStep(old(State()), inp, usePouch, i, c);
              && State() == r.after
              && (stop.Some? <==> r.Ended?)
              && (r.Ended? ==> stop.value == r.result)
              && (r.Again? ==> c' == r.carry)
    {
      var a := inp.pushScript[i];
      var st := PushStatus(a.result, PushSince(State()), retryCount, inp.tr);
      StartPush(usePouch);
      if st.None? {
        stop, c' := Some(Threw), c;
      } else {
        stop, c' := SettlePush(a.cancelAfter, st.value, c);
      }
    }

    /** One attempt of the incremental push loop, as a turn of that loop. */
    method PushTurn(inp: SyncInputs, usePouch: bool, i: nat, c: PushCarry,
                    ghost target: (Engine, LoopStatus<PushEnd>))
      returns (stop: Option<LoopStatus<PushEnd>>, c': PushCarry)
      requires !cancelling && i < |inp.pushScript|
      requires SyncEngine.PushLoop(State(), inp, usePouch, i, c) == target
      modifies this
      ensures stop.Some? ==> State() == target.0 && stop.value == target.1
      ensures stop.None? ==> SyncEngine.PushLoop(State(), inp, usePouch, i + 1, c') == target
    {
      PushLoopTurn(State(), inp, usePouch, i, c);
      stop, c' := PushStep(inp, usePouch, i, c);
    }

    /** The incremental push loop of `sync()`. */
    method PushLoop(inp: SyncInputs, usePouch: bool) returns (l: LoopStatus<PushEnd>)
      modifies this
      ensures State() == SyncEngine.PushLoop(old(State()), inp, usePouch, 0, PushCarry(Num(0), None)).0
      ensures l == SyncEngine.PushLoop(old(State()), inp, usePouch, 0, PushCarry(Num(0), None)).1
    {
      ghost var target := SyncEngine.PushLoop(State(), inp, usePouch, 0, PushCarry(Num(0), None));
      var i: nat := 0;
      var c := PushCarry(Num(0), None);
      var stop: Option<LoopStatus<PushEnd>> := None;
      while stop.None? && !cancelling && i < |inp.pushScript|
        invariant i <= |inp.pushScript|
        invariant stop.None? ==> SyncEngine.PushLoop(State(), inp, usePouch, i, c) == target
        invariant stop.Some? ==> State() == target.0 && stop.value == target.1
        decreases |inp.pushScript| - i
      {
        stop, c := PushTurn(inp, usePouch, i, c, target);
        i := i + 1;
      }
      if stop.Some? {
        l := stop.value;
      } else if cancelling {
        l := Finished(PushEnd(c.docsWritten, c.last, false));
      } else {
        l := Exhausted;
      }
    }

    /** The reaction of the push loop run after a location change to the status of one attempt. */
    method SettleForcedPush(cancelAfter: bool, s: Status) returns (stop: Option<LoopStatus<Option<Status>>>, last': Option<Status>)
      modifies this
      ensures var r := SyncEngine.SettleForcedPush(old(State()), cancelAfter, s);
              && State() == r.after
              && (stop.Some? <==> r.Ended?)
              && (r.Ended? ==> stop.value == r.result)
              && (r.Again? ==> last' == r.carry)
    {
      cancelling := cancelling || cancelAfter;
      if !Truthy(StatusGet(s, "pushError")) {
        return Some(Finished(Some(s["hadPushSuccess" := Bool(true)]))), None;
      }
      sleeps := sleeps + 1;
      retryCount := retryCount + 1;
      return None, Some(s);
    }

    /** One attempt of the push loop run when the sync locations changed. */
    method ForcedPushStep(inp: SyncInputs, usePouch: bool, i: nat, last: Option<Status>)
      returns (stop: Option<LoopStatus<Option<Status>>>, last': Option<Status>)
      requires i < |inp.forcedPushScript|
      modifies this
      ensures var r := SyncEngine.ForcedPushStep(old(State()), inp, usePouch, i);
              && State() == r.after
              && (stop.Some? <==> r.Ended?)
              && (r.Ended? ==> stop.value == r.result)
              && (r.Again? ==> last' == r.carry)
    {
      var a := inp.forcedPushScript[i];
      var st := PushStatus(a.result, PushSince(State()), retryCount, inp.tr);
      StartPush(usePouch);
      if st.None? {
        stop, last' := Some(Threw), last;
      } else {
        stop, last' := SettleForcedPush(a.cancelAfter, st.value);
      }
    }

    /** One attempt of the forced push loop, as a turn of that loop. */
    method ForcedPushTurn(inp: SyncInputs, usePouch: bool, i: nat, last: Option<Status>,
                          ghost target: (Engine, LoopStatus<Option<Status>>))
      returns (stop: Option<LoopStatus<Option<Status>>>, last': Option<Status>)
      requires !cancelling && i < |inp.forcedPushScript|
      requires SyncEngine.ForcedPushLoop(State(), inp, usePouch, i, false, last) == target
      modifies this
      ensures stop.Some? ==> State() == target.0 && stop.value == target.1
      ensures stop.None? ==> SyncEngine.ForcedPushLoop(State(), inp, usePouch, i + 1, false, last') == target
    {
      ForcedPushLoopTurn(State(), inp, usePouch, i, last);
      stop, last' := ForcedPushStep(inp, usePouch, i, last);
    }

    /** The push loop run when the sync locations changed; it starts only while no push has succeeded. */
    method ForcedPushLoop(inp: SyncInputs, usePouch: bool, hadPushSuccess: bool, last0: Option<Status>)
      returns (l: LoopStatus<Option<Status>>)
      modifies this
      ensures State() == SyncEngine.ForcedPushLoop(old(State()), inp, usePouch, 0, hadPushSuccess, last0).0
      ensures l == SyncEngine.ForcedPushLoop(old(State()), inp, usePouch, 0, hadPushSuccess, last0).1
    {
      if hadPushSuccess {
        return Finished(last0);
      }
      ghost var target := SyncEngine.ForcedPushLoop(State(), inp, usePouch, 0, false, last0);
      var i: nat := 0;
      var last := last0;
      var stop: Option<LoopStatus<Option<Status>>> := None;
      while stop.None? && !cancelling && i < |inp.forcedPushScript|
        invariant i <= |inp.forcedPushScript|
        invariant stop.None? ==> SyncEngine.ForcedPushLoop(State(), inp, usePouch, i, false, last) == target
        invariant stop.Some? ==> State() == target.0 && stop.value == target.1
        decreases |inp.forcedPushScript| - i
      {
        stop, last := ForcedPushTurn(inp, usePouch, i, last, target);
        i := i + 1;
      }
      if stop.Some? {
        l := stop.value;
      } else if cancelling {
        l := Finished(last);
      } else {
        l := Exhausted;
      }
    }

    /** Records the change events of a pull replication, one at a time. */
    method ApplyChanges(changes: seq<Json>)
      modifies this
      ensures State() == old(State()).(vars := SyncEngine.ApplyChanges(old(vars), changes))
    {
      var j := 0;
      while j < |changes|
        invariant 0 <= j <= |changes|
        invariant State() == old(State()).(vars := vars)
        invariant SyncEngine.ApplyChanges(vars, changes[j..]) == SyncEngine.ApplyChanges(old(vars), changes)
      {
        assert changes[j..][1..] == changes[j + 1..];
        vars := vars[PullSeqKey := JsonValue(changes[j])];
        j := j + 1;
      }
    }

    /** Starts one pull replication: records the run, then its change events. */
    method StartPull(options: ReplicationOptions, r: PullResult)
      modifies this
      ensures State() == SyncEngine.StartPull(old(State()), options, r)
    {
      runs := runs + [PullRun(if pullSyncOptions.Some? then pullSyncOptions.value else options)];
      ApplyChanges(r.Changes());
    }

    /** The pull loop's reaction to what `pull()` returned (None: it threw). */
    method SettlePull(a: PullAttempt, st: Option<Status>, last: Option<Status>)
      returns (stop: Option<LoopStatus<Option<Status>>>, last': Option<Status>)
      modifies this
      ensures var r := SyncEngine.SettlePull(old(State()), a, st, last);
              && State() == r.after
              && (stop.Some? <==> r.Ended?)
              && (r.Ended? ==> stop.value == r.result)
              && (r.Again? ==> last' == r.carry)
    {
      cancelling := cancelling || a.cancelAfter;
      if st.None? {
        vars := vars[PushSeqKey := JsonValue(a.localLastSeq)];
        sleeps := sleeps + 1;
        return None, last;
      }
      if PullSucceeded(st.value) {
        vars := vars[PullSeqKey := JsonValue(Get(InfoOf(st.value), "last_seq"))];
        return Some(Finished(Some(st.value["hadPullSuccess" := Bool(true)]))), last;
      }
      sleeps := sleeps + 1;
      retryCount := retryCount + 1;
      return None, st;
    }

    /** One attempt of the pull loop. */
    method PullStep(inp: SyncInputs, locs: seq<LocationConfig>, usePouch: bool, prePull: Json, i: nat,
                    last: Option<Status>)
      returns (stop: Option<LoopStatus<Option<Status>>>, last': Option<Status>)
      requires i < |inp.pullScript|
      modifies this
      ensures var r := SyncEngine.PullStep(old(State()), inp, locs, usePouch, prePull, i, last);
              && State() == r.after
              && (stop.Some? <==> r.Ended?)
              && (r.Ended? ==> stop.value == r.result)
              && (r.Again? ==> last' == r.carry)
    {
      var a := inp.pullScript[i];
      var selector := GetPullSelector(inp.details.formInfos, locs, inp.details.deviceId,
                                      inp.details.disableDeviceUserFilteringByAssignment);
      if selector.None? {
        vars := vars[PushSeqKey := JsonValue(a.localLastSeq)];
        sleeps := sleeps + 1;
        cancelling := cancelling || a.cancelAfter;
        return None, last;
      }
      var since := PullSince(State(), prePull);
      var options := PullOptions(usePouch, since, batchSize, writeBatchSize, changesBatchSize, selector, None);
      var st := PullStatus(a.result, since, retryCount, batchSize, inp.tr);
      StartPull(options, a.result);
      stop, last' := SettlePull(a, st, last);
    }

    /** One attempt of the pull loop, as a turn of that loop. */
    method PullTurn(inp: SyncInputs, locs: seq<LocationConfig>, usePouch: bool, prePull: Json, i: nat, last: Option<Status>,
                    ghost target: (Engine, LoopStatus<Option<Status>>))
      returns (stop: Option<LoopStatus<Option<Status>>>, last': Option<Status>)
      requires !cancelling && i < |inp.pullScript|
      requires SyncEngine.PullLoop(State(), inp, locs, usePouch, prePull, i, last) == target
      modifies this
      ensures stop.Some? ==> State() == target.0 && stop.value == target.1
      ensures stop.None? ==> SyncEngine.PullLoop(State(), inp, locs, usePouch, prePull, i + 1, last') == target
    {
      PullLoopTurn(State(), inp, locs, usePouch, prePull, i, last);
      stop, last' := PullStep(inp, locs, usePouch, prePull, i, last);
    }

    /** The pull loop of `sync()`. */
    method PullLoop(inp: SyncInputs, locs: seq<LocationConfig>, usePouch: bool, prePull: Json)
      returns (l: LoopStatus<Option<Status>>)
      modifies this
      ensures State() == SyncEngine.PullLoop(old(State()), inp, locs, usePouch, prePull, 0, None).0
      ensures l == SyncEngine.PullLoop(old(State()), inp, locs, usePouch, prePull, 0, None).1
    {
      ghost var target := SyncEngine.PullLoop(State(), inp, locs, usePouch, prePull, 0, None);
      var i: nat := 0;
      var last: Option<Status> := None;
      var stop: Option<LoopStatus<Option<Status>>> := None;
      while stop.None? && !cancelling && i < |inp.pullScript|
        invariant i <= |inp.pullScript|
        invariant stop.None? ==> SyncEngine.PullLoop(State(), inp, locs, usePouch, prePull, i, last) == target
        invariant stop.Some? ==> State() == target.0 && stop.value == target.1
        decreases |inp.pullScript| - i
      {
        stop, last := PullTurn(inp, locs, usePouch, prePull, i, last, target);
        i := i + 1;
      }
      if stop.Some? {
        l := stop.value;
      } else if cancelling {
        l := Finished(last);
      } else {
        l := Exhausted;
      }
    }

    /** The assigned-documents loop's reaction to what `pullFormResponses()` returned (None: it threw). */
    method SettleIssue(cancelAfter: bool, st: Option<Status>, last: Option<Status>)
      returns (stop: Option<LoopStatus<Option<Status>>>, last': Option<Status>)
      modifies this
      ensures var r := SyncEngine.SettleIssue(old(State()), cancelAfter, st, last);
              && State() == r.after
              && (stop.Some? <==> r.Ended?)
              && (r.Ended? ==> stop.value == r.result)
              && (r.Again? ==> last' == r.carry)
    {
      cancelling := cancelling || cancelAfter;
      if st.None? {
        sleeps := sleeps + 1;
        return None, last;
      }
      if PullSucceeded(st.value) {
        return Some(Finished(Some(st.value["hadPullSuccess" := Bool(true)]))), last;
      }
      sleeps := sleeps + 1;
      retryCount := retryCount + 1;
      return None, st;
    }

    /** One attempt of the loop pulling the documents assigned to the device. */
    method IssueStep(inp: SyncInputs, usePouch: bool, prePull: Json, ids: seq<string>, i: nat, last: Option<Status>)
      returns (stop: Option<LoopStatus<Option<Status>>>, last': Option<Status>)
      requires i < |inp.issueScript|
      modifies this
      ensures var r := SyncEngine.IssueStep(old(State()), inp, usePouch, prePull, ids, i, last);
              && State() == r.after
              && (stop.Some? <==> r.Ended?)
              && (r.Ended? ==> stop.value == r.result)
              && (r.Again? ==> last' == r.carry)
    {
      var a := inp.issueScript[i];
      var since := IssueSince(State(), prePull);
      var options := PullOptions(usePouch, since, batchSize, writeBatchSize, changesBatchSize, None, Some(ids));
      var st := PullStatus(a.result, since, retryCount, batchSize, inp.tr);
      StartPull(options, a.result);
      stop, last' := SettleIssue(a.cancelAfter, st, last);
    }

    /** One attempt of the assigned-documents loop, as a turn of that loop. */
    method IssueTurn(inp: SyncInputs, usePouch: bool, prePull: Json, ids: seq<string>, i: nat, last: Option<Status>,
                     ghost target: (Engine, LoopStatus<Option<Status>>))
      returns (stop: Option<LoopStatus<Option<Status>>>, last': Option<Status>)
      requires !cancelling && i < |inp.issueScript|
      requires SyncEngine.IssueLoop(State(), inp, usePouch, prePull, ids, i, last) == target
      modifies this
      ensures stop.Some? ==> State() == target.0 && stop.value == target.1
      ensures stop.None? ==> SyncEngine.IssueLoop(State(), inp, usePouch, prePull, ids, i + 1, last') == target
    {
      IssueLoopTurn(State(), inp, usePouch, prePull, ids, i, last);
      stop, last' := IssueStep(inp, usePouch, prePull, ids, i, last);
    }

    /** The loop pulling the documents assigned to the device. */
    method IssueLoop(inp: SyncInputs, usePouch: bool, prePull: Json, ids: seq<string>)
      returns (l: LoopStatus<Option<Status>>)
      modifies this
      ensures State() == SyncEngine.IssueLoop(old(State()), inp, usePouch, prePull, ids, 0, None).0
      ensures l == SyncEngine.IssueLoop(old(State()), inp, usePouch, prePull, ids, 0, None).1
    {
      ghost var target := SyncEngine.IssueLoop(State(), inp, usePouch, prePull, ids, 0, None);
      var i: nat := 0;
      var last: Option<Status> := None;
      var stop: Option<LoopStatus<Option<Status>>> := None;
      while stop.None? && !cancelling && i < |inp.issueScript|
        invariant i <= |inp.issueScript|
        invariant stop.None? ==> SyncEngine.IssueLoop(State(), inp, usePouch, prePull, ids, i, last) == target
        invariant stop.Some? ==> State() == target.0 && stop.value == target.1
        decreases |inp.issueScript| - i
      {
        stop, last := IssueTurn(inp, usePouch, prePull, ids, i, last, target);
        i := i + 1;
      }
      if stop.Some? {
        l := stop.value;
      } else if cancelling {
        l := Finished(last);
      } else {
        l := Exhausted;
      }
    }

    /** The two pull loops and the final cancellation check. */
    method PullPhases(inp: SyncInputs, locs: seq<LocationConfig>, usePouch: bool, rs: Option<Status>)
      returns (outcome: SyncOutcome)
      modifies this
      ensures State() == SyncEngine.PullPhases(old(State()), inp, locs, usePouch, rs).0
      ensures outcome == SyncEngine.PullPhases(old(State()), inp, locs, usePouch, rs).1
    {
      retryCount := 1;
      var prePull := SeqVar(vars, PullSeqKey);
      var pl := PullLoop(inp, locs, usePouch, prePull);
      if !pl.Finished? {
        return OutcomeOf(pl);
      }
      var rs2 := Some(Merge(rs, pl.value));
      var il := IssueLoop(inp, usePouch, prePull, inp.assignedIds.GetOr([]));
      if !il.Finished? {
        return OutcomeOf(il);
      }
      var rs3 := Merge(rs2, il.value);
      if cancelling {
        FinishCancelling(Some(rs3));
      }
      return Resolved(Some(rs3));
    }

    /** The push phase of `sync()`: skipped on a first sync. */
    method PushPhase(inp: SyncInputs, usePouch: bool) returns (st: Stage)
      modifies this
      ensures State() == SyncEngine.PushPhase(old(State()), inp, usePouch).0
      ensures st == SyncEngine.PushPhase(old(State()), inp, usePouch).1
    {
      if inp.isFirstSync {
        return Next(None, None, false);
      }
      var l := PushLoop(inp, usePouch);
      if !l.Finished? {
        return Stop(OutcomeOf(l));
      }
      var recorded := RecordPushTotal(l.value.last, l.value.docsWritten);
      if recorded.None? {
        return Stop(Rejected);
      }
      return Next(Some(Merge(None, recorded)), recorded, l.value.success);
    }

    /** After a location change on a device that synced before: the forced push and the reinstall. */
    method LocationsChangedPhase(inp: SyncInputs, locs: seq<LocationConfig>, usePouch: bool, st: Stage) returns (st': Stage)
      requires st.Next?
      modifies this
      ensures State() == SyncEngine.LocationsChangedPhase(old(State()), inp, locs, usePouch, st).0
      ensures st' == SyncEngine.LocationsChangedPhase(old(State()), inp, locs, usePouch, st).1
    {
      fullSync := Some(Push);
      retryCount := 1;
      var l := ForcedPushLoop(inp, usePouch, st.hadPushSuccess, st.pushStatus);
      if l.Finished? {
        reinstalls := reinstalls + 1;
        vars := vars[PreviousLocationsKey := LocationsValue(locs)][PullSeqKey := JsonValue(Num(0))];
        st' := Next(Some(Merge(st.rs, l.value)), l.value, true);
      } else {
        st' := Stop(OutcomeOf(l));
      }
    }

    /** Sync-location change detection and its consequences. */
    method LocationPhase(inp: SyncInputs, locs: seq<LocationConfig>, usePouch: bool, st: Stage) returns (st': Stage)
      requires st.Next?
      modifies this
      ensures State() == SyncEngine.LocationPhase(old(State()), inp, locs, usePouch, st).0
      ensures st' == SyncEngine.LocationPhase(old(State()), inp, locs, usePouch, st).1
    {
      var previous := PreviousLocations(vars);
      var changed: Option<bool> := Some(true);
      if previous.Some? {
        changed := SyncLocationConfigsDontMatch(locs, previous.value);
      }
      if changed.None? {
        return Stop(Rejected);
      }
      st' := st;
      if !inp.isFirstSync && changed.value {
        st' := LocationsChangedPhase(inp, locs, usePouch, st);
      } else if inp.isFirstSync {
        vars := vars[PreviousLocationsKey := LocationsValue(locs)];
      }
    }

    /** `sync()` after the push phase. */
    method SyncAfterPush(inp: SyncInputs, locs: seq<LocationConfig>, usePouch: bool, st: Stage) returns (outcome: SyncOutcome)
      requires st.Next?
      modifies this
      ensures State() == SyncEngine.SyncAfterPush(old(State()), inp, locs, usePouch, st).0
      ensures outcome == SyncEngine.SyncAfterPush(old(State()), inp, locs, usePouch, st).1
    {
      var st1 := LocationPhase(inp, locs, usePouch, st);
      if st1.Stop? {
        return st1.outcome;
      }
      outcome := PullPhases(inp, locs, usePouch, st1.rs);
    }

    /** `sync()` once the sync session is established. */
    method SyncAfterSession(inp: SyncInputs, locs: seq<LocationConfig>, usePouch: bool) returns (outcome: SyncOutcome)
      modifies this
      ensures State() == SyncEngine.SyncAfterSession(old(State()), inp, locs, usePouch).0
      ensures outcome == SyncEngine.SyncAfterSession(old(State()), inp, locs, usePouch).1
    {
      if cancelling {
        FinishCancelling(None);
        return Resolved(None);
      }
      retryCount := 1;
      var st := PushPhase(inp, usePouch);
      if st.Stop? {
        return st.outcome;
      }
      if cancelling {
        FinishCancelling(st.rs);
        return Resolved(st.rs);
      }
      outcome := SyncAfterPush(inp, locs, usePouch, st);
    }

    /** `sync()`. */
    method Sync(inp: SyncInputs) returns (outcome: SyncOutcome)
      modifies this
      ensures State() == SyncEngine.Sync(old(State()), inp).0
      ensures outcome == SyncEngine.Sync(old(State()), inp).1
    {
      Configure(inp);
      var usePouch := inp.appConfig.usePouchDbLastSequenceTracking || Truthy(SeqVar(vars, TrackingKey));
      if inp.session.None? {
        outcome := Resolved(Some(SessionFailedStatus(inp.tr)));
      } else {
        cancelling := cancelling || inp.cancelDuringSession;
        outcome := SyncAfterSession(inp, inp.session.value, usePouch);
      }
    }

    /** The batch sizes and `fullSync` set at the start of `sync()`. */
    method Configure(inp: SyncInputs)
      modifies this
      ensures State() == SyncEngine.Configure(old(State()), inp)
    {
      fullSync := inp.fullSync;
      batchSize :=
        if inp.isFirstSync || inp.fullSync == Some(Pull) then InitialBatchSize
        else if inp.reduceBatchSize then ReducedBatchSize
        else OrElse(inp.appConfig.batchSize, batchSize);
      writeBatchSize := if inp.reduceBatchSize then ReducedBatchSize else OrElse(inp.appConfig.writeBatchSize, writeBatchSize);
      changesBatchSize :=
        if inp.reduceBatchSize then ReducedChangesBatchSize else OrElse(inp.appConfig.changesBatchSize, changesBatchSize);
    }
  }
}
