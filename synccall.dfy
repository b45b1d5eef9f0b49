/**
 * What one call of the client sync engine's `sync()` leaves behind, phase
 * by phase and as a whole: the batch sizes it configures, the early returns
 * after a failed session or a cancel, the incremental push total, the
 * consequences of a location change, and what a first sync does and does
 * not do.
 */
module SyncCall {
  import opened Wrappers
  import opened JsonValues
  import opened SyncLocations
  import opened Replication
  import opened SyncEngine
  import opened SyncProperties

  lemma KeysDistinct()
    ensures PreviousLocationsKey != PushSeqKey && PreviousLocationsKey != PullSeqKey && PushSeqKey != PullSeqKey
  {
    assert PreviousLocationsKey[0] != PushSeqKey[0];
    assert PreviousLocationsKey[0] != PullSeqKey[0];
    assert PushSeqKey[7] != PullSeqKey[7];
  }

  /** What a phase keeps: the batch sizes, and well-formed durable variables. */
  predicate Keeps(e: Engine, e': Engine) {
    && e'.batchSize == e.batchSize && e'.writeBatchSize == e.writeBatchSize && e'.changesBatchSize == e.changesBatchSize
    && (ValidVars(e.vars) ==> ValidVars(e'.vars))
  }

  /**
   * The batch sizes `sync()` chooses: the initial size on a first sync or a
   * full pull, otherwise the reduced size when asked for, otherwise the
   * configured size when it is set and non-zero, otherwise the current one.
   */
  lemma ConfigureBatchSizes(e: Engine, inp: SyncInputs)
    ensures var e' := Configure(e, inp);
            && (inp.isFirstSync || inp.fullSync == Some(Pull) ==> e'.batchSize == InitialBatchSize)
            && (!(inp.isFirstSync || inp.fullSync == Some(Pull)) && inp.reduceBatchSize ==> e'.batchSize == ReducedBatchSize)
            && (!(inp.isFirstSync || inp.fullSync == Some(Pull)) && !inp.reduceBatchSize ==>
                  e'.batchSize == OrElse(inp.appConfig.batchSize, e.batchSize))
            && e'.writeBatchSize == (if inp.reduceBatchSize then ReducedWriteBatchSize
                                     else OrElse(inp.appConfig.writeBatchSize, e.writeBatchSize))
            && e'.changesBatchSize == (if inp.reduceBatchSize then ReducedChangesBatchSize
                                       else OrElse(inp.appConfig.changesBatchSize, e.changesBatchSize))
            && e'.fullSync == inp.fullSync && e'.vars == e.vars && e'.runs == e.runs
  {
  }

  /** `finishCancelling`: the flag is cleared and the status is emitted with every property of `rs` and `cancelled: true`. */
  lemma FinishCancellingFacts(e: Engine, rs: Option<Status>)
    ensures var e' := FinishCancelling(e, rs);
            && !e'.cancelling && |e'.cancelled| == |e.cancelled| + 1 && e'.cancelled[..|e.cancelled|] == e.cancelled
            && (forall k :: StatusGet(e'.cancelled[|e.cancelled|], k)
                              == if k == "cancelled" then Bool(true) else StatusGet(rs.GetOr(map[]), k))
            && e'.vars == e.vars && e'.runs == e.runs && Keeps(e, e')
  {
    var e' := FinishCancelling(e, rs);
    assert e'.cancelled[..|e.cancelled|] == e.cancelled;
  }

  /**
   * A failed session request: the call resolves with a status holding only
   * `pushError`, starts no replication and writes no variable.
   */
  lemma SessionFailed(e: Engine, inp: SyncInputs)
    requires inp.session.None?
    ensures var (e', out) := Sync(e, inp);
            && out == Resolved(Some(map["pushError" := Str(inp.tr.pleaseRetry)]))
            && e'.runs == e.runs && e'.vars == e.vars && e'.cancelled == e.cancelled
            && e'.retryCount == e.retryCount && e'.cancelling == e.cancelling
  {
  }

  /**
   * A cancel that is pending once the session is established: the call
   * resolves with `undefined`, starts no replication, writes no variable and
   * emits the cancelled status `{cancelled: true}`.
   */
  lemma CancelledAfterSession(e: Engine, inp: SyncInputs)
    requires inp.session.Some? && (e.cancelling || inp.cancelDuringSession)
    ensures var (e', out) := Sync(e, inp);
            && out == Resolved(None)
            && e'.runs == e.runs && e'.vars == e.vars && !e'.cancelling
            && e'.cancelled == e.cancelled + [map["cancelled" := Bool(true)]]
  {
    assert Merge(None, None) == map[];
  }

  /**
   * The push phase: nothing on a first sync; otherwise only pushes are
   * started, and for the number `k` of attempts that went round again the
   * loop ran as `PushLoopRan` says, and the `pushed` total the phase hands
   * on is the sum of their `docs_written`.
   */
  lemma PushPhaseFacts(e: Engine, inp: SyncInputs, usePouch: bool)
    ensures inp.isFirstSync ==> PushPhase(e, inp, usePouch) == (e, Next(None, None, false))
    ensures Keeps(e, PushPhase(e, inp, usePouch).0)
    ensures LoopFrame(e, PushPhase(e, inp, usePouch).0) && AddsPushRuns(e, PushPhase(e, inp, usePouch).0)
    ensures !inp.isFirstSync ==>
              exists k :: 0 <= k <= |inp.pushScript|
                && PushLoopRan(e, PushPhase(e, inp, usePouch).0, PushLoop(e, inp, usePouch, 0, PushCarry(Num(0), None)).1,
                               inp, 0, PushCarry(Num(0), None), k)
                && (PushPhase(e, inp, usePouch).1.Next? ==>
                      PushPhase(e, inp, usePouch).1.pushStatus.Some?
                      && StatusGet(PushPhase(e, inp, usePouch).1.pushStatus.value, "pushed") == Written(Num(0), inp.pushScript[0..k]))
  {
    if !inp.isFirstSync {
      PushPhaseUnfold(e, inp, usePouch);
      var c0 := PushCarry(Num(0), None);
      PushLoopFacts(e, inp, usePouch, 0, c0);
      var r := PushLoop(e, inp, usePouch, 0, c0);
      var k :| 0 <= k <= |inp.pushScript| && PushLoopRan(e, r.0, r.1, inp, 0, c0, k);
      PushPhaseKeeps(e, r.0, r.1, inp, k);
      PushPhasePushed(e, r.0, r.1, inp, k, PushPhase(e, inp, usePouch).1);
    }
  }

  /** A later sync's push phase in terms of its loop: the loop's engine, and a status only when the loop finished and its total was recorded. */
  lemma PushPhaseUnfold(e: Engine, inp: SyncInputs, usePouch: bool)
    requires !inp.isFirstSync
    ensures PushPhase(e, inp, usePouch).0 == PushLoop(e, inp, usePouch, 0, PushCarry(Num(0), None)).0
    ensures PushPhase(e, inp, usePouch).1.Next? ==>
              && PushLoop(e, inp, usePouch, 0, PushCarry(Num(0), None)).1.Finished?
              && PushPhase(e, inp, usePouch).1.pushStatus.Some?
              && PushPhase(e, inp, usePouch).1.pushStatus
                 == RecordPushTotal(PushLoop(e, inp, usePouch, 0, PushCarry(Num(0), None)).1.value.last,
                                    PushLoop(e, inp, usePouch, 0, PushCarry(Num(0), None)).1.value.docsWritten)
  {
  }

  /** The push loop keeps the batch sizes and a well-formed store: it writes at most the push checkpoint. */
  lemma PushPhaseKeeps(e: Engine, e': Engine, l: LoopStatus<PushEnd>, inp: SyncInputs, k: nat)
    requires k <= |inp.pushScript|
    requires LoopFrame(e, e') && PushLoopRan(e, e', l, inp, 0, PushCarry(Num(0), None), k)
    ensures Keeps(e, e')
  {
    if l.Finished? && l.value.success {
      assert ValidVars(e.vars) ==> ValidVars(e'.vars);
    }
  }

  /** The status a finished push loop hands on carries, as `pushed`, the `docs_written` of its attempts. */
  lemma PushPhasePushed(e: Engine, e': Engine, l: LoopStatus<PushEnd>, inp: SyncInputs, k: nat, st: Stage)
    requires k <= |inp.pushScript|
    requires PushLoopRan(e, e', l, inp, 0, PushCarry(Num(0), None), k)
    requires st.Next? ==> l.Finished? && st.pushStatus.Some? && st.pushStatus == RecordPushTotal(l.value.last, l.value.docsWritten)
    ensures st.Next? ==> st.pushStatus.Some? && StatusGet(st.pushStatus.value, "pushed") == Written(Num(0), inp.pushScript[0..k])
  {
    if st.Next? {
      RecordPushTotalPushed(l.value.last, l.value.docsWritten);
    }
  }

  /** The `pushed` total a recorded push status carries is the `docs_written` handed to it. */
  lemma RecordPushTotalPushed(last: Option<Status>, docsWritten: Json)
    ensures RecordPushTotal(last, docsWritten).Some? ==>
              StatusGet(RecordPushTotal(last, docsWritten).value, "pushed") == docsWritten
  {
  }

  /** Location change detection as written: a change whenever no locations are stored, and never otherwise. */
  lemma LocationsChangedAsWritten(vars: map<string, Stored>, locs: seq<LocationConfig>)
    ensures PreviousLocations(vars).None? ==> LocationsChanged(vars, locs) == Some(true)
    ensures PreviousLocations(vars).Some? ==>
              LocationsChanged(vars, locs) == if locs != [] && SomeEmptyPath(PreviousLocations(vars).value) then None else Some(false)
  {
    if PreviousLocations(vars).Some? {
      ConfigsDontMatchAsWritten(locs, PreviousLocations(vars).value);
    }
  }

  /**
   * After a location change: a forced push with `fullSync` push; when the
   * incremental push already succeeded it starts nothing; once it ends the
   * shared user database is reinstalled, the new locations are stored and
   * the pull checkpoint is 0.
   */
  lemma LocationsChangedFacts(e: Engine, inp: SyncInputs, locs: seq<LocationConfig>, usePouch: bool, st: Stage)
    requires st.Next?
    ensures Keeps(e, LocationsChangedPhase(e, inp, locs, usePouch, st).0)
    ensures AddsPushRuns(e, LocationsChangedPhase(e, inp, locs, usePouch, st).0)
    ensures LocationsChangedPhase(e, inp, locs, usePouch, st).0.fullSync == Some(Push)
    ensures st.hadPushSuccess ==>
              && LocationsChangedPhase(e, inp, locs, usePouch, st).0.runs == e.runs
              && LocationsChangedPhase(e, inp, locs, usePouch, st).0.retryCount == 1
              && LocationsChangedPhase(e, inp, locs, usePouch, st).1.Next?
    ensures LocationsChangedPhase(e, inp, locs, usePouch, st).1.Next? ==>
              var e' := LocationsChangedPhase(e, inp, locs, usePouch, st).0;
              && PreviousLocations(e'.vars) == Some(locs) && SeqVar(e'.vars, PullSeqKey) == Num(0)
              && e'.reinstalls == e.reinstalls + 1 && LocationsChangedPhase(e, inp, locs, usePouch, st).1.hadPushSuccess
  {
    var e0 := e.(fullSync := Some(Push), retryCount := 1);
    ForcedPushLoopFacts(e0, inp, usePouch, 0, st.hadPushSuccess, st.pushStatus);
    var r := ForcedPushLoop(e0, inp, usePouch, 0, st.hadPushSuccess, st.pushStatus);
    if r.1.Finished? {
      RecordedLocationsVars(r.0.vars, locs);
    }
  }

  /** The store after a location change: the new locations and a pull checkpoint of 0, and still well formed. */
  lemma RecordedLocationsVars(vars: map<string, Stored>, locs: seq<LocationConfig>)
    ensures var v := vars[PreviousLocationsKey := LocationsValue(locs)][PullSeqKey := JsonValue(Num(0))];
            && PreviousLocations(v) == Some(locs) && SeqVar(v, PullSeqKey) == Num(0)
            && (ValidVars(vars) ==> ValidVars(v))
  {
    KeysDistinct();
  }

  /**
   * The location phase: a first sync stores the locations it was given; a
   * later sync with no stored locations goes through the location-change
   * branch; a later one whose locations compare equal changes nothing.
   */
  lemma LocationPhaseFacts(e: Engine, inp: SyncInputs, locs: seq<LocationConfig>, usePouch: bool, st: Stage)
    requires st.Next?
    ensures var (e', st') := LocationPhase(e, inp, locs, usePouch, st);
            && Keeps(e, e')
            && (inp.isFirstSync && LocationsChanged(e.vars, locs).Some? ==>
                  e'.vars == e.vars[PreviousLocationsKey := LocationsValue(locs)] && st' == st && e'.runs == e.runs)
            && (!inp.isFirstSync && PreviousLocations(e.vars).None? ==>
                  (e', st') == LocationsChangedPhase(e, inp, locs, usePouch, st))
            && (!inp.isFirstSync && LocationsChanged(e.vars, locs) == Some(false) ==> e' == e && st' == st)
            && (LocationsChanged(e.vars, locs).None? ==> e' == e && st' == Stop(Rejected))
  {
    LocationsChangedAsWritten(e.vars, locs);
    if !inp.isFirstSync && LocationsChanged(e.vars, locs) == Some(true) {
      LocationsChangedFacts(e, inp, locs, usePouch, st);
    }
  }

  /** The stored locations live outside the checkpoints. */
  lemma OtherVarsKeepLocations(v: map<string, Stored>, v': map<string, Stored>)
    requires OtherVars(v') == OtherVars(v)
    ensures PreviousLocations(v') == PreviousLocations(v)
  {
    KeysDistinct();
    assert PreviousLocationsKey in v <==> PreviousLocationsKey in OtherVars(v);
    assert PreviousLocationsKey in v' <==> PreviousLocationsKey in OtherVars(v');
    if PreviousLocationsKey in v {
      assert v[PreviousLocationsKey] == OtherVars(v)[PreviousLocationsKey];
      assert v'[PreviousLocationsKey] == OtherVars(v')[PreviousLocationsKey];
    }
  }

  /** The pull loop and the assigned-documents loop start only pulls and write only the checkpoints. */
  lemma PullPhasesFacts(e: Engine, inp: SyncInputs, locs: seq<LocationConfig>, usePouch: bool, rs: Option<Status>)
    ensures var e' := PullPhases(e, inp, locs, usePouch, rs).0;
            Keeps(e, e') && AddsPullRuns(e, e') && OtherVars(e'.vars) == OtherVars(e.vars)
  {
    var e1 := e.(retryCount := 1);
    var prePull := SeqVar(e1.vars, PullSeqKey);
    PullLoopFacts(e1, inp, locs, usePouch, prePull, 0, None);
    var (e2, pl) := PullLoop(e1, inp, locs, usePouch, prePull, 0, None);
    if pl.Finished? {
      var ids := inp.assignedIds.GetOr([]);
      IssueLoopFacts(e2, inp, usePouch, prePull, ids, 0, None);
      var e3 := IssueLoop(e2, inp, usePouch, prePull, ids, 0, None).0;
      PullFrameTrans(e1, e2, e3);
    }
  }

  /** `sync()` after the push phase, on a first sync: only pulls, and the locations stored unless the comparison threw. */
  lemma SyncAfterPushFacts(e: Engine, inp: SyncInputs, locs: seq<LocationConfig>, usePouch: bool, st: Stage)
    requires st.Next?
    ensures var e' := SyncAfterPush(e, inp, locs, usePouch, st).0;
            && Keeps(e, e')
            && (inp.isFirstSync ==> AddsPullRuns(e, e'))
            && (inp.isFirstSync && LocationsChanged(e.vars, locs).Some? ==> PreviousLocations(e'.vars) == Some(locs))
  {
    LocationPhaseFacts(e, inp, locs, usePouch, st);
    if !inp.isFirstSync && LocationsChanged(e.vars, locs) == Some(true) {
      LocationsChangedFacts(e, inp, locs, usePouch, st);
    }
    var (e1, st1) := LocationPhase(e, inp, locs, usePouch, st);
    if st1.Next? {
      PullPhasesFacts(e1, inp, locs, usePouch, st1.rs);
      var e2 := PullPhases(e1, inp, locs, usePouch, st1.rs).0;
      OtherVarsKeepLocations(e1.vars, e2.vars);
      if inp.isFirstSync && LocationsChanged(e.vars, locs).Some? {
        AddsPullRunsTrans(e, e1, e2);
        KeysDistinct();
        assert PreviousLocations(e1.vars) == Some(locs);
      }
    } else if inp.isFirstSync {
      assert e1.runs == e.runs;
    }
  }

  /**
   * One call of `sync()`: the batch sizes it configured survive the call,
   * well-formed durable variables stay well-formed, a first sync starts no
   * push, and a first sync past the session and any cancel stores the
   * device's sync locations unless comparing them threw.
   */
  lemma SyncFacts(e: Engine, inp: SyncInputs)
    ensures var e' := Sync(e, inp).0;
            && Keeps(Configure(e, inp), e')
            && (inp.isFirstSync ==> AddsPullRuns(e, e'))
            && (inp.isFirstSync && inp.session.Some? && !e.cancelling && !inp.cancelDuringSession
                && LocationsChanged(e.vars, inp.session.value).Some? ==>
                  PreviousLocations(e'.vars) == Some(inp.session.value))
  {
    var e1 := Configure(e, inp);
    var usePouch := UsePouchDbTracking(e1, inp);
    if inp.session.Some? {
      var e2 := Cancel(e1, inp.cancelDuringSession);
      var locs := inp.session.value;
      if e2.cancelling {
        FinishCancellingFacts(e2, None);
      } else {
        var e3 := e2.(retryCount := 1);
        PushPhaseFacts(e3, inp, usePouch);
        var (e4, st) := PushPhase(e3, inp, usePouch);
        if st.Next? {
          if e4.cancelling {
            FinishCancellingFacts(e4, st.rs);
          } else {
            SyncAfterPushFacts(e4, inp, locs, usePouch, st);
          }
        }
      }
    }
  }
}
