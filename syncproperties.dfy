/**
 * What one call of the client sync engine's `sync()` does, stated about the
 * specification in `SyncEngine`: what a push or pull attempt changes, what
 * the retry loops count, which checkpoints they write, and what the call
 * as a whole leaves behind.
 */
module SyncProperties {
  import opened Wrappers
  import opened JsonValues
  import opened SyncLocations
  import opened PullSelector
  import opened Replication
  import opened SyncEngine

  /** A push attempt after which the loop sleeps before retrying: an error, or a document that failed to write. */
  predicate ErroredPush(r: PushResult) {
    r.PushFailed? || |r.errors| > 0 || r.docWriteFailures > 0
  }

  /** `docs_written += info.docs_written` over the attempts, from `acc`. */
  function Written(acc: Json, attempts: seq<PushAttempt>): Json
    decreases |attempts|
  {
    if attempts == [] then acc else Written(Add(acc, AttemptWritten(attempts[0].result)), attempts[1..])
  }

  /** The number of attempts followed by a sleep. */
  function ErrorCount(attempts: seq<PushAttempt>): nat
    decreases |attempts|
  {
    if attempts == [] then 0 else (if ErroredPush(attempts[0].result) then 1 else 0) + ErrorCount(attempts[1..])
  }

  /** The fields a retry loop leaves alone. */
  predicate LoopFrame(e: Engine, e': Engine) {
    && e'.fullSync == e.fullSync
    && e'.batchSize == e.batchSize && e'.writeBatchSize == e.writeBatchSize && e'.changesBatchSize == e.changesBatchSize
    && e'.pushSyncOptions == e.pushSyncOptions && e'.pullSyncOptions == e.pullSyncOptions
    && e'.cancelled == e.cancelled && e'.reinstalls == e.reinstalls
  }

  /** The runs started after `e` are all pushes. */
  predicate AddsPushRuns(e: Engine, e': Engine) {
    |e.runs| <= |e'.runs| && e'.runs[..|e.runs|] == e.runs
    && forall j :: |e.runs| <= j < |e'.runs| ==> e'.runs[j].PushRun?
  }

  /** The runs started after `e` are all pulls. */
  predicate AddsPullRuns(e: Engine, e': Engine) {
    |e.runs| <= |e'.runs| && e'.runs[..|e.runs|] == e.runs
    && forall j :: |e.runs| <= j < |e'.runs| ==> e'.runs[j].PullRun?
  }

  lemma AddsPushRunsTrans(e1: Engine, e2: Engine, e3: Engine)
    requires AddsPushRuns(e1, e2) && AddsPushRuns(e2, e3)
    ensures AddsPushRuns(e1, e3)
  {
    assert e3.runs[..|e1.runs|] == e3.runs[..|e2.runs|][..|e1.runs|];
  }

  lemma AddsPullRunsTrans(e1: Engine, e2: Engine, e3: Engine)
    requires AddsPullRuns(e1, e2) && AddsPullRuns(e2, e3)
    ensures AddsPullRuns(e1, e3)
  {
    assert e3.runs[..|e1.runs|] == e3.runs[..|e2.runs|][..|e1.runs|];
  }

  // ----- The incremental push loop -----

  /**
   * One attempt of the incremental push loop: the push is started with the
   * engine's options; a clean attempt ends the loop with success and writes
   * the push checkpoint; a rejection with an empty error text throws; any
   * other attempt counts a retry, adds its `docs_written`, and sleeps after
   * an error or a write failure.
   */
  lemma PushStepFacts(e: Engine, inp: SyncInputs, usePouch: bool, i: nat, c: PushCarry)
    requires i < |inp.pushScript|
    ensures var a := inp.pushScript[i];
            var r := PushStep(e, inp, usePouch, i, c);
            && LoopFrame(e, r.after) && AddsPushRuns(e, r.after)
            && r.after.runs == e.runs + [PushRun(PushRunOptions(e, usePouch))]
            && (r.Ended? && r.result.Threw? <==> a.result.PushComplete? && a.result.errors == [""])
            && (r.Ended? && r.result.Threw? ==> r.after == StartPush(e, usePouch))
            && (r.Ended? && r.result.Finished? <==> CleanPush(a.result))
            && (r.Ended? ==> r.result.Finished? || r.result.Threw?)
            && (r.Ended? ==> r.after.retryCount == e.retryCount && r.after.sleeps == e.sleeps)
            && (CleanPush(a.result) ==>
                  && r.after.vars == e.vars[PushSeqKey := JsonValue(a.result.lastSeq)]
                  && r.after.cancelling == (e.cancelling || a.cancelAfter)
                  && r.result.value.success && r.result.value.docsWritten == c.docsWritten)
            && (r.Again? ==>
                  && r.after.vars == e.vars
                  && r.after.cancelling == (e.cancelling || a.cancelAfter)
                  && r.after.retryCount == e.retryCount + 1
                  && r.after.sleeps == e.sleeps + (if ErroredPush(a.result) then 1 else 0)
                  && r.carry.docsWritten == Add(c.docsWritten, AttemptWritten(a.result)))
  {
    var a := inp.pushScript[i];
    PushStepRuns(e, inp, usePouch, i, c);
    if CleanPush(a.result) {
      PushStepClean(e, inp, usePouch, i, c);
    } else if a.result.PushComplete? && a.result.errors == [""] {
      PushStepThrows(e, inp, usePouch, i, c);
    } else {
      PushStepRetries(e, inp, usePouch, i, c);
    }
  }

  lemma PushStepRuns(e: Engine, inp: SyncInputs, usePouch: bool, i: nat, c: PushCarry)
    requires i < |inp.pushScript|
    ensures var r := PushStep(e, inp, usePouch, i, c);
            && LoopFrame(e, r.after) && AddsPushRuns(e, r.after)
            && r.after.runs == e.runs + [PushRun(PushRunOptions(e, usePouch))]
  {
    var a := inp.pushScript[i];
    var e1 := StartPush(e, usePouch);
    match PushStatus(a.result, PushSince(e), e.retryCount, inp.tr)
    case None =>
    case Some(s) => SettlePushFrame(e1, a.cancelAfter, s, c);
  }

  lemma SettlePushFrame(e: Engine, cancelAfter: bool, s: Status, c: PushCarry)
    ensures LoopFrame(e, SettlePush(e, cancelAfter, s, c).after)
    ensures SettlePush(e, cancelAfter, s, c).after.runs == e.runs
  {
  }

  lemma PushStepClean(e: Engine, inp: SyncInputs, usePouch: bool, i: nat, c: PushCarry)
    requires i < |inp.pushScript| && CleanPush(inp.pushScript[i].result)
    ensures var a := inp.pushScript[i];
            var r := PushStep(e, inp, usePouch, i, c);
            && r.Ended? && r.result.Finished? && r.result.value.success && r.result.value.docsWritten == c.docsWritten
            && r.after.vars == e.vars[PushSeqKey := JsonValue(a.result.lastSeq)]
            && r.after.cancelling == (e.cancelling || a.cancelAfter)
            && r.after.retryCount == e.retryCount && r.after.sleeps == e.sleeps
  {
    var a := inp.pushScript[i];
    PushStatusResolved(a.result, PushSince(e), e.retryCount, inp.tr);
    PushInfoFields(a.result);
    var s := PushStatus(a.result, PushSince(e), e.retryCount, inp.tr).value;
    assert PushSucceeded(s);
    assert Get(InfoOf(s), "last_seq") == a.result.lastSeq;
    assert PushStep(e, inp, usePouch, i, c) == SettlePush(StartPush(e, usePouch), a.cancelAfter, s, c);
  }

  lemma PushStepThrows(e: Engine, inp: SyncInputs, usePouch: bool, i: nat, c: PushCarry)
    requires i < |inp.pushScript| && inp.pushScript[i].result.PushComplete? && inp.pushScript[i].result.errors == [""]
    ensures var r := PushStep(e, inp, usePouch, i, c);
            r.Ended? && r.result.Threw? && r.after == StartPush(e, usePouch)
  {
    var a := inp.pushScript[i];
    PushStatusRejected(a.result, PushSince(e), e.retryCount, inp.tr);
  }

  lemma PushStepRetries(e: Engine, inp: SyncInputs, usePouch: bool, i: nat, c: PushCarry)
    requires i < |inp.pushScript| && !CleanPush(inp.pushScript[i].result)
    requires !(inp.pushScript[i].result.PushComplete? && inp.pushScript[i].result.errors == [""])
    ensures var a := inp.pushScript[i];
            var r := PushStep(e, inp, usePouch, i, c);
            && r.Again?
            && r.after.vars == e.vars
            && r.after.cancelling == (e.cancelling || a.cancelAfter)
            && r.after.retryCount == e.retryCount + 1
            && r.after.sleeps == e.sleeps + (if ErroredPush(a.result) then 1 else 0)
            && r.carry.docsWritten == Add(c.docsWritten, AttemptWritten(a.result))
  {
    var a := inp.pushScript[i];
    PushStatusFacts(a.result, PushSince(e), e.retryCount, inp.tr);
  }

  /**
   * How the incremental push loop ended after `k - i` attempts that went
   * round again (and, when it ended by an attempt, that one more).
   */
  predicate PushLoopRan(e: Engine, e': Engine, l: LoopStatus<PushEnd>, inp: SyncInputs, i: nat, c: PushCarry, k: nat)
    requires i <= k <= |inp.pushScript|
  {
    && (forall j :: i <= j < k ==> !CleanPush(inp.pushScript[j].result))
    && e'.retryCount == e.retryCount + (k - i)
    && e'.sleeps == e.sleeps + ErrorCount(inp.pushScript[i..k])
    && (l.Finished? ==> l.value.docsWritten == Written(c.docsWritten, inp.pushScript[i..k]))
    && (l.Finished? && l.value.success ==>
          k < |inp.pushScript| && CleanPush(inp.pushScript[k].result)
          && e'.vars == e.vars[PushSeqKey := JsonValue(inp.pushScript[k].result.lastSeq)])
    && (!(l.Finished? && l.value.success) ==> e'.vars == e.vars)
    && (l.Threw? ==> k < |inp.pushScript| && inp.pushScript[k].result.PushComplete? && inp.pushScript[k].result.errors == [""])
    && (l.Exhausted? ==> k == |inp.pushScript|)
  }

  lemma WrittenStep(acc: Json, attempts: seq<PushAttempt>, i: nat, k: nat)
    requires i < k <= |attempts|
    ensures Written(acc, attempts[i..k]) == Written(Add(acc, AttemptWritten(attempts[i].result)), attempts[i + 1..k])
    ensures ErrorCount(attempts[i..k]) == (if ErroredPush(attempts[i].result) then 1 else 0) + ErrorCount(attempts[i + 1..k])
  {
    assert attempts[i..k][0] == attempts[i];
    assert attempts[i..k][1..] == attempts[i + 1..k];
  }

  /**
   * The push loop from attempt `i` left `e'` with `l`: only the loop's own
   * fields changed, it added push runs only, it stopped without success
   * only when cancelled, and it ran as `PushLoopRan` says for some number
   * of attempts.
   */
  predicate PushLoopEnds(e: Engine, e': Engine, l: LoopStatus<PushEnd>, inp: SyncInputs, i: nat, c: PushCarry)
    requires i <= |inp.pushScript|
  {
    && LoopFrame(e, e') && AddsPushRuns(e, e')
    && (l.Finished? && !l.value.success ==> e'.cancelling)
    && exists k :: i <= k <= |inp.pushScript| && PushLoopRan(e, e', l, inp, i, c, k)
  }

  /**
   * The incremental push loop: it succeeds only on a clean attempt, and only
   * then writes the push checkpoint, the `last_seq` of that attempt; every
   * attempt before it counts one retry, sleeps after an error or a write
   * failure, and adds its `docs_written` to the total the loop reports.
   */
  lemma {:induction false} PushLoopFacts(e: Engine, inp: SyncInputs, usePouch: bool, i: nat, c: PushCarry)
    requires i <= |inp.pushScript|
    ensures PushLoopEnds(e, PushLoop(e, inp, usePouch, i, c).0, PushLoop(e, inp, usePouch, i, c).1, inp, i, c)
    decreases |inp.pushScript| - i
  {
    var e' := PushLoop(e, inp, usePouch, i, c).0;
    var l := PushLoop(e, inp, usePouch, i, c).1;
    if e.cancelling || i == |inp.pushScript| {
      assert inp.pushScript[i..i] == [];
      assert PushLoopRan(e, e', l, inp, i, c, i);
    } else {
      PushStepFacts(e, inp, usePouch, i, c);
      match PushStep(e, inp, usePouch, i, c)
      case Ended(e1, l1) =>
        PushLoopTurn(e, inp, usePouch, i, c);
        PushLoopEnded(e, e1, l1, inp, i, c);
      case Again(e1, c1) =>
        PushLoopTurn(e, inp, usePouch, i, c);
        PushLoopFacts(e1, inp, usePouch, i + 1, c1);
        var k :| i + 1 <= k <= |inp.pushScript| && PushLoopRan(e1, e', l, inp, i + 1, c1, k);
        AddsPushRunsTrans(e, e1, e');
        PushLoopAgain(e, e1, e', l, inp, i, c, c1, k);
    }
  }

  /** An attempt that ends the loop: a clean one, or one that throws. */
  lemma PushLoopEnded(e: Engine, e1: Engine, l: LoopStatus<PushEnd>, inp: SyncInputs, i: nat, c: PushCarry)
    requires i < |inp.pushScript|
    requires l.Finished? || l.Threw?
    requires l.Finished? <==> CleanPush(inp.pushScript[i].result)
    requires l.Threw? <==> inp.pushScript[i].result.PushComplete? && inp.pushScript[i].result.errors == [""]
    requires e1.retryCount == e.retryCount && e1.sleeps == e.sleeps
    requires CleanPush(inp.pushScript[i].result) ==>
               e1.vars == e.vars[PushSeqKey := JsonValue(inp.pushScript[i].result.lastSeq)]
               && l.value.success && l.value.docsWritten == c.docsWritten
    requires l.Threw? ==> e1.vars == e.vars
    ensures PushLoopRan(e, e1, l, inp, i, c, i)
  {
    assert inp.pushScript[i..i] == [];
  }

  /** The bookkeeping of one attempt that goes round again, added to the rest of the loop. */
  lemma PushLoopAgain(e: Engine, e1: Engine, e': Engine, l: LoopStatus<PushEnd>, inp: SyncInputs, i: nat,
                      c: PushCarry, c1: PushCarry, k: nat)
    requires i < k <= |inp.pushScript|
    requires !CleanPush(inp.pushScript[i].result)
    requires e1.vars == e.vars && e1.retryCount == e.retryCount + 1
    requires e1.sleeps == e.sleeps + (if ErroredPush(inp.pushScript[i].result) then 1 else 0)
    requires c1.docsWritten == Add(c.docsWritten, AttemptWritten(inp.pushScript[i].result))
    requires PushLoopRan(e1, e', l, inp, i + 1, c1, k)
    ensures PushLoopRan(e, e', l, inp, i, c, k)
  {
    WrittenStep(c.docsWritten, inp.pushScript, i, k);
  }

  /** Once an attempt's `docs_written` is `undefined` (a failed push), the running total is `NaN`. */
  lemma {:induction false} WrittenAfterFailure(acc: Json, attempts: seq<PushAttempt>, j: nat)
    requires acc.Num? || acc.NaN?
    requires j < |attempts| && attempts[j].result.PushFailed?
    ensures Written(acc, attempts) == NaN
    decreases |attempts|
  {
    var next := Add(acc, AttemptWritten(attempts[0].result));
    assert next.Num? || next.NaN?;
    if j == 0 {
      WrittenOfNaN(next, attempts[1..]);
    } else {
      WrittenAfterFailure(next, attempts[1..], j - 1);
    }
  }

  lemma {:induction false} WrittenOfNaN(acc: Json, attempts: seq<PushAttempt>)
    requires acc == NaN
    ensures Written(acc, attempts) == NaN
    decreases |attempts|
  {
    if attempts != [] {
      WrittenOfNaN(Add(acc, AttemptWritten(attempts[0].result)), attempts[1..]);
    }
  }

  // ----- The loop after a location change, and the pull loops -----

  /** The durable variables other than the two checkpoints. */
  function OtherVars(vars: map<string, Stored>): map<string, Stored> {
    vars - {PushSeqKey, PullSeqKey}
  }

  /** What a pull loop may change in the variable store: the checkpoints, with values. */
  predicate CheckpointsOnly(v: map<string, Stored>, v': map<string, Stored>) {
    && OtherVars(v') == OtherVars(v)
    && (ValidVars(v) ==> ValidVars(v'))
  }

  lemma CheckpointsOnlyTrans(v1: map<string, Stored>, v2: map<string, Stored>, v3: map<string, Stored>)
    requires CheckpointsOnly(v1, v2) && CheckpointsOnly(v2, v3)
    ensures CheckpointsOnly(v1, v3)
  {
  }

  /** A checkpoint write keeps the store as a pull loop may leave it. */
  lemma SetCheckpoint(v: map<string, Stored>, k: string, x: Json)
    requires k == PushSeqKey || k == PullSeqKey
    ensures CheckpointsOnly(v, v[k := JsonValue(x)])
  {
    assert OtherVars(v[k := JsonValue(x)]) == OtherVars(v);
  }

  /** `_pull`'s change events write the pull checkpoint only, ending with the last event's `last_seq`. */
  lemma {:induction false} ApplyChangesFacts(vars: map<string, Stored>, changes: seq<Json>)
    ensures CheckpointsOnly(vars, ApplyChanges(vars, changes))
    ensures SeqVar(ApplyChanges(vars, changes), PushSeqKey) == SeqVar(vars, PushSeqKey)
    ensures changes != [] ==> SeqVar(ApplyChanges(vars, changes), PullSeqKey) == changes[|changes| - 1]
    ensures changes == [] ==> ApplyChanges(vars, changes) == vars
    decreases |changes|
  {
    if changes != [] {
      var v1 := vars[PullSeqKey := JsonValue(changes[0])];
      SetCheckpoint(vars, PullSeqKey, changes[0]);
      ApplyChangesFacts(v1, changes[1..]);
      CheckpointsOnlyTrans(vars, v1, ApplyChanges(v1, changes[1..]));
      if changes[1..] == [] {
        assert ApplyChanges(v1, changes[1..]) == v1;
      } else {
        assert changes[1..][|changes[1..]| - 1] == changes[|changes| - 1];
      }
    }
  }

  /** One attempt of the push loop after a location change: it starts a push and writes no variable. */
  lemma ForcedPushStepFacts(e: Engine, inp: SyncInputs, usePouch: bool, i: nat)
    requires i < |inp.forcedPushScript|
    ensures var r := ForcedPushStep(e, inp, usePouch, i);
            && LoopFrame(e, r.after) && r.after.vars == e.vars
            && r.after.runs == e.runs + [PushRun(PushRunOptions(e, usePouch))]
            && (r.Ended? ==> r.result.Threw? || (r.result.Finished? && r.result.value.Some?
                                                 && StatusGet(r.result.value.value, "hadPushSuccess") == Bool(true)))
  {
    var a := inp.forcedPushScript[i];
    match PushStatus(a.result, PushSince(e), e.retryCount, inp.tr)
    case None =>
    case Some(st) => SettleForcedPushFacts(StartPush(e, usePouch), a.cancelAfter, st);
  }

  lemma SettleForcedPushFacts(e: Engine, cancelAfter: bool, s: Status)
    ensures var r := SettleForcedPush(e, cancelAfter, s);
            && LoopFrame(e, r.after) && r.after.vars == e.vars && r.after.runs == e.runs
            && (r.Ended? ==> r.result.Finished? && r.result.value.Some?
                             && StatusGet(r.result.value.value, "hadPushSuccess") == Bool(true))
  {
  }

  /**
   * The push loop after a location change: it writes no variable and starts
   * only pushes; when the incremental push already succeeded it makes no
   * attempt at all; and when it ends neither cancelled nor by a throw, the
   * status it hands on is marked `hadPushSuccess`.
   */
  lemma {:induction false} ForcedPushLoopFacts(e: Engine, inp: SyncInputs, usePouch: bool, i: nat,
                                               hadPushSuccess: bool, last: Option<Status>)
    requires i <= |inp.forcedPushScript|
    ensures var r := ForcedPushLoop(e, inp, usePouch, i, hadPushSuccess, last);
            && LoopFrame(e, r.0) && AddsPushRuns(e, r.0) && r.0.vars == e.vars
            && (hadPushSuccess ==> r.0 == e && r.1 == Finished(last))
            && (r.1.Finished? && !r.0.cancelling && !hadPushSuccess ==>
                  r.1.value.Some? && StatusGet(r.1.value.value, "hadPushSuccess") == Bool(true))
    decreases |inp.forcedPushScript| - i
  {
    if !hadPushSuccess && !e.cancelling && i < |inp.forcedPushScript| {
      ForcedPushStepFacts(e, inp, usePouch, i);
      ForcedPushLoopTurn(e, inp, usePouch, i, last);
      var r := ForcedPushStep(e, inp, usePouch, i);
      assert AddsPushRuns(e, r.after);
      if r.Again? {
        ForcedPushLoopFacts(r.after, inp, usePouch, i + 1, false, r.carry);
        AddsPushRunsTrans(e, r.after, ForcedPushLoop(r.after, inp, usePouch, i + 1, false, r.carry).0);
      }
    }
  }

  /** The fields a pull loop's attempt may change, and the pull-only runs it starts. */
  predicate PullFrame(e: Engine, e': Engine) {
    LoopFrame(e, e') && AddsPullRuns(e, e') && CheckpointsOnly(e.vars, e'.vars)
  }

  lemma PullFrameTrans(e1: Engine, e2: Engine, e3: Engine)
    requires PullFrame(e1, e2) && PullFrame(e2, e3)
    ensures PullFrame(e1, e3)
  {
    AddsPullRunsTrans(e1, e2, e3);
    CheckpointsOnlyTrans(e1.vars, e2.vars, e3.vars);
  }

  lemma HadPullSuccessKeepsInfo(s: Status)
    ensures InfoOf(s["hadPullSuccess" := Bool(true)]) == InfoOf(s)
  {
    assert "info"[1] != "hadPullSuccess"[1];
  }

  /** Starting a pull records one pull run and applies its change events. */
  lemma StartPullFacts(e: Engine, options: ReplicationOptions, r: PullResult)
    ensures var e1 := StartPull(e, options, r);
            && LoopFrame(e, e1) && AddsPullRuns(e, e1) && |e1.runs| == |e.runs| + 1
            && CheckpointsOnly(e.vars, e1.vars) && e1.vars == ApplyChanges(e.vars, r.Changes())
            && e1.retryCount == e.retryCount && e1.sleeps == e.sleeps && e1.cancelling == e.cancelling
  {
    ApplyChangesFacts(e.vars, r.Changes());
  }

  /**
   * How a settled pull attempt goes on: a success ends the loop and writes
   * the pull checkpoint from the status's `info.last_seq`; a throw writes the
   * local latest sequence into the push checkpoint and sleeps without
   * counting a retry; a `pullError` sleeps and counts one.
   */
  lemma SettlePullFacts(e: Engine, a: PullAttempt, st: Option<Status>, last: Option<Status>)
    ensures var r := SettlePull(e, a, st, last);
            && PullFrame(e, r.after) && r.after.runs == e.runs
            && r.after.cancelling == (e.cancelling || a.cancelAfter)
            && (r.Ended? <==> st.Some? && PullSucceeded(st.value))
            && (r.Ended? ==> r.result.Finished? && r.result.value.Some?
                             && SeqVar(r.after.vars, PullSeqKey) == Get(InfoOf(r.result.value.value), "last_seq")
                             && r.after.retryCount == e.retryCount && r.after.sleeps == e.sleeps)
            && (st.None? ==> SeqVar(r.after.vars, PushSeqKey) == a.localLastSeq
                             && r.after.retryCount == e.retryCount && r.after.sleeps == e.sleeps + 1)
            && (st.Some? && !PullSucceeded(st.value) ==>
                  r.after.vars == e.vars && r.after.retryCount == e.retryCount + 1 && r.after.sleeps == e.sleeps + 1)
  {
    var e1 := Cancel(e, a.cancelAfter);
    match st
    case None =>
      SetCheckpoint(e1.vars, PushSeqKey, a.localLastSeq);
    case Some(s) =>
      if PullSucceeded(s) {
        SetCheckpoint(e1.vars, PullSeqKey, Get(InfoOf(s), "last_seq"));
        HadPullSuccessKeepsInfo(s);
      }
  }

  /**
   * One attempt of the pull loop. It ends the loop exactly when the
   * selector could be built and the status has no `pullError`, and then the
   * pull checkpoint holds that status's `info.last_seq`.
   */
  lemma PullStepFacts(e: Engine, inp: SyncInputs, locs: seq<LocationConfig>, usePouch: bool, prePull: Json, i: nat,
                      last: Option<Status>)
    requires i < |inp.pullScript|
    ensures var r := PullStep(e, inp, locs, usePouch, prePull, i, last);
            && PullFrame(e, r.after)
            && (r.Ended? ==> r.result.Finished? && r.result.value.Some?
                             && SeqVar(r.after.vars, PullSeqKey) == Get(InfoOf(r.result.value.value), "last_seq"))
  {
    var a := inp.pullScript[i];
    var selector := GetPullSelector(inp.details.formInfos, locs, inp.details.deviceId,
                                    inp.details.disableDeviceUserFilteringByAssignment);
    if selector.None? {
      SetCheckpoint(e.vars, PushSeqKey, a.localLastSeq);
    } else {
      var since := PullSince(e, prePull);
      var options := PullOptions(usePouch, since, e.batchSize, e.writeBatchSize, e.changesBatchSize, selector, None);
      var e1 := StartPull(e, options, a.result);
      StartPullFacts(e, options, a.result);
      var st := PullStatus(a.result, since, e.retryCount, e.batchSize, inp.tr);
      SettlePullFacts(e1, a, st, last);
      PullFrameTrans(e, e1, SettlePull(e1, a, st, last).after);
    }
  }

  /**
   * The pull loop: it changes only the checkpoints and starts only pulls;
   * left without a cancel, it ended on a successful attempt, whose
   * `info.last_seq` is then the stored pull checkpoint.
   */
  lemma {:induction false} PullLoopFacts(e: Engine, inp: SyncInputs, locs: seq<LocationConfig>, usePouch: bool,
                                         prePull: Json, i: nat, last: Option<Status>)
    requires i <= |inp.pullScript|
    ensures var r := PullLoop(e, inp, locs, usePouch, prePull, i, last);
            && PullFrame(e, r.0)
            && (r.1.Finished? && !r.0.cancelling ==>
                  r.1.value.Some? && SeqVar(r.0.vars, PullSeqKey) == Get(InfoOf(r.1.value.value), "last_seq"))
    decreases |inp.pullScript| - i
  {
    if !e.cancelling && i < |inp.pullScript| {
      PullStepFacts(e, inp, locs, usePouch, prePull, i, last);
      PullLoopTurn(e, inp, locs, usePouch, prePull, i, last);
      var r := PullStep(e, inp, locs, usePouch, prePull, i, last);
      if r.Again? {
        PullLoopFacts(r.after, inp, locs, usePouch, prePull, i + 1, r.carry);
        PullFrameTrans(e, r.after, PullLoop(r.after, inp, locs, usePouch, prePull, i + 1, r.carry).0);
      }
    }
  }

  /**
   * One attempt of the loop pulling the assigned documents: it starts one
   * pull, whose change events are its only variable writes (they overwrite
   * the pull checkpoint); it ends the loop exactly on a status without
   * `pullError`.
   */
  lemma IssueStepFacts(e: Engine, inp: SyncInputs, usePouch: bool, prePull: Json, ids: seq<string>, i: nat,
                       last: Option<Status>)
    requires i < |inp.issueScript|
    ensures var a := inp.issueScript[i];
            var since := IssueSince(e, prePull);
            var st := PullStatus(a.result, since, e.retryCount, e.batchSize, inp.tr);
            var r := IssueStep(e, inp, usePouch, prePull, ids, i, last);
            && PullFrame(e, r.after) && |r.after.runs| == |e.runs| + 1
            && r.after.vars == ApplyChanges(e.vars, a.result.Changes())
            && (r.Ended? <==> st.Some? && PullSucceeded(st.value))
            && (r.Ended? ==> r.result.Finished? && r.result.value.Some?)
  {
    var a := inp.issueScript[i];
    var since := IssueSince(e, prePull);
    var options := PullOptions(usePouch, since, e.batchSize, e.writeBatchSize, e.changesBatchSize, None, Some(ids));
    StartPullFacts(e, options, a.result);
  }

  /** The assigned-documents loop changes only the checkpoints, and the push checkpoint not at all. */
  lemma {:induction false} IssueLoopFacts(e: Engine, inp: SyncInputs, usePouch: bool, prePull: Json, ids: seq<string>,
                                          i: nat, last: Option<Status>)
    requires i <= |inp.issueScript|
    ensures var r := IssueLoop(e, inp, usePouch, prePull, ids, i, last);
            && PullFrame(e, r.0) && SeqVar(r.0.vars, PushSeqKey) == SeqVar(e.vars, PushSeqKey)
            && (r.1.Finished? && !r.0.cancelling ==> r.1.value.Some?)
    decreases |inp.issueScript| - i
  {
    if !e.cancelling && i < |inp.issueScript| {
      IssueStepFacts(e, inp, usePouch, prePull, ids, i, last);
      ApplyChangesFacts(e.vars, inp.issueScript[i].result.Changes());
      IssueLoopTurn(e, inp, usePouch, prePull, ids, i, last);
      var r := IssueStep(e, inp, usePouch, prePull, ids, i, last);
      if r.Again? {
        IssueLoopFacts(r.after, inp, usePouch, prePull, ids, i + 1, r.carry);
        PullFrameTrans(e, r.after, IssueLoop(r.after, inp, usePouch, prePull, ids, i + 1, r.carry).0);
      }
    }
  }
}
