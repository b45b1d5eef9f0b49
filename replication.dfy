/**
 * One push or pull replication as `sync()` sees it: the options it is
 * started with, the status object `push()`, `pull()` and
 * `pullFormResponses()` hand back, and the outcome of the underlying PouchDB
 * replication, which the model takes as given (a scripted attempt).
 *
 * A status (a `ReplicationStatus` object) is a map from property name to
 * value; `{...a, ...b}` is the map union `a + b`, in which `b` wins. Key
 * order of a status is not observable in the modelled flows.
 */
module Replication {
  import opened Wrappers
  import opened Strings
  import opened JsonValues
  import opened PullSelector

  type Status = map<string, Json>

  /** `status.k`, `undefined` when the property is absent. */
  function StatusGet(s: Status, k: string): Json {
    if k in s then s[k] else Undefined
  }

  /** `{...a, ...b}`, where either side may be `undefined` (None). */
  function Merge(a: Option<Status>, b: Option<Status>): (r: Status)
    ensures forall k :: StatusGet(r, k) == if b.Some? && k in b.value then b.value[k] else StatusGet(a.GetOr(map[]), k)
  {
    a.GetOr(map[]) + b.GetOr(map[])
  }

  datatype SyncDirection = Push | Pull

  /** The texts produced by `window['t']`, which the model does not compute. */
  datatype Translations = Translations(pleaseRetry: string, tryingAgain: string, retry: string)

  /** The error text `push()`/`pull()` put in a failed status: `${cause}. Trying again: Retry ${retryCount}.`. */
  function RetryText(cause: string, retryCount: int, tr: Translations): (r: string)
    ensures |r| >= |cause| + 2 && r[..|cause|] == cause
  {
    cause + ". " + tr.tryingAgain + ": " + tr.retry + IntToString(retryCount) + "."
  }

  /** How the PouchDB push replication ended: its `complete` event, or its `error` event. */
  datatype PushResult =
    | PushComplete(docsWritten: int, docWriteFailures: int, lastSeq: Json, errors: seq<string>)
    | PushFailed(error: string)

  /** How the PouchDB pull replication ended, with the `last_seq` of each `change` event before it. */
  datatype PullResult =
    | PullComplete(changes: seq<Json>, docsWritten: int, lastSeq: Json)
    | PullRejected(changes: seq<Json>, error: Json)
  {
    function Changes(): seq<Json> {
      match this
      case PullComplete(c, _, _) => c
      case PullRejected(c, _) => c
    }
  }

  /** The `info` object of a completed push. */
  function PushInfo(r: PushResult): Json
    requires r.PushComplete?
  {
    Obj([("docs_written", Num(r.docsWritten)), ("doc_write_failures", Num(r.docWriteFailures)),
         ("last_seq", r.lastSeq), ("errors", Arr(seq(|r.errors|, i requires 0 <= i < |r.errors| => Str(r.errors[i]))))])
  }

  /** The status `_push` resolves (true) or rejects (false) with. */
  function PushSettle(r: PushResult): (bool, Status) {
    match r
    case PushComplete(dw, _, _, errors) =>
      var status := map["pushed" := Num(dw), "info" := PushInfo(r), "direction" := Str("push")];
      if |errors| > 0 then (false, status["pushError" := Str(Join(errors, "; "))]) else (true, status)
    case PushFailed(e) =>
      (false, map["pushError" := Str("Push failed. error: " + e)])
  }

  /** `_push` rejects exactly when the replication reports errors or fails. */
  lemma PushSettleRejects(r: PushResult)
    ensures !PushSettle(r).0 <==> r.PushFailed? || |r.errors| > 0
    ensures !PushSettle(r).0 && r.PushComplete? ==> PushSettle(r).1["pushError"] == Str(Join(r.errors, "; "))
  {
  }

  /**
   * The status `push()` returns, given the sequence it starts from, or None
   * when it throws: a rejection whose `pushError` is empty leaves `error`
   * undefined and `error.message` throws.
   */
  function PushStatus(r: PushResult, since: Json, retryCount: int, tr: Translations): Option<Status> {
    var initial := map["pushed" := Num(0), "info" := Str(""), "remaining" := Num(0), "direction" := Str("push")];
    var (resolved, settled) := PushSettle(r);
    if resolved then
      var status := settled["pushed" := Add(Num(0), settled["pushed"])];
      Some(status["initialPushLastSeq" := since]["currentPushLastSeq" := Get(status["info"], "last_seq")])
    else
      var status := initial + settled;
      var error := StatusGet(settled, "pushError");
      if !Truthy(error) then None
      else
        var finished := status["initialPushLastSeq" := since]["currentPushLastSeq" := Get(status["info"], "last_seq")];
        Some(finished["pushError" := Str(RetryText(ToJsString(error), retryCount, tr))])
  }

  /** The `info` the push loop reads from a status. */
  function InfoOf(s: Status): Json {
    StatusGet(s, "info")
  }

  /** `docs_written` of an attempt as the loop adds it: `undefined` after a failed replication. */
  function AttemptWritten(r: PushResult): Json {
    if r.PushComplete? then Num(r.docsWritten) else Undefined
  }

  /** `v > 0` for a value compared with a number. */
  predicate Positive(v: Json) {
    ToNumber(v).Num? && ToNumber(v).n > 0
  }

  /** The condition under which the push loop counts an attempt as a success. */
  predicate PushSucceeded(s: Status) {
    !Truthy(StatusGet(s, "pushError")) && Get(InfoOf(s), "docs_written") == Num(0) && Get(InfoOf(s), "doc_write_failures") == Num(0)
  }

  /** The condition under which a failed push attempt is followed by a sleep. */
  predicate PushErrored(s: Status) {
    Truthy(StatusGet(s, "pushError")) || Positive(Get(InfoOf(s), "doc_write_failures"))
  }

  /** A completed push that wrote nothing, failed nothing and reported no error. */
  predicate CleanPush(r: PushResult) {
    r.PushComplete? && r.errors == [] && r.docsWritten == 0 && r.docWriteFailures == 0
  }

  /** What the push loop reads from the status of one attempt, stated in terms of the replication's result. */
  lemma PushStatusFacts(r: PushResult, since: Json, retryCount: int, tr: Translations)
    ensures PushStatus(r, since, retryCount, tr).None? <==> r.PushComplete? && r.errors == [""]
    ensures PushStatus(r, since, retryCount, tr).Some? ==>
              var s := PushStatus(r, since, retryCount, tr).value;
              && (PushSucceeded(s) <==> CleanPush(r))
              && (PushErrored(s) <==> r.PushFailed? || |r.errors| > 0 || r.docWriteFailures > 0)
              && Get(InfoOf(s), "docs_written") == AttemptWritten(r)
              && StatusGet(s, "initialPushLastSeq") == since
              && StatusGet(s, "currentPushLastSeq") == (if r.PushComplete? then r.lastSeq else Undefined)
              && (r.PushComplete? ==> InfoOf(s) == PushInfo(r))
              && (r.PushFailed? ==> InfoOf(s) == Str(""))
  {
    if r.PushFailed? {
      PushStatusFailed(r, since, retryCount, tr);
    } else if |r.errors| > 0 {
      PushStatusRejected(r, since, retryCount, tr);
    } else {
      PushStatusResolved(r, since, retryCount, tr);
    }
  }

  lemma PushStatusResolved(r: PushResult, since: Json, retryCount: int, tr: Translations)
    requires r.PushComplete? && r.errors == []
    ensures PushStatus(r, since, retryCount, tr).Some?
    ensures var s := PushStatus(r, since, retryCount, tr).value;
            && (PushSucceeded(s) <==> r.docsWritten == 0 && r.docWriteFailures == 0)
            && (PushErrored(s) <==> r.docWriteFailures > 0)
            && Get(InfoOf(s), "docs_written") == Num(r.docsWritten)
            && StatusGet(s, "initialPushLastSeq") == since
            && StatusGet(s, "currentPushLastSeq") == r.lastSeq
            && InfoOf(s) == PushInfo(r)
  {
    PushInfoFields(r);
    var settled := map["pushed" := Num(r.docsWritten), "info" := PushInfo(r), "direction" := Str("push")];
    assert PushSettle(r) == (true, settled);
    var s := settled["pushed" := Num(r.docsWritten)]["initialPushLastSeq" := since]["currentPushLastSeq" := r.lastSeq];
    assert PushStatus(r, since, retryCount, tr) == Some(s);
    assert "pushError" !in s by {
      assert s.Keys == {"pushed", "info", "direction", "initialPushLastSeq", "currentPushLastSeq"};
      assert "pushError"[4] != "pushed"[4];
      assert "pushError"[0] != "info"[0] && "pushError"[0] != "direction"[0];
      assert "pushError"[0] != "initialPushLastSeq"[0] && "pushError"[0] != "currentPushLastSeq"[0];
    }
    assert InfoOf(s) == PushInfo(r);
  }

  /** The property names of a push status that the loops read are pairwise different. */
  lemma PushStatusKeysDistinct()
    ensures "info" != "pushError" && "info" != "initialPushLastSeq" && "info" != "currentPushLastSeq"
    ensures "initialPushLastSeq" != "currentPushLastSeq" && "initialPushLastSeq" != "pushError"
    ensures "currentPushLastSeq" != "pushError"
  {
    assert "info"[0] != "pushError"[0] && "info"[2] != "initialPushLastSeq"[2] && "info"[0] != "currentPushLastSeq"[0];
    assert "initialPushLastSeq"[0] != "currentPushLastSeq"[0] && "initialPushLastSeq"[0] != "pushError"[0];
    assert "currentPushLastSeq"[0] != "pushError"[0];
  }

  lemma PushStatusRejected(r: PushResult, since: Json, retryCount: int, tr: Translations)
    requires r.PushComplete? && |r.errors| > 0
    ensures PushStatus(r, since, retryCount, tr).None? <==> r.errors == [""]
    ensures PushStatus(r, since, retryCount, tr).Some? ==>
              var s := PushStatus(r, since, retryCount, tr).value;
              && !PushSucceeded(s) && PushErrored(s)
              && Get(InfoOf(s), "docs_written") == Num(r.docsWritten)
              && StatusGet(s, "initialPushLastSeq") == since
              && StatusGet(s, "currentPushLastSeq") == r.lastSeq
              && InfoOf(s) == PushInfo(r)
  {
    JoinEmpty(r.errors, "; ");
    var joined := Str(Join(r.errors, "; "));
    var settled := map["pushed" := Num(r.docsWritten), "info" := PushInfo(r), "direction" := Str("push")]["pushError" := joined];
    assert PushSettle(r) == (false, settled);
    var initial := map["pushed" := Num(0), "info" := Str(""), "remaining" := Num(0), "direction" := Str("push")];
    var status := initial + settled;
    assert "info" in status && status["info"] == PushInfo(r) by {
      assert "info"[0] != "pushError"[0];
    }
    if Truthy(joined) {
      var text := RetryText(ToJsString(joined), retryCount, tr);
      var s := status["initialPushLastSeq" := since]["currentPushLastSeq" := r.lastSeq]["pushError" := Str(text)];
      PushInfoFields(r);
      assert PushStatus(r, since, retryCount, tr) == Some(s);
      RejectedStatusFields(r, status, since, text);
    } else {
      assert PushStatus(r, since, retryCount, tr).None?;
    }
  }

  /** The fields the push loop reads from the status of a rejected push. */
  lemma RejectedStatusFields(r: PushResult, status: Status, since: Json, text: string)
    requires r.PushComplete? && "info" in status && status["info"] == PushInfo(r) && text != ""
    ensures var s := status["initialPushLastSeq" := since]["currentPushLastSeq" := r.lastSeq]["pushError" := Str(text)];
            && !PushSucceeded(s) && PushErrored(s)
            && Get(InfoOf(s), "docs_written") == Num(r.docsWritten)
            && StatusGet(s, "initialPushLastSeq") == since
            && StatusGet(s, "currentPushLastSeq") == r.lastSeq
            && InfoOf(s) == PushInfo(r)
  {
    PushInfoFields(r);
    PushStatusKeysDistinct();
  }

  lemma PushStatusFailed(r: PushResult, since: Json, retryCount: int, tr: Translations)
    requires r.PushFailed?
    ensures PushStatus(r, since, retryCount, tr).Some?
    ensures var s := PushStatus(r, since, retryCount, tr).value;
            && !PushSucceeded(s) && PushErrored(s)
            && Get(InfoOf(s), "docs_written") == Undefined
            && StatusGet(s, "initialPushLastSeq") == since
            && StatusGet(s, "currentPushLastSeq") == Undefined
            && InfoOf(s) == Str("")
  {
    var s := PushStatus(r, since, retryCount, tr).value;
    assert InfoOf(s) == Str("");
    assert Truthy(StatusGet(s, "pushError"));
  }

  lemma PushInfoFields(r: PushResult)
    requires r.PushComplete?
    ensures Get(PushInfo(r), "docs_written") == Num(r.docsWritten)
    ensures Get(PushInfo(r), "doc_write_failures") == Num(r.docWriteFailures)
    ensures Get(PushInfo(r), "last_seq") == r.lastSeq
  {
    var f := PushInfo(r).fields;
    LookupStep(f, "doc_write_failures");
    LookupStep(f[1..], "doc_write_failures");
    LookupStep(f, "last_seq");
    LookupStep(f[1..], "last_seq");
    assert f[1..][1..] == f[2..];
    LookupStep(f[2..], "last_seq");
  }

  /** Joining with "; " gives the empty string only for one empty message. */
  lemma JoinEmpty(parts: seq<string>, sep: string)
    requires |parts| > 0 && sep != ""
    ensures Join(parts, sep) == "" <==> parts == [""]
  {
    if |parts| > 1 {
      assert |Join(parts, sep)| >= |sep|;
    }
  }

  /** The push filter: a document is pushed unless the first seven characters of its id are `_design`. */
  predicate PushFilter(id: string) {
    id[..if |id| < 7 then |id| else 7] != "_design"
  }

  lemma PushFilterIsDesignPrefix(id: string)
    ensures PushFilter(id) <==> !StartsWith(id, "_design")
  {
  }

  datatype Checkpoint = Source | Target

  /** The options object a replication is started with. */
  datatype ReplicationOptions = ReplicationOptions(
    since: Option<Json>,
    batchSize: int,
    writeBatchSize: Option<int>,
    batchesLimit: int,
    changesBatchSize: int,
    remaining: Option<int>,
    checkpoint: Checkpoint,
    filtersDesignDocs: bool,
    selector: Option<seq<Clause>>,
    docIds: Option<seq<string>>)

  /** The options `push()` builds. */
  function PushOptions(usePouchDbTracking: bool, since: Json, batchSize: int, changesBatchSize: int)
    : (o: ReplicationOptions)
    ensures o.since.None? <==> usePouchDbTracking
    ensures o.since.Some? ==> o.since.value == since
    ensures o.batchSize == batchSize && o.changesBatchSize == changesBatchSize && o.batchesLimit == 1
    ensures o.checkpoint == Source && o.filtersDesignDocs && o.remaining == Some(100)
    ensures o.selector.None? && o.docIds.None? && o.writeBatchSize.None?
  {
    ReplicationOptions(if usePouchDbTracking then None else Some(since), batchSize, None, 1, changesBatchSize,
                       Some(100), Source, true, None, None)
  }

  /** The options `pull()` (a selector) or `pullFormResponses()` (document ids) builds. */
  function PullOptions(usePouchDbTracking: bool, since: Json, batchSize: int, writeBatchSize: int,
                       changesBatchSize: int, selector: Option<seq<Clause>>, docIds: Option<seq<string>>)
    : (o: ReplicationOptions)
    ensures o.since.None? <==> usePouchDbTracking
    ensures o.since.Some? ==> o.since.value == since
    ensures o.batchSize == batchSize && o.writeBatchSize == Some(writeBatchSize) && o.batchesLimit == 1
    ensures o.changesBatchSize == changesBatchSize && o.checkpoint == Target && !o.filtersDesignDocs
    ensures o.selector == selector && o.docIds == docIds && o.remaining.None?
  {
    ReplicationOptions(if usePouchDbTracking then None else Some(since), batchSize, Some(writeBatchSize), 1,
                       changesBatchSize, None, Target, false, selector, docIds)
  }

  /** The status `_pull` resolves with. */
  function PullSettled(r: PullResult): Status
    requires r.PullComplete?
  {
    map["pulled" := Num(r.docsWritten),
        "info" := Obj([("docs_written", Num(r.docsWritten)), ("last_seq", r.lastSeq)]),
        "direction" := Str("pull")]
  }

  /**
   * The status `pull()`/`pullFormResponses()` returns after the replication
   * ran, given the sequence recorded as `initialPullLastSeq`, or None when it
   * throws (a rejection with `null` or `undefined`, where `error.message`
   * throws).
   */
  function PullStatus(r: PullResult, since: Json, retryCount: int, batchSize: int, tr: Translations): Option<Status> {
    var initial := map["pulled" := Num(0), "pullError" := Str(""), "pullConflicts" := Arr([]), "info" := Str(""),
                       "remaining" := Num(0), "direction" := Str("pull")];
    match r
    case PullComplete(_, _, _) =>
      var settled := PullSettled(r);
      var status := settled["pulled" := Add(Num(0), settled["pulled"])];
      Some(status["initialPullLastSeq" := since]["currentPushLastSeq" := Get(status["info"], "last_seq")]
                 ["batchSize" := Num(batchSize)])
    case PullRejected(_, error) =>
      match Member(error, "message")
      case None => None
      case Some(message) =>
        var cause := if Truthy(message) then ToJsString(message) else ToJsString(error);
        var status := initial["initialPullLastSeq" := since]["currentPushLastSeq" := Undefined]
                             ["batchSize" := Num(batchSize)];
        Some(status["pullError" := Str(RetryText(cause, retryCount, tr))])
  }

  /** The condition under which the pull loops count an attempt as a success. */
  predicate PullSucceeded(s: Status) {
    !Truthy(StatusGet(s, "pullError"))
  }

  /** What the pull loops read from a status, stated in terms of the replication's result. */
  lemma PullStatusFacts(r: PullResult, since: Json, retryCount: int, batchSize: int, tr: Translations)
    ensures PullStatus(r, since, retryCount, batchSize, tr).None? <==> r.PullRejected? && (r.error.Undefined? || r.error.Null?)
    ensures PullStatus(r, since, retryCount, batchSize, tr).Some? ==>
              var s := PullStatus(r, since, retryCount, batchSize, tr).value;
              && (PullSucceeded(s) <==> r.PullComplete?)
              && (r.PullComplete? ==> Get(InfoOf(s), "last_seq") == r.lastSeq && StatusGet(s, "pulled") == Num(r.docsWritten))
              && (r.PullComplete? ==> "pullError" !in s)
              && StatusGet(s, "initialPullLastSeq") == since
              && StatusGet(s, "batchSize") == Num(batchSize)
  {
    if r.PullComplete? {
      PullStatusComplete(r, since, retryCount, batchSize, tr);
    } else {
      PullStatusRejected(r, since, retryCount, batchSize, tr);
    }
  }

  lemma PullStatusComplete(r: PullResult, since: Json, retryCount: int, batchSize: int, tr: Translations)
    requires r.PullComplete?
    ensures PullStatus(r, since, retryCount, batchSize, tr).Some?
    ensures var s := PullStatus(r, since, retryCount, batchSize, tr).value;
            && Get(InfoOf(s), "last_seq") == r.lastSeq && StatusGet(s, "pulled") == Num(r.docsWritten)
            && "pullError" !in s
            && StatusGet(s, "initialPullLastSeq") == since
            && StatusGet(s, "batchSize") == Num(batchSize)
  {
    PullStatusKeysDistinct();
    var f := [("docs_written", Num(r.docsWritten)), ("last_seq", r.lastSeq)];
    LookupStep(f, "last_seq");
    LookupStep(f[1..], "last_seq");
    var st := PullSettled(r)["pulled" := Num(r.docsWritten)];
    var s := st["initialPullLastSeq" := since]["currentPushLastSeq" := r.lastSeq]["batchSize" := Num(batchSize)];
    assert PullStatus(r, since, retryCount, batchSize, tr) == Some(s);
    assert s.Keys == {"pulled", "info", "direction", "initialPullLastSeq", "currentPushLastSeq", "batchSize"};
  }

  lemma PullStatusRejected(r: PullResult, since: Json, retryCount: int, batchSize: int, tr: Translations)
    requires r.PullRejected?
    ensures PullStatus(r, since, retryCount, batchSize, tr).None? <==> r.error.Undefined? || r.error.Null?
    ensures PullStatus(r, since, retryCount, batchSize, tr).Some? ==>
              var s := PullStatus(r, since, retryCount, batchSize, tr).value;
              && !PullSucceeded(s)
              && StatusGet(s, "initialPullLastSeq") == since
              && StatusGet(s, "batchSize") == Num(batchSize)
  {
    PullStatusKeysDistinct();
  }

  /** The property names of a pull status that the loops read are pairwise different. */
  lemma PullStatusKeysDistinct()
    ensures "pullError" !in {"pulled", "info", "direction", "initialPullLastSeq", "currentPushLastSeq", "batchSize"}
    ensures "initialPullLastSeq" != "currentPushLastSeq" && "initialPullLastSeq" != "batchSize" && "initialPullLastSeq" != "pullError"
    ensures "batchSize" != "currentPushLastSeq" && "batchSize" != "pullError"
    ensures "pulled" != "initialPullLastSeq" && "pulled" != "currentPushLastSeq" && "pulled" != "batchSize"
    ensures "info" != "initialPullLastSeq" && "info" != "currentPushLastSeq" && "info" != "batchSize"
  {
    assert "pullError"[4] != "pulled"[4] && "pullError"[0] != "info"[0] && "pullError"[0] != "direction"[0];
    assert "pullError"[0] != "initialPullLastSeq"[0] && "pullError"[0] != "currentPushLastSeq"[0] && "pullError"[0] != "batchSize"[0];
    assert "initialPullLastSeq"[0] != "currentPushLastSeq"[0] && "initialPullLastSeq"[0] != "batchSize"[0];
    assert "batchSize"[0] != "currentPushLastSeq"[0];
    assert "pulled"[0] != "initialPullLastSeq"[0] && "pulled"[0] != "currentPushLastSeq"[0] && "pulled"[0] != "batchSize"[0];
    assert "info"[2] != "initialPullLastSeq"[2] && "info"[0] != "currentPushLastSeq"[0] && "info"[0] != "batchSize"[0];
  }
}
