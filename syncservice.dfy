/**
 * `SyncService`: the client-side front of sync. Its `sync()` runs the sync
 * engine and post-processes the status it settles with; `compareDocs`
 * replicates the documents one side has and the other does not;
 * `indexViews` builds the view indexes; `deleteArchivedDocs` removes the
 * archived documents that changed since the last push.
 */
module SyncService {
  import opened Wrappers
  import opened Strings
  import opened JsonValues
  import opened Replication
  import opened SyncEngine
  import opened SyncCouchdb
  import opened Paging
  import opened CompareDocs
  import opened IndexViews
  import opened SyncLocations
  import opened PullSelector

  const ReducedCompareBatchSize := 10
  const ReducedCompareWriteBatchSize := 10
  const ReducedCompareLimit := 10

  /** The app configuration fields the service reads (its own batch sizes and limits, indexing and statistics). */
  datatype ServiceConfig = ServiceConfig(
    batchSize: Option<int>,
    writeBatchSize: Option<int>,
    compareLimit: Option<nat>,
    calculateLocalDocsForLocation: bool,
    indexViewsOnlyOnFirstSync: bool,
    homeUrl: string,
    doNotOptimize: Json)

  /** The value stored under `fullSync`: the direction's enum string. */
  function DirectionName(d: SyncDirection): string {
    match d
    case Push => "push"
    case Pull => "pull"
  }

  /**
   * The engine's status after `sync()` has recorded `fullSync` (when given),
   * the local form statistics (when configured) and reset `pullConflicts`.
   */
  function WrappedStatus(s: Status, fullSync: Option<SyncDirection>, calculate: bool, formStats: Json): (r: Status)
    ensures StatusGet(r, "pullConflicts") == Arr([])
    ensures StatusGet(r, "fullSync") == if fullSync.Some? then Str(DirectionName(fullSync.value)) else StatusGet(s, "fullSync")
    ensures calculate ==> StatusGet(r, "localDocsForLocation") == formStats
    ensures forall k :: k != "fullSync" && k != "localDocsForLocation" && k != "pullConflicts" ==> StatusGet(r, k) == StatusGet(s, k)
  {
    var f := if fullSync.Some? then s["fullSync" := Str(DirectionName(fullSync.value))] else s;
    var c := if calculate then f["localDocsForLocation" := formStats] else f;
    c["pullConflicts" := Arr([])]
  }

  /**
   * What `sync()` settles with, given what the engine settled with. An
   * `undefined` status makes recording `fullSync` or the form statistics
   * throw; resetting `pullConflicts` on it throws inside the telemetry
   * `try`, which is caught.
   */
  function Wrapped(engine: SyncOutcome, fullSync: Option<SyncDirection>, calculate: bool, formStats: Json): (r: SyncOutcome)
    ensures engine.Rejected? ==> r.Rejected?
    ensures engine.StillRetrying? ==> r.StillRetrying?
    ensures engine == Resolved(None) ==> r == if fullSync.Some? || calculate then Rejected else Resolved(None)
    ensures engine.Resolved? && engine.status.Some? ==> r == Resolved(Some(WrappedStatus(engine.status.value, fullSync, calculate, formStats)))
  {
    match engine
    case Resolved(Some(s)) => Resolved(Some(WrappedStatus(s, fullSync, calculate, formStats)))
    case Resolved(None) => if fullSync.Some? || calculate then Rejected else Resolved(None)
    case _ => engine
  }

  /** Whether `sync()` reaches the indexing step and indexes: it does unless it rejected, on a first sync or when indexing is not limited to first syncs. */
  predicate SyncIndexes(r: SyncOutcome, isFirstSync: bool, cfg: ServiceConfig) {
    r.Resolved? && (isFirstSync || !cfg.indexViewsOnlyOnFirstSync)
  }

  /** The docs among the changes that exist locally and carry a truthy `archived`. */
  function Archived(changes: seq<string>, docs: map<string, Json>): set<string> {
    set id | id in changes && id in docs && Truthy(Get(docs[id], "archived"))
  }

  /** Each removed doc is one of the changes, so at most as many docs go as there are changes. */
  lemma {:induction false} ArchivedBound(changes: seq<string>, docs: map<string, Json>)
    ensures |Archived(changes, docs)| <= |changes|
    decreases |changes|
  {
    if changes != [] {
      var init := changes[..|changes| - 1];
      ArchivedBound(init, docs);
      assert changes == init + [changes[|changes| - 1]];
      var x := changes[|changes| - 1];
      assert Archived(changes, docs) == Archived(init, docs) + (if x in docs && Truthy(Get(docs[x], "archived")) then {x} else {});
    }
  }

  /** The local database as `deleteArchivedDocs` sees it: the live docs by id. */
  class LocalDb {
    var docs: map<string, Json>

    constructor (docs: map<string, Json>)
      ensures this.docs == docs
    {
      this.docs := docs;
    }
  }

  class SyncService {
    const syncCouchdbService: SyncCouchdbService
    /** The status of the last `sync()` or `compareDocs`. */
    var replicationStatus: Option<Status>
    var batchSize: int
    var writeBatchSize: int
    var compareLimit: nat
    /** The replications `compareDocs` started, with their options. */
    var replications: seq<CompareOptions>
    /** The statuses sent to the server with `didSync`. */
    var reports: seq<Status>
    /** Every view query issued by `indexViews`, in order. */
    var queried: seq<string>
    /** The views whose query threw. */
    var failures: seq<string>

    constructor (engine: SyncCouchdbService)
      ensures syncCouchdbService == engine && replicationStatus.None?
      ensures batchSize == 200 && writeBatchSize == 50 && compareLimit == 150
      ensures replications == [] && reports == [] && queried == [] && failures == []
    {
      syncCouchdbService := engine;
      replicationStatus := None;
      batchSize := 200;
      writeBatchSize := 50;
      compareLimit := 150;
      replications := [];
      reports := [];
      queried := [];
      failures := [];
    }

    /**
     * `sync()`: the engine's `sync()`, then the post-processing. A failure
     * while gathering or sending the telemetry is caught: it only keeps the
     * status from being reported.
     */
    method Sync(inp: SyncInputs, cfg: ServiceConfig, formStats: Json, src: ViewSource, failing: set<string>,
                telemetryFails: bool)
      returns (outcome: SyncOutcome)
      modifies this, syncCouchdbService
      ensures syncCouchdbService.State() == SyncEngine.Sync(old(syncCouchdbService.State()), inp).0
      ensures outcome == Wrapped(SyncEngine.Sync(old(syncCouchdbService.State()), inp).1, inp.fullSync,
                                 cfg.calculateLocalDocsForLocation, formStats)
      ensures outcome.Resolved? ==> replicationStatus == outcome.status
      ensures reports == old(reports) + if outcome.Resolved? && outcome.status.Some? && !telemetryFails then [outcome.status.value] else []
      ensures var views := if SyncIndexes(outcome, inp.isFirstSync, cfg) then ViewsToIndex(cfg.homeUrl == "case-home", src, cfg.doNotOptimize) else [];
        queried == old(queried) + views && failures == old(failures) + FailedViews(views, failing)
      ensures batchSize == old(batchSize) && writeBatchSize == old(writeBatchSize) && compareLimit == old(compareLimit)
      ensures replications == old(replications)
    {
      var engine := syncCouchdbService.Sync(inp);
      outcome := AfterEngine(engine, inp.isFirstSync, inp.fullSync, cfg, formStats, src, failing, telemetryFails);
    }

    /** What `sync()` does once the engine has settled with `engine`. */
    method AfterEngine(engine: SyncOutcome, isFirstSync: bool, fullSync: Option<SyncDirection>, cfg: ServiceConfig,
                       formStats: Json, src: ViewSource, failing: set<string>, telemetryFails: bool)
      returns (outcome: SyncOutcome)
      modifies this
      ensures outcome == Wrapped(engine, fullSync, cfg.calculateLocalDocsForLocation, formStats)
      ensures outcome.Resolved? ==> replicationStatus == outcome.status
      ensures reports == old(reports) + if outcome.Resolved? && outcome.status.Some? && !telemetryFails then [outcome.status.value] else []
      ensures var views := if SyncIndexes(outcome, isFirstSync, cfg) then ViewsToIndex(cfg.homeUrl == "case-home", src, cfg.doNotOptimize) else [];
        queried == old(queried) + views && failures == old(failures) + FailedViews(views, failing)
      ensures batchSize == old(batchSize) && writeBatchSize == old(writeBatchSize) && compareLimit == old(compareLimit)
      ensures replications == old(replications)
    {
      if !engine.Resolved? {
        return engine;
      }
      replicationStatus := engine.status;
      if replicationStatus.None? && (fullSync.Some? || cfg.calculateLocalDocsForLocation) {
        return Rejected;
      }
      outcome := AfterResolved(isFirstSync, fullSync, cfg, formStats, src, failing, telemetryFails);
    }

    /** The rest of `sync()` once the engine resolved with the status now held in `replicationStatus`. */
    method AfterResolved(isFirstSync: bool, fullSync: Option<SyncDirection>, cfg: ServiceConfig,
                         formStats: Json, src: ViewSource, failing: set<string>, telemetryFails: bool)
      returns (outcome: SyncOutcome)
      requires replicationStatus.Some? || !(fullSync.Some? || cfg.calculateLocalDocsForLocation)
      modifies this
      ensures outcome == Wrapped(Resolved(old(replicationStatus)), fullSync, cfg.calculateLocalDocsForLocation, formStats)
      ensures replicationStatus == outcome.status
      ensures reports == old(reports) + if outcome.status.Some? && !telemetryFails then [outcome.status.value] else []
      ensures var views := if SyncIndexes(outcome, isFirstSync, cfg) then ViewsToIndex(cfg.homeUrl == "case-home", src, cfg.doNotOptimize) else [];
        queried == old(queried) + views && failures == old(failures) + FailedViews(views, failing)
      ensures batchSize == old(batchSize) && writeBatchSize == old(writeBatchSize) && compareLimit == old(compareLimit)
      ensures replications == old(replications)
    {
      if replicationStatus.Some? {
        var s := RecordStatus(replicationStatus.value, fullSync, cfg.calculateLocalDocsForLocation, formStats, telemetryFails);
      }
      outcome := Resolved(replicationStatus);
      IndexAfterSync(outcome, isFirstSync, cfg, src, failing);
    }

    /** The indexing step once `sync()` has its outcome: skipped after a first sync when indexing is limited to first syncs. */
    method IndexAfterSync(outcome: SyncOutcome, isFirstSync: bool, cfg: ServiceConfig, src: ViewSource, failing: set<string>)
      requires outcome.Resolved?
      modifies this
      ensures var views := if SyncIndexes(outcome, isFirstSync, cfg) then ViewsToIndex(cfg.homeUrl == "case-home", src, cfg.doNotOptimize) else [];
        queried == old(queried) + views && failures == old(failures) + FailedViews(views, failing)
      ensures replicationStatus == old(replicationStatus) && reports == old(reports) && replications == old(replications)
      ensures batchSize == old(batchSize) && writeBatchSize == old(writeBatchSize) && compareLimit == old(compareLimit)
    {
      if isFirstSync || !cfg.indexViewsOnlyOnFirstSync {
        IndexViews(cfg, src, failing);
      }
    }

    /** Records `fullSync`, the form statistics and the emptied `pullConflicts` on the status, then reports it unless the telemetry call fails. */
    method RecordStatus(status: Status, fullSync: Option<SyncDirection>, calculate: bool, formStats: Json, telemetryFails: bool)
      returns (s: Status)
      modifies this
      ensures s == WrappedStatus(status, fullSync, calculate, formStats)
      ensures replicationStatus == Some(s)
      ensures reports == old(reports) + if !telemetryFails then [s] else []
      ensures batchSize == old(batchSize) && writeBatchSize == old(writeBatchSize) && compareLimit == old(compareLimit)
      ensures replications == old(replications) && queried == old(queried) && failures == old(failures)
    {
      s := status;
      if fullSync.Some? {
        s := s["fullSync" := Str(DirectionName(fullSync.value))];
      }
      if calculate {
        s := s["localDocsForLocation" := formStats];
      }
      s := s["pullConflicts" := Arr([])];
      replicationStatus := Some(s);
      if !telemetryFails {
        reports := reports + [s];
      }
    }

    /**
     * `compareDocs(direction, reduceBatchSize)`: the local rows through
     * `allDocs` paging, the pull selector of the device's forms and sync
     * locations (which throws on an empty location path), the remote docs
     * through `find` paging, the candidates, then one replication of them
     * when there are any; the replication's own outcome is given
     * (`replicated`, None when it throws). The details `compareDocs` builds
     * carry no `disableDeviceUserFilteringByAssignment`, so the selector is
     * built with that flag false.
     */
    method CompareDocs(direction: string, reduceBatchSize: bool, cfg: ServiceConfig, localIds: seq<string>,
                       forms: seq<FormInfo>, locs: seq<LocationConfig>, deviceId: string,
                       remotePages: seq<FindPage>, profiles: seq<UserProfile>, replicated: Option<Status>, formStats: Json,
                       src: ViewSource, failing: set<string>, telemetryFails: bool)
      returns (outcome: Option<Status>)
      requires StrictlySorted(localIds)
      modifies this
      ensures batchSize == if reduceBatchSize then ReducedCompareBatchSize else OrElse(cfg.batchSize, old(batchSize))
      ensures writeBatchSize == if reduceBatchSize then ReducedCompareWriteBatchSize else OrElse(cfg.writeBatchSize, old(writeBatchSize))
      ensures compareLimit == if reduceBatchSize then ReducedCompareLimit
        else if cfg.compareLimit.Some? && cfg.compareLimit.value != 0 then cfg.compareLimit.value else old(compareLimit)
      ensures GetPullSelector(forms, locs, deviceId, false).None? ==> outcome.None? && replications == old(replications)
      ensures var c := Compare(direction, AllDocsCollected(localIds, compareLimit), Concat(remotePages[..FirstEmpty(remotePages)]), profiles);
        var selected := GetPullSelector(forms, locs, deviceId, false).Some?;
        && outcome.Some? == (selected && c.Some?)
        && (selected && c.Some? ==> outcome.value == CompareReport(ComparedStatus(c.value.ids, replicated), direction,
                                                       cfg.calculateLocalDocsForLocation, formStats,
                                                       |c.value.local|, |c.value.remote|, |c.value.ids|))
        && replications == old(replications) + if selected && c.Some? && c.value.ids != [] then [CompareOptionsFor(direction, batchSize, writeBatchSize, c.value.ids)] else []
      ensures outcome.None? ==> (replicationStatus == old(replicationStatus) && reports == old(reports)
        && queried == old(queried) && failures == old(failures))
      ensures outcome.Some? ==> (replicationStatus == outcome
        && reports == old(reports) + (if telemetryFails then [] else [outcome.value]))
      ensures var views := if outcome.Some? && !cfg.indexViewsOnlyOnFirstSync then ViewsToIndex(cfg.homeUrl == "case-home", src, cfg.doNotOptimize) else [];
        queried == old(queried) + views && failures == old(failures) + FailedViews(views, failing)
    {
      ConfigureComparison(reduceBatchSize, cfg);
      var localDocs := PageAllDocs(localIds, compareLimit);
      var selector := GetPullSelector(forms, locs, deviceId, false);
      if selector.None? {
        return None;
      }
      var remoteDocs, _ := PageFind(remotePages);
      var c := Candidates(direction, localDocs, remoteDocs, profiles);
      if c.None? {
        return None;
      }
      outcome := ReplicateCandidates(direction, cfg, c.value, replicated, formStats, src, failing, telemetryFails);
    }

    /** The batch sizes and the comparison limit `compareDocs` sets before paging. */
    method ConfigureComparison(reduceBatchSize: bool, cfg: ServiceConfig)
      modifies this
      ensures batchSize == if reduceBatchSize then ReducedCompareBatchSize else OrElse(cfg.batchSize, old(batchSize))
      ensures writeBatchSize == if reduceBatchSize then ReducedCompareWriteBatchSize else OrElse(cfg.writeBatchSize, old(writeBatchSize))
      ensures compareLimit == if reduceBatchSize then ReducedCompareLimit
        else if cfg.compareLimit.Some? && cfg.compareLimit.value != 0 then cfg.compareLimit.value else old(compareLimit)
      ensures replicationStatus == old(replicationStatus) && reports == old(reports) && replications == old(replications)
      ensures queried == old(queried) && failures == old(failures)
    {
      batchSize := if reduceBatchSize then ReducedCompareBatchSize else OrElse(cfg.batchSize, batchSize);
      writeBatchSize := if reduceBatchSize then ReducedCompareWriteBatchSize else OrElse(cfg.writeBatchSize, writeBatchSize);
      compareLimit := if reduceBatchSize then ReducedCompareLimit
        else if cfg.compareLimit.Some? && cfg.compareLimit.value != 0 then cfg.compareLimit.value else compareLimit;
    }

    /**
     * The comparison step of `compareDocs`: the initial profile's row is
     * spliced out of the local rows, the roles are chosen by direction (an
     * unknown direction leaves no source docs, and iterating them throws),
     * and `idsToSync` is filled source doc by source doc.
     */
    method Candidates(direction: string, collected: seq<string>, remoteDocs: seq<string>, profiles: seq<UserProfile>)
      returns (c: Option<Comparison>)
      ensures c == Compare(direction, collected, remoteDocs, profiles)
    {
      var localDocs := collected;
      match FindInitialProfile(profiles) {
        case Throws => return None;
        case NotFound =>
        case Found(id) => localDocs := RemoveFirst(localDocs, id);
      }
      var sourceDocs, targetDocs;
      if direction == "push" {
        sourceDocs, targetDocs := localDocs, remoteDocs;
      } else if direction == "pull" {
        sourceDocs, targetDocs := remoteDocs, localDocs;
      } else {
        return None;
      }
      var idsToSync := SelectCandidates(sourceDocs, targetDocs);
      c := Some(Comparison(localDocs, remoteDocs, idsToSync));
    }

    /** The `forEach` over the source ids: each one missing from the target and free of `_design` is pushed, in order. */
    method SelectCandidates(sourceDocs: seq<string>, targetDocs: seq<string>) returns (idsToSync: seq<string>)
      ensures idsToSync == IdsToSync(sourceDocs, targetDocs)
    {
      idsToSync := [];
      var i := 0;
      while i < |sourceDocs|
        invariant i <= |sourceDocs|
        invariant idsToSync == IdsToSync(sourceDocs[..i], targetDocs)
      {
        assert sourceDocs[..i + 1][..i] == sourceDocs[..i];
        if sourceDocs[i] !in targetDocs && !Contains(sourceDocs[i], "_design") {
          idsToSync := idsToSync + [sourceDocs[i]];
        }
        i := i + 1;
      }
      assert sourceDocs[..i] == sourceDocs;
    }

    /**
     * The replication step of `compareDocs` and its report: one replication
     * of the candidates when there are any, then the counts, the status
     * sent, and the indexing.
     */
    method ReplicateCandidates(direction: string, cfg: ServiceConfig, c: Comparison, replicated: Option<Status>,
                               formStats: Json, src: ViewSource, failing: set<string>, telemetryFails: bool)
      returns (outcome: Option<Status>)
      modifies this
      ensures outcome == Some(CompareReport(ComparedStatus(c.ids, replicated), direction, cfg.calculateLocalDocsForLocation,
                                            formStats, |c.local|, |c.remote|, |c.ids|))
      ensures replications == old(replications) + if c.ids != [] then [CompareOptionsFor(direction, batchSize, writeBatchSize, c.ids)] else []
      ensures replicationStatus == outcome && reports == old(reports) + (if telemetryFails then [] else [outcome.value])
      ensures var views := if !cfg.indexViewsOnlyOnFirstSync then ViewsToIndex(cfg.homeUrl == "case-home", src, cfg.doNotOptimize) else [];
        queried == old(queried) + views && failures == old(failures) + FailedViews(views, failing)
      ensures batchSize == old(batchSize) && writeBatchSize == old(writeBatchSize) && compareLimit == old(compareLimit)
    {
      var status := InitialCompareStatus;
      if |c.ids| > 0 {
        replications := replications + [CompareOptionsFor(direction, batchSize, writeBatchSize, c.ids)];
        if replicated.Some? {
          status := replicated.value;
          status := status["pushed" := Counted(StatusGet(status, "pushed"))];
          status := status["pulled" := Counted(StatusGet(status, "pulled"))];
        }
      } else {
        status := status["pushed" := Num(0)];
      }
      status := CompareReport(status, direction, cfg.calculateLocalDocsForLocation, formStats, |c.local|, |c.remote|, |c.ids|);
      replicationStatus := Some(status);
      if !telemetryFails {
        reports := reports + [status];
      }
      if !cfg.indexViewsOnlyOnFirstSync {
        IndexViews(cfg, src, failing);
      }
      outcome := Some(status);
    }

    /**
     * `indexViews`: builds the list of views, drops those `doNotOptimize`
     * names, then queries each one; a query that throws (`failing`) is
     * caught and the loop goes on.
     */
    method IndexViews(cfg: ServiceConfig, src: ViewSource, failing: set<string>)
      modifies this
      ensures var views := ViewsToIndex(cfg.homeUrl == "case-home", src, cfg.doNotOptimize);
        queried == old(queried) + views && failures == old(failures) + FailedViews(views, failing)
      ensures replicationStatus == old(replicationStatus) && reports == old(reports) && replications == old(replications)
      ensures batchSize == old(batchSize) && writeBatchSize == old(writeBatchSize) && compareLimit == old(compareLimit)
    {
      var viewsToOptimize := BuildViewList(cfg.homeUrl == "case-home", src);
      if cfg.doNotOptimize.Arr? {
        viewsToOptimize := WithoutExcluded(viewsToOptimize, cfg.doNotOptimize.items);
      }
      QueryViews(viewsToOptimize, failing);
    }

    /** Queries each view in turn; a query that throws is caught and recorded. */
    method QueryViews(views: seq<string>, failing: set<string>)
      modifies this
      ensures queried == old(queried) + views && failures == old(failures) + FailedViews(views, failing)
      ensures replicationStatus == old(replicationStatus) && reports == old(reports) && replications == old(replications)
      ensures batchSize == old(batchSize) && writeBatchSize == old(writeBatchSize) && compareLimit == old(compareLimit)
    {
      var k := 0;
      while k < |views|
        invariant k <= |views|
        invariant queried == old(queried) + views[..k]
        invariant failures == old(failures) + FailedViews(views[..k], failing)
        invariant replicationStatus == old(replicationStatus) && reports == old(reports) && replications == old(replications)
        invariant batchSize == old(batchSize) && writeBatchSize == old(writeBatchSize) && compareLimit == old(compareLimit)
      {
        assert views[..k + 1][..k] == views[..k];
        var view := views[k];
        queried := queried + [view];
        if view in failing {
          failures := failures + [view];
        }
        k := k + 1;
      }
      assert views[..k] == views;
    }

    /** The view list, pushed entry by entry. */
    method BuildViewList(caseHome: bool, src: ViewSource) returns (views: seq<string>)
      ensures views == ViewList(caseHome, src)
    {
      views := [];
      if caseHome {
        views := views + ["search"];
        views := views + ["case-events-by-all-days"];
        views := views + ["tangy-form/responsesByFormId"];
        if src.queryIds.Some? {
          views := PushAll(views, src.queryIds.value);
        }
      } else {
        var rows := src.designDocs;
        var r := 0;
        while r < |rows|
          invariant r <= |rows|
          invariant views == DesignDocViews(rows[..r])
        {
          assert rows[..r + 1][..r] == rows[..r];
          views := PushRowViews(views, rows[r]);
          r := r + 1;
        }
        assert rows[..r] == rows;
      }
    }

    /** `views.push(id)` for each custom query id. */
    method PushAll(views: seq<string>, ids: seq<string>) returns (r: seq<string>)
      ensures r == views + ids
    {
      r := views;
      var q := 0;
      while q < |ids|
        invariant q <= |ids|
        invariant r == views + ids[..q]
      {
        assert ids[..q + 1] == ids[..q] + [ids[q]];
        r := r + [ids[q]];
        q := q + 1;
      }
      assert ids[..q] == ids;
    }

    /** The inner `for (let view in doc.views)` loop: one view name per key, when `views` is truthy. */
    method PushRowViews(views: seq<string>, doc: DesignDoc) returns (r: seq<string>)
      ensures r == views + RowViews(doc)
    {
      r := views;
      if Truthy(doc.views) {
        var keys := ForInKeys(doc.views);
        var j := 0;
        while j < |keys|
          invariant j <= |keys|
          invariant r == views + RowViews(doc)[..j]
        {
          assert RowViews(doc)[..j + 1] == RowViews(doc)[..j] + [ViewName(doc.id, keys[j])];
          r := r + [ViewName(doc.id, keys[j])];
          j := j + 1;
        }
        assert RowViews(doc)[..j] == RowViews(doc);
      }
    }

    /**
     * `deleteArchivedDocs(db, initialPushLastSeq)`: with a push checkpoint,
     * every doc among the changes since it that can still be fetched and is
     * archived is removed, and the number removed is returned.
     */
    method DeleteArchivedDocs(db: LocalDb, initialPushLastSeq: Json, changes: seq<string>) returns (deleted: nat)
      modifies db
      ensures !Truthy(initialPushLastSeq) ==> deleted == 0 && db.docs == old(db.docs)
      ensures Truthy(initialPushLastSeq) ==> (db.docs == old(db.docs) - Archived(changes, old(db.docs))
        && deleted == |Archived(changes, old(db.docs))|)
    {
      deleted := 0;
      if Truthy(initialPushLastSeq) {
        ghost var docs0 := db.docs;
        var i := 0;
        while i < |changes|
          invariant i <= |changes|
          invariant db.docs == docs0 - Archived(changes[..i], docs0)
          invariant deleted == |Archived(changes[..i], docs0)|
        {
          var id := changes[i];
          ArchivedStep(changes, i, docs0);
          if id in db.docs && Truthy(Get(db.docs[id], "archived")) {
            db.docs := db.docs - {id};
            deleted := deleted + 1;
          }
          i := i + 1;
        }
        assert changes[..i] == changes;
      }
    }
  }

  /** One more change adds its id to the removed set exactly when it is still there and archived. */
  lemma ArchivedStep(changes: seq<string>, i: nat, docs: map<string, Json>)
    requires i < |changes|
    ensures var before := Archived(changes[..i], docs);
      var id := changes[i];
      && (id in docs - before && Truthy(Get(docs[id], "archived")) ==> Archived(changes[..i + 1], docs) == before + {id} && id !in before)
      && (!(id in docs - before && Truthy(Get(docs[id], "archived"))) ==> Archived(changes[..i + 1], docs) == before)
  {
    assert changes[..i + 1] == changes[..i] + [changes[i]];
  }
}
