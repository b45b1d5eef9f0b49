/**
 * The `$or` selector the client pulls with (`getPullSelector`): first the
 * clauses of the forms configured to pull, then the clauses selecting the
 * issues meant for this device.
 */
module PullSelector {
  import opened Wrappers
  import opened SyncLocations

  datatype CouchdbSyncSettings = CouchdbSyncSettings(enabled: bool, pull: bool, filterByLocation: bool)

  /** The part of a form's configuration the selector reads. */
  datatype FormInfo = FormInfo(id: string, couchdbSyncSettings: Option<CouchdbSyncSettings>)

  /** One element of the `$or` array. */
  datatype Clause =
    /** `{"form.id": formId}` */
    | FormClause(formId: string)
    /** `{"form.id": formId, "location.<level>": value}` */
    | FormLocationClause(formId: string, level: string, value: string)
    /** `{"type": "issue", "location.<level>": value, "sendToAllDevices": true}` */
    | IssueAllDevicesClause(level: string, value: string)
    /** `{"type": "issue", "location.<level>": value, "sendToDeviceById": deviceId}` */
    | IssueDeviceClause(level: string, value: string, deviceId: string)
    /** `{"resolveOnAppContext": "client", "type": "issue"}` */
    | ClientIssueClause

  /** The deepest node of a sync location, as `value.slice(-1).pop()` finds it; None for an empty path. */
  function DeepestNode(lc: LocationConfig): (r: Option<LocationNode>)
    ensures r.None? <==> lc.value == []
    ensures r.Some? ==> r.value == lc.value[|lc.value| - 1]
  {
    if lc.value == [] then None else Some(lc.value[|lc.value| - 1])
  }

  /** A form is pulled when its sync settings exist and are enabled for pull. */
  predicate PullEnabled(f: FormInfo) {
    f.couchdbSyncSettings.Some? && f.couchdbSyncSettings.value.enabled && f.couchdbSyncSettings.value.pull
  }

  /** `locs.map(...)` building one location-scoped clause per sync location. */
  function LocationClauses(formId: string, locs: seq<LocationConfig>): Option<seq<Clause>> {
    if locs == [] then Some([])
    else
      match DeepestNode(locs[0])
      case None => None
      case Some(node) =>
        match LocationClauses(formId, locs[1..])
        case None => None
        case Some(rest) => Some([FormLocationClause(formId, node.level, node.value)] + rest)
  }

  /** The clauses the reducer adds for one form. */
  function FormClausesFor(f: FormInfo, locs: seq<LocationConfig>, disableUserFiltering: bool): Option<seq<Clause>> {
    if !PullEnabled(f) then Some([])
    else if f.id == "user-profile" && disableUserFiltering then Some([FormClause("user-profile")])
    else if |locs| > 0 && f.couchdbSyncSettings.value.filterByLocation then LocationClauses(f.id, locs)
    else Some([FormClause(f.id)])
  }

  /** `formInfos.reduce(...)`: the clauses of each form, in form order. */
  function FormClauses(forms: seq<FormInfo>, locs: seq<LocationConfig>, disableUserFiltering: bool): Option<seq<Clause>> {
    if forms == [] then Some([])
    else
      match FormClausesFor(forms[0], locs, disableUserFiltering)
      case None => None
      case Some(first) =>
        match FormClauses(forms[1..], locs, disableUserFiltering)
        case None => None
        case Some(rest) => Some(first + rest)
  }

  /** The issue clauses: two per sync location, or the one client-context clause. */
  function IssueClauses(locs: seq<LocationConfig>, deviceId: string): Option<seq<Clause>> {
    if locs == [] then Some([ClientIssueClause]) else IssueClausesFor(locs, deviceId)
  }

  function IssueClausesFor(locs: seq<LocationConfig>, deviceId: string): Option<seq<Clause>> {
    if locs == [] then Some([])
    else
      match DeepestNode(locs[0])
      case None => None
      case Some(node) =>
        match IssueClausesFor(locs[1..], deviceId)
        case None => None
        case Some(rest) =>
          Some([IssueAllDevicesClause(node.level, node.value), IssueDeviceClause(node.level, node.value, deviceId)] + rest)
  }

  /** `getPullSelector(syncDetails)`'s `$or` list; None when reading a deepest node throws. */
  function GetPullSelector(forms: seq<FormInfo>, locs: seq<LocationConfig>, deviceId: string, disableUserFiltering: bool)
    : (r: Option<seq<Clause>>)
  {
    match FormClauses(forms, locs, disableUserFiltering)
    case None => None
    case Some(formPart) =>
      match IssueClauses(locs, deviceId)
      case None => None
      case Some(issuePart) => Some(formPart + issuePart)
  }

  lemma {:induction false} LocationClausesShape(formId: string, locs: seq<LocationConfig>)
    ensures LocationClauses(formId, locs).None? <==> SomeEmptyPath(locs)
    ensures LocationClauses(formId, locs).Some? ==>
              var cs := LocationClauses(formId, locs).value;
              |cs| == |locs| &&
              forall i :: 0 <= i < |locs| ==>
                var node := locs[i].value[|locs[i].value| - 1];
                cs[i] == FormLocationClause(formId, node.level, node.value)
  {
    if locs != [] {
      SomeEmptyPathTail(locs);
      LocationClausesShape(formId, locs[1..]);
    }
  }

  lemma {:induction false} IssueClausesForShape(locs: seq<LocationConfig>, deviceId: string)
    ensures IssueClausesFor(locs, deviceId).None? <==> SomeEmptyPath(locs)
    ensures IssueClausesFor(locs, deviceId).Some? ==>
              var cs := IssueClausesFor(locs, deviceId).value;
              |cs| == 2 * |locs| &&
              forall i :: 0 <= i < |locs| ==>
                var node := locs[i].value[|locs[i].value| - 1];
                cs[2 * i] == IssueAllDevicesClause(node.level, node.value) &&
                cs[2 * i + 1] == IssueDeviceClause(node.level, node.value, deviceId)
  {
    if locs != [] {
      SomeEmptyPathTail(locs);
      IssueClausesForShape(locs[1..], deviceId);
      if IssueClausesFor(locs, deviceId).Some? {
        var node := DeepestNode(locs[0]).value;
        var cs := IssueClausesFor(locs, deviceId).value;
        var rest := IssueClausesFor(locs[1..], deviceId).value;
        var head := [IssueAllDevicesClause(node.level, node.value), IssueDeviceClause(node.level, node.value, deviceId)];
        assert cs == head + rest;
        forall i | 1 <= i < |locs|
          ensures cs[2 * i] == rest[2 * (i - 1)] && cs[2 * i + 1] == rest[2 * (i - 1) + 1]
        {
          assert 2 * i == 2 + 2 * (i - 1);
        }
      }
    }
  }

  /**
   * The issue part: with sync locations, one "sent to all devices" and one
   * "sent to this device" clause per location, scoped to its deepest node;
   * without, the single client-context clause.
   */
  lemma IssueClausesShape(locs: seq<LocationConfig>, deviceId: string)
    ensures locs == [] ==> IssueClauses(locs, deviceId) == Some([ClientIssueClause])
    ensures IssueClauses(locs, deviceId).None? <==> SomeEmptyPath(locs)
    ensures locs != [] && IssueClauses(locs, deviceId).Some? ==>
              var cs := IssueClauses(locs, deviceId).value;
              |cs| == 2 * |locs| &&
              forall i :: 0 <= i < |locs| ==>
                var node := locs[i].value[|locs[i].value| - 1];
                cs[2 * i] == IssueAllDevicesClause(node.level, node.value) &&
                cs[2 * i + 1] == IssueDeviceClause(node.level, node.value, deviceId)
  {
    IssueClausesForShape(locs, deviceId);
  }

  /** The clauses of one form, by its configuration. */
  lemma FormClausesForCases(f: FormInfo, locs: seq<LocationConfig>, disableUserFiltering: bool)
    ensures !PullEnabled(f) ==> FormClausesFor(f, locs, disableUserFiltering) == Some([])
    ensures PullEnabled(f) && f.id == "user-profile" && disableUserFiltering ==>
              FormClausesFor(f, locs, disableUserFiltering) == Some([FormClause("user-profile")])
    ensures PullEnabled(f) && !(f.id == "user-profile" && disableUserFiltering)
              && !(|locs| > 0 && f.couchdbSyncSettings.value.filterByLocation) ==>
              FormClausesFor(f, locs, disableUserFiltering) == Some([FormClause(f.id)])
    ensures PullEnabled(f) && !(f.id == "user-profile" && disableUserFiltering)
              && |locs| > 0 && f.couchdbSyncSettings.value.filterByLocation && !SomeEmptyPath(locs) ==>
              FormClausesFor(f, locs, disableUserFiltering).Some? &&
              var cs := FormClausesFor(f, locs, disableUserFiltering).value;
              |cs| == |locs| &&
              forall i :: 0 <= i < |locs| ==>
                var node := locs[i].value[|locs[i].value| - 1];
                cs[i] == FormLocationClause(f.id, node.level, node.value)
  {
    LocationClausesShape(f.id, locs);
  }

  /** The form part of the selector follows the order of the forms: it distributes over concatenation. */
  lemma {:induction false} FormClausesAppend(f1: seq<FormInfo>, f2: seq<FormInfo>, locs: seq<LocationConfig>, d: bool)
    requires !SomeEmptyPath(locs)
    ensures FormClauses(f1, locs, d).Some? && FormClauses(f2, locs, d).Some? && FormClauses(f1 + f2, locs, d).Some?
    ensures FormClauses(f1 + f2, locs, d).value == FormClauses(f1, locs, d).value + FormClauses(f2, locs, d).value
  {
    FormClausesTotal(f1, locs, d);
    FormClausesTotal(f2, locs, d);
    if f1 == [] {
      assert f1 + f2 == f2;
    } else {
      assert (f1 + f2)[0] == f1[0];
      assert (f1 + f2)[1..] == f1[1..] + f2;
      FormClausesAppend(f1[1..], f2, locs, d);
      LocationClausesShape(f1[0].id, locs);
      var first := FormClausesFor(f1[0], locs, d).value;
      assert FormClauses(f1 + f2, locs, d).value == first + FormClauses(f1[1..] + f2, locs, d).value;
      assert FormClauses(f1, locs, d).value == first + FormClauses(f1[1..], locs, d).value;
    }
  }

  lemma {:induction false} FormClausesTotal(forms: seq<FormInfo>, locs: seq<LocationConfig>, d: bool)
    requires !SomeEmptyPath(locs)
    ensures FormClauses(forms, locs, d).Some?
  {
    if forms != [] {
      LocationClausesShape(forms[0].id, locs);
      FormClausesTotal(forms[1..], locs, d);
    }
  }

  /** A form that is not pulled contributes no clause. */
  lemma {:induction false} NotPulledFormsContributeNothing(forms: seq<FormInfo>, locs: seq<LocationConfig>, d: bool)
    requires forall i :: 0 <= i < |forms| ==> !PullEnabled(forms[i])
    ensures FormClauses(forms, locs, d) == Some([])
  {
    if forms != [] {
      assert forall i :: 0 <= i < |forms[1..]| ==> forms[1..][i] == forms[i + 1];
      NotPulledFormsContributeNothing(forms[1..], locs, d);
      assert !PullEnabled(forms[0]);
      assert FormClausesFor(forms[0], locs, d) == Some([]);
      var none: seq<Clause> := [];
      assert none + none == none;
    }
  }

  /**
   * `getPullSelector` throws exactly when some sync location has an empty
   * path; otherwise its list is the form part followed by the issue part.
   */
  lemma GetPullSelectorShape(forms: seq<FormInfo>, locs: seq<LocationConfig>, deviceId: string, d: bool)
    ensures GetPullSelector(forms, locs, deviceId, d).None? <==> SomeEmptyPath(locs)
    ensures GetPullSelector(forms, locs, deviceId, d).Some? ==>
              GetPullSelector(forms, locs, deviceId, d).value
                == FormClauses(forms, locs, d).value + IssueClauses(locs, deviceId).value
  {
    IssueClausesShape(locs, deviceId);
    if !SomeEmptyPath(locs) {
      FormClausesTotal(forms, locs, d);
    }
  }
}
