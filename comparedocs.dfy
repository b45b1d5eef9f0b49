/**
 * The decisions of `compareDocs`: which local row is the initial user
 * profile that is never uploaded, which ids are sync candidates, the
 * options of the replication that sends them, and the status reported
 * afterwards. Rows and docs are represented by their ids.
 */
module CompareDocs {
  import opened Wrappers
  import opened Strings
  import opened JsonValues
  import opened Replication

  /** `Object.keys(v).length`; None when `v` is `undefined` or `null`, where `Object.keys` throws. */
  function KeyCount(v: Json): (r: Option<nat>)
    ensures r.None? <==> (v.Undefined? || v.Null?)
    ensures v.Obj? ==> r == Some(|v.fields|)
    ensures v.Arr? ==> r == Some(|v.items|)
  {
    match v
    case Undefined => None
    case Null => None
    case Str(s) => Some(|s|)
    case Arr(items) => Some(|items|)
    case Obj(fields) => Some(|fields|)
    case _ => Some(0)
  }

  /** A `user-profile` response: its `_id` and its `location`. */
  datatype UserProfile = UserProfile(id: string, location: Json)

  /** The outcome of searching the profiles, in order, for the first whose location has no own keys. */
  datatype ProfileSearch = Throws | NotFound | Found(id: string)

  /** A profile whose location is an empty object (or another value without own keys). */
  predicate EmptyLocation(p: UserProfile) {
    KeyCount(p.location) == Some(0)
  }

  /** A profile the search passes over: its location has at least one key. */
  predicate SkippedProfile(p: UserProfile) {
    KeyCount(p.location).Some? && KeyCount(p.location).value > 0
  }

  function FindInitialProfile(ps: seq<UserProfile>): (r: ProfileSearch)
    ensures r.Found? ==> exists i :: (0 <= i < |ps| && ps[i].id == r.id && EmptyLocation(ps[i])
      && forall j :: 0 <= j < i ==> SkippedProfile(ps[j]))
    ensures r.Throws? ==> exists i :: (0 <= i < |ps| && KeyCount(ps[i].location).None?
      && forall j :: 0 <= j < i ==> SkippedProfile(ps[j]))
    ensures r.NotFound? ==> forall j :: 0 <= j < |ps| ==> SkippedProfile(ps[j])
    decreases |ps|
  {
    if ps == [] then NotFound
    else
      match KeyCount(ps[0].location)
      case None => Throws
      case Some(n) =>
        if n == 0 then Found(ps[0].id)
        else
          var rest := FindInitialProfile(ps[1..]);
          assert forall j :: 1 <= j < |ps| ==> ps[j] == ps[1..][j - 1];
          rest
  }

  /** The position of the first occurrence of `id`. */
  function FirstIndex(docs: seq<string>, id: string): (r: nat)
    requires id in docs
    ensures r < |docs| && docs[r] == id && id !in docs[..r]
    decreases |docs|
  {
    if docs[0] == id then 0
    else
      var k := FirstIndex(docs[1..], id);
      assert docs[..k + 1] == [docs[0]] + docs[1..][..k];
      k + 1
  }

  /** The first row with the given id is spliced out (`findIndex`, then `splice(index, 1)` when found). */
  function RemoveFirst(docs: seq<string>, id: string): seq<string> {
    if id in docs then
      var i := FirstIndex(docs, id);
      docs[..i] + docs[i + 1..]
    else docs
  }

  /** Only the first matching entry goes; everything else stays, in order. */
  lemma RemoveFirstFacts(docs: seq<string>, id: string)
    ensures id !in docs ==> RemoveFirst(docs, id) == docs
    ensures id in docs ==> exists i :: (0 <= i < |docs| && docs[i] == id && id !in docs[..i]
      && RemoveFirst(docs, id) == docs[..i] + docs[i + 1..])
    ensures id in docs ==> multiset(RemoveFirst(docs, id)) + multiset{id} == multiset(docs)
  {
    if id in docs {
      var i := FirstIndex(docs, id);
      assert docs == docs[..i] + [docs[i]] + docs[i + 1..];
    }
  }

  /** The local rows compared: the collected rows without the initial profile; None when the search throws. */
  function LocalDocs(collected: seq<string>, profiles: seq<UserProfile>): Option<seq<string>> {
    match FindInitialProfile(profiles)
    case Throws => None
    case NotFound => Some(collected)
    case Found(id) => Some(RemoveFirst(collected, id))
  }

  /** A source id becomes a candidate when no target row has it and it does not contain `_design`. */
  predicate Candidate(id: string, target: seq<string>) {
    id !in target && !Contains(id, "_design")
  }

  /** `idsToSync`, as `sourceDocs.forEach` fills it. */
  function IdsToSync(source: seq<string>, target: seq<string>): seq<string>
    decreases |source|
  {
    if source == [] then []
    else
      var last := source[|source| - 1];
      IdsToSync(source[..|source| - 1], target) + (if Candidate(last, target) then [last] else [])
  }

  /** Exactly the candidates of the source are selected. */
  lemma {:induction false} IdsToSyncMembers(source: seq<string>, target: seq<string>, x: string)
    ensures x in IdsToSync(source, target) <==> x in source && Candidate(x, target)
    decreases |source|
  {
    if source != [] {
      var init := source[..|source| - 1];
      IdsToSyncMembers(init, target, x);
      assert source == init + [source[|source| - 1]];
    }
  }

  /** Selection distributes over concatenation, so candidates keep their source order. */
  lemma {:induction false} IdsToSyncAppend(a: seq<string>, b: seq<string>, target: seq<string>)
    ensures IdsToSync(a + b, target) == IdsToSync(a, target) + IdsToSync(b, target)
    decreases |b|
  {
    if b == [] {
      assert a + b == a;
    } else {
      var init := b[..|b| - 1];
      assert (a + b)[..|a + b| - 1] == a + init;
      IdsToSyncAppend(a, init, target);
    }
  }

  /** A single source id gives itself when it is a candidate, nothing otherwise. */
  lemma IdsToSyncSingle(x: string, target: seq<string>)
    ensures IdsToSync([x], target) == if Candidate(x, target) then [x] else []
  {
    assert [x][..0] == [];
  }

  /** `direction === 'push'` compares local against remote, `'pull'` remote against local; another direction has no sources. */
  function Roles(direction: string, local: seq<string>, remote: seq<string>): Option<(seq<string>, seq<string>)> {
    if direction == "push" then Some((local, remote))
    else if direction == "pull" then Some((remote, local))
    else None
  }

  /** What a comparison works on and finds: the local and remote rows compared and the candidates. */
  datatype Comparison = Comparison(local: seq<string>, remote: seq<string>, ids: seq<string>)

  /** The comparison of the collected local rows with the remote docs; None when `compareDocs` throws before replicating. */
  function Compare(direction: string, collected: seq<string>, remote: seq<string>, profiles: seq<UserProfile>): Option<Comparison> {
    match LocalDocs(collected, profiles)
    case None => None
    case Some(local) =>
      match Roles(direction, local, remote)
      case None => None
      case Some(roles) => Some(Comparison(local, remote, IdsToSync(roles.0, roles.1)))
  }

  /**
   * A comparison happens exactly for the directions `push` and `pull` when
   * the profile search does not throw; it drops at most the initial
   * profile's row, and a candidate is a source id missing from the target and
   * free of `_design`: local against remote for `push`, the reverse for `pull`.
   */
  lemma CompareFacts(direction: string, collected: seq<string>, remote: seq<string>, profiles: seq<UserProfile>, x: string)
    ensures Compare(direction, collected, remote, profiles).Some?
      <==> (direction == "push" || direction == "pull") && !FindInitialProfile(profiles).Throws?
    ensures var c := Compare(direction, collected, remote, profiles);
      c.Some? ==> (c.value.remote == remote
        && c.value.local == (if FindInitialProfile(profiles).Found? then RemoveFirst(collected, FindInitialProfile(profiles).id)
                             else collected)
        && (direction == "push" ==> (x in c.value.ids <==> x in c.value.local && x !in remote && !Contains(x, "_design")))
        && (direction == "pull" ==> (x in c.value.ids <==> x in remote && x !in c.value.local && !Contains(x, "_design"))))
  {
    var c := Compare(direction, collected, remote, profiles);
    if c.Some? {
      if direction == "push" {
        IdsToSyncMembers(c.value.local, remote, x);
      } else {
        IdsToSyncMembers(remote, c.value.local, x);
      }
    }
  }

  /** The options handed to the replication function. */
  datatype CompareOptions =
    | PushCompare(batchSize: int, batchesLimit: int, remaining: int, pushed: int, docIds: seq<string>)
    | PullCompare(batchSize: int, writeBatchSize: int, batchesLimit: int, pulled: int, docIds: seq<string>)

  function CompareOptionsFor(direction: string, batchSize: int, writeBatchSize: int, ids: seq<string>): (r: CompareOptions)
    ensures r.docIds == ids && r.batchSize == batchSize
    ensures r.PushCompare? <==> direction == "push"
    ensures r.PullCompare? ==> r.writeBatchSize == writeBatchSize
  {
    if direction == "push" then PushCompare(batchSize, 1, 100, 0, ids)
    else PullCompare(batchSize, writeBatchSize, 1, 0, ids)
  }

  /** The status `compareDocs` starts with. */
  const InitialCompareStatus: Status :=
    map["pulled" := Num(0), "pullConflicts" := Arr([]), "info" := Str(""), "remaining" := Num(0), "direction" := Str("")]

  /** `pushed = 0 + status.pushed` when defined, 0 otherwise; the same for `pulled`. */
  function Counted(v: Json): Json {
    if v.Undefined? then Num(0) else Add(Num(0), v)
  }

  /**
   * The status once the candidates are known: `pushed` set to 0 when there
   * are none; the replication's status with `pushed`/`pulled` counted when
   * it resolves; the initial status when it throws.
   */
  function ComparedStatus(ids: seq<string>, replicated: Option<Status>): (r: Status)
    ensures ids == [] ==> r == InitialCompareStatus["pushed" := Num(0)]
    ensures ids != [] && replicated.None? ==> r == InitialCompareStatus
    ensures ids != [] && replicated.Some? ==> forall k :: k != "pushed" && k != "pulled" ==> StatusGet(r, k) == StatusGet(replicated.value, k)
  {
    if ids == [] then InitialCompareStatus["pushed" := Num(0)]
    else if replicated.None? then InitialCompareStatus
    else
      var s := replicated.value;
      s["pushed" := Counted(StatusGet(s, "pushed"))]["pulled" := Counted(StatusGet(s, "pulled"))]
  }

  /** A counted number is the number itself, and an absent count is 0. */
  lemma CountedNumbers(s: Status, k: string)
    ensures StatusGet(s, k).Num? ==> Counted(StatusGet(s, k)) == StatusGet(s, k)
    ensures StatusGet(s, k).Undefined? ==> Counted(StatusGet(s, k)) == Num(0)
  {
  }

  /** The report fields `compareDocs` adds to its status before sending it. */
  function CompareReport(s: Status, direction: string, calculate: bool, formStats: Json, localCount: nat, remoteCount: nat,
                         idsCount: nat): Status
  {
    var d := s["compareDocsDirection" := Str(direction)];
    var f := if calculate then d["localDocsForLocation" := formStats] else d;
    f["localDocsCount" := Num(localCount)]["remoteDocsCount" := Num(remoteCount)]["idsToSyncCount" := Num(idsCount)]
  }

  /** The report records the three counts and the direction, and every other field of the status is kept. */
  lemma CompareReportFacts(s: Status, direction: string, calculate: bool, formStats: Json, localCount: nat,
                           remoteCount: nat, idsCount: nat, k: string)
    ensures var r := CompareReport(s, direction, calculate, formStats, localCount, remoteCount, idsCount);
      && StatusGet(r, "localDocsCount") == Num(localCount)
      && StatusGet(r, "remoteDocsCount") == Num(remoteCount)
      && StatusGet(r, "idsToSyncCount") == Num(idsCount)
      && (k !in {"compareDocsDirection", "localDocsForLocation", "localDocsCount", "remoteDocsCount", "idsToSyncCount"}
          ==> StatusGet(r, k) == StatusGet(s, k))
  {
    ReportKeysDistinct();
  }

  lemma ReportKeysDistinct()
    ensures "localDocsCount" != "remoteDocsCount" && "localDocsCount" != "idsToSyncCount" && "remoteDocsCount" != "idsToSyncCount"
  {
    assert "localDocsCount"[0] != "remoteDocsCount"[0];
    assert "localDocsCount"[0] != "idsToSyncCount"[0];
    assert "remoteDocsCount"[0] != "idsToSyncCount"[0];
  }
}
