/**
 * The list of views `indexViews` builds an index for: on the case-home
 * flavour, the three case views and the custom query views; otherwise
 * every view of every design document; in both cases without the views
 * the app configuration lists under `doNotOptimize`.
 */
module IndexViews {
  import opened Wrappers
  import opened Strings
  import opened JsonValues

  /** A design document row of `allDocs` between `_design/` and `_design0`. */
  datatype DesignDoc = DesignDoc(id: string, views: Json)

  /** Where the views come from: the database's design docs and the custom query ids (None when they cannot be loaded). */
  datatype ViewSource = ViewSource(designDocs: seq<DesignDoc>, queryIds: Option<seq<string>>)

  const CaseHomeViews: seq<string> := ["search", "case-events-by-all-days", "tangy-form/responsesByFormId"]

  /** The keys `for (k in v)` visits: an object's own keys, the indices of an array or a string, nothing otherwise. */
  function ForInKeys(v: Json): (r: seq<string>)
    ensures v.Obj? ==> r == Keys(v.fields)
  {
    match v
    case Obj(fields) => Keys(fields)
    case Arr(items) => seq(|items|, i requires 0 <= i => NatToString(i))
    case Str(s) => seq(|s|, i requires 0 <= i => NatToString(i))
    case _ => []
  }

  /** The design doc's name (its id with the first `_design/` removed), a slash, then the view id. */
  function ViewName(ddocId: string, viewId: string): string {
    ReplaceFirst(ddocId, "_design/", "") + "/" + viewId
  }

  /** A design doc named `_design/<name>` gives `<name>/<view>`. */
  lemma ViewNameOfDesignDoc(name: string, viewId: string)
    ensures ViewName("_design/" + name, viewId) == name + "/" + viewId
  {
    ReplacePrefix("_design/" + name, "_design/");
    assert ("_design/" + name)[|"_design/"|..] == name;
  }

  /** The views one design doc contributes: none when `views` is falsy. */
  function RowViews(d: DesignDoc): (r: seq<string>)
    ensures |r| == if Truthy(d.views) then |ForInKeys(d.views)| else 0
  {
    if Truthy(d.views) then
      var keys := ForInKeys(d.views);
      seq(|keys|, k requires 0 <= k < |keys| => ViewName(d.id, keys[k]))
    else []
  }

  /** The views of all design docs, in row order. */
  function DesignDocViews(rows: seq<DesignDoc>): seq<string>
    decreases |rows|
  {
    if rows == [] then [] else DesignDocViews(rows[..|rows| - 1]) + RowViews(rows[|rows| - 1])
  }

  /** A view of one design doc: its `views` is truthy and the view id is one of its keys. */
  predicate ViewOfDoc(d: DesignDoc, v: string) {
    Truthy(d.views) && exists k :: 0 <= k < |ForInKeys(d.views)| && v == ViewName(d.id, ForInKeys(d.views)[k])
  }

  lemma RowViewsMembers(d: DesignDoc, v: string)
    ensures v in RowViews(d) <==> ViewOfDoc(d, v)
  {
    if v in RowViews(d) {
      var k :| 0 <= k < |RowViews(d)| && RowViews(d)[k] == v;
      assert v == ViewName(d.id, ForInKeys(d.views)[k]);
    }
    if ViewOfDoc(d, v) {
      var k :| 0 <= k < |ForInKeys(d.views)| && v == ViewName(d.id, ForInKeys(d.views)[k]);
      assert RowViews(d)[k] == v;
    }
  }

  /** A view of some design doc. */
  predicate ViewOf(rows: seq<DesignDoc>, v: string) {
    exists i :: 0 <= i < |rows| && ViewOfDoc(rows[i], v)
  }

  /** Adding a design doc adds exactly its views. */
  lemma ViewOfSnoc(init: seq<DesignDoc>, d: DesignDoc, v: string)
    ensures ViewOf(init + [d], v) <==> ViewOf(init, v) || ViewOfDoc(d, v)
  {
    var rows := init + [d];
    if ViewOf(rows, v) && !ViewOfDoc(d, v) {
      var i :| 0 <= i < |rows| && ViewOfDoc(rows[i], v);
      assert i < |init| && rows[i] == init[i];
    }
    if ViewOf(init, v) {
      var i :| 0 <= i < |init| && ViewOfDoc(init[i], v);
      assert rows[i] == init[i];
    }
    if ViewOfDoc(d, v) {
      assert rows[|init|] == d;
    }
  }

  /** Every view of every design doc is listed, and nothing else. */
  lemma {:induction false} DesignDocViewsMembers(rows: seq<DesignDoc>, v: string)
    ensures v in DesignDocViews(rows) <==> ViewOf(rows, v)
    decreases |rows|
  {
    if rows != [] {
      var init := rows[..|rows| - 1];
      var d := rows[|rows| - 1];
      assert rows == init + [d];
      DesignDocViewsMembers(init, v);
      RowViewsMembers(d, v);
      ViewOfSnoc(init, d, v);
      assert DesignDocViews(rows) == DesignDocViews(init) + RowViews(d);
    }
  }

  /** The list before `doNotOptimize` is applied. */
  function ViewList(caseHome: bool, src: ViewSource): seq<string> {
    if caseHome then CaseHomeViews + src.queryIds.GetOr([]) else DesignDocViews(src.designDocs)
  }

  /** `views.filter(view => !excluded.includes(view))`. */
  function WithoutExcluded(views: seq<string>, excluded: seq<Json>): seq<string>
    decreases |views|
  {
    if views == [] then []
    else
      var last := views[|views| - 1];
      WithoutExcluded(views[..|views| - 1], excluded) + (if Str(last) in excluded then [] else [last])
  }

  /** Exactly the listed views that are not excluded remain. */
  lemma {:induction false} WithoutExcludedMembers(views: seq<string>, excluded: seq<Json>, v: string)
    ensures v in WithoutExcluded(views, excluded) <==> v in views && Str(v) !in excluded
    decreases |views|
  {
    if views != [] {
      var init := views[..|views| - 1];
      WithoutExcludedMembers(init, excluded, v);
      assert views == init + [views[|views| - 1]];
    }
  }

  /** Filtering keeps the order: it distributes over concatenation. */
  lemma {:induction false} WithoutExcludedAppend(a: seq<string>, b: seq<string>, excluded: seq<Json>)
    ensures WithoutExcluded(a + b, excluded) == WithoutExcluded(a, excluded) + WithoutExcluded(b, excluded)
    decreases |b|
  {
    if b == [] {
      assert a + b == a;
    } else {
      assert (a + b)[..|a + b| - 1] == a + b[..|b| - 1];
      WithoutExcludedAppend(a, b[..|b| - 1], excluded);
    }
  }

  /** The views among `views` whose query throws, in order: each is logged and the loop goes on. */
  function FailedViews(views: seq<string>, failing: set<string>): seq<string>
    decreases |views|
  {
    if views == [] then []
    else
      var last := views[|views| - 1];
      FailedViews(views[..|views| - 1], failing) + (if last in failing then [last] else [])
  }

  lemma {:induction false} FailedViewsMembers(views: seq<string>, failing: set<string>, v: string)
    ensures v in FailedViews(views, failing) <==> v in views && v in failing
    decreases |views|
  {
    if views != [] {
      var init := views[..|views| - 1];
      FailedViewsMembers(init, failing, v);
      assert views == init + [views[|views| - 1]];
    }
  }

  /** `doNotOptimize` applies only when it is an array. */
  function Optimized(views: seq<string>, doNotOptimize: Json): seq<string> {
    if doNotOptimize.Arr? then WithoutExcluded(views, doNotOptimize.items) else views
  }

  /** The views `indexViews` queries. */
  function ViewsToIndex(caseHome: bool, src: ViewSource, doNotOptimize: Json): seq<string> {
    Optimized(ViewList(caseHome, src), doNotOptimize)
  }

  /** On case-home with nothing excluded, the three case views come first, then the custom query ids. */
  lemma CaseHomeOrder(src: ViewSource)
    ensures ViewsToIndex(true, src, Undefined)[..3] == CaseHomeViews
    ensures ViewsToIndex(true, src, Undefined)[3..] == src.queryIds.GetOr([])
  {
  }

  /** A listed view is indexed exactly when `doNotOptimize` is not an array containing it. */
  lemma ViewsToIndexMembers(caseHome: bool, src: ViewSource, doNotOptimize: Json, v: string)
    ensures v in ViewsToIndex(caseHome, src, doNotOptimize)
      <==> v in ViewList(caseHome, src) && !(doNotOptimize.Arr? && Str(v) in doNotOptimize.items)
  {
    if doNotOptimize.Arr? {
      WithoutExcludedMembers(ViewList(caseHome, src), doNotOptimize.items, v);
    }
  }
}
