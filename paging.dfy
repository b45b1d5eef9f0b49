/**
 * `pageThroughAlldocsOrSelector`: collecting every row of a database page by
 * page, either through `allDocs` with the alternate-startkey method of
 * CouchDB's view pagination (each page's last id is held back and becomes
 * the next `startkey`), or through `find` with a selector, carrying the
 * returned `bookmark` forward.
 *
 * Rows are represented by their document ids.
 */
module Paging {
  import opened Wrappers

  function Min(a: int, b: int): int {
    if a <= b then a else b
  }

  /** The order of `_all_docs`: ids compared code point by code point, a proper prefix first. */
  predicate IdLess(a: string, b: string)
    decreases |a|
  {
    if a == [] then b != []
    else if b == [] then false
    else if a[0] != b[0] then a[0] < b[0]
    else IdLess(a[1..], b[1..])
  }

  lemma {:induction false} IdLessIrreflexive(a: string)
    ensures !IdLess(a, a)
    decreases |a|
  {
    if a != [] {
      IdLessIrreflexive(a[1..]);
    }
  }

  /** The ids of a database as `_all_docs` lists them: strictly increasing. */
  predicate StrictlySorted(ids: seq<string>) {
    forall i, j :: 0 <= i < j < |ids| ==> IdLess(ids[i], ids[j])
  }

  /** The position of the first id that is not below `key`. */
  function FirstAtLeast(ids: seq<string>, key: string): (r: nat)
    ensures r <= |ids|
    ensures forall j :: 0 <= j < r ==> IdLess(ids[j], key)
    ensures r < |ids| ==> !IdLess(ids[r], key)
    decreases |ids|
  {
    if ids == [] || !IdLess(ids[0], key) then 0 else 1 + FirstAtLeast(ids[1..], key)
  }

  /** `allDocs({limit, startkey})`: up to `limit` rows from the first id not below `startkey`. */
  function AllDocs(ids: seq<string>, startkey: Option<string>, limit: nat): seq<string> {
    var from := if startkey.None? then 0 else FirstAtLeast(ids, startkey.value);
    ids[from..Min(from + limit, |ids|)]
  }

  /** Asked from one of its own ids, a sorted database answers from that id's position. */
  lemma AllDocsFromId(ids: seq<string>, m: nat, limit: nat)
    requires StrictlySorted(ids) && m < |ids|
    ensures AllDocs(ids, Some(ids[m]), limit) == ids[m..Min(m + limit, |ids|)]
  {
    var r := FirstAtLeast(ids, ids[m]);
    IdLessIrreflexive(ids[m]);
    assert r == m;
  }

  /** What the `allDocs` mode collects: everything when `limit` is at least 2; with a limit of 1, only the first row. */
  function AllDocsCollected(ids: seq<string>, limit: nat): seq<string> {
    if limit == 0 || ids == [] then [] else if limit == 1 then ids[..1] else ids
  }

  /** The loop state of the `allDocs` mode: the rows collected and the `startkey` of the next request. */
  predicate AllDocsState(ids: seq<string>, limit: nat, docs: seq<string>, startkey: Option<string>, m: nat, remaining: bool) {
    && (remaining && startkey.None? ==> docs == [])
    && (startkey.Some? ==> m < |ids| && startkey.value == ids[m] && limit >= 1)
    && (remaining && startkey.Some? ==> docs == ids[..m])
    && (startkey.Some? && limit == 1 ==> m == 0)
    && (!remaining ==> docs == AllDocsCollected(ids, limit))
  }

  /** How far the `allDocs` mode is from its last request. */
  function AllDocsToGo(ids: seq<string>, startkey: Option<string>, m: nat): int {
    if startkey.None? then |ids| + 1 else |ids| - m
  }

  /** The `allDocs` mode of `pageThroughAlldocsOrSelector`. */
  method PageAllDocs(ids: seq<string>, limit: nat) returns (docs: seq<string>)
    requires StrictlySorted(ids)
    ensures docs == AllDocsCollected(ids, limit)
    ensures limit >= 2 ==> docs == ids
  {
    docs := [];
    var startkey: Option<string> := None;
    var remaining := true;
    ghost var m: nat := 0;
    while remaining
      invariant AllDocsState(ids, limit, docs, startkey, m, remaining)
      decreases if remaining then 1 else 0, AllDocsToGo(ids, startkey, m)
    {
      ghost var before := AllDocsToGo(ids, startkey, m);
      if startkey.Some? {
        AllDocsFromId(ids, m, limit);
      }
      docs, startkey, remaining, m := AllDocsPage(ids, limit, docs, startkey, m);
      assert remaining ==> AllDocsToGo(ids, startkey, m) < before;
    }
  }

  /** One request of the `allDocs` mode: the page without its last row is collected, and that row's id is the next `startkey`. */
  method AllDocsPage(ids: seq<string>, limit: nat, docs: seq<string>, startkey: Option<string>, ghost m: nat)
    returns (docs': seq<string>, startkey': Option<string>, remaining': bool, ghost m': nat)
    requires AllDocsState(ids, limit, docs, startkey, m, true)
    requires startkey.Some? ==> AllDocs(ids, startkey, limit) == ids[m..Min(m + limit, |ids|)]
    ensures AllDocsState(ids, limit, docs', startkey', m', remaining')
    ensures remaining' ==> AllDocsToGo(ids, startkey', m') < AllDocsToGo(ids, startkey, m)
  {
    docs', startkey', remaining', m' := docs, startkey, true, m;
    var response := AllDocs(ids, startkey, limit);
    var from := if startkey.None? then 0 else m;
    if |response| > 0 {
      var end := Min(from + limit, |ids|);
      PageSplits(ids, from, end);
      var pagerKey := response[|response| - 1];
      docs' := docs' + response[..|response| - 1];
      if |response| == 1 && Some(pagerKey) == startkey {
        docs' := docs' + [response[0]];
        assert docs' == ids[..end];
        assert limit == 1 ==> end == 1;
        assert limit >= 2 ==> end == |ids|;
        remaining' := false;
      } else {
        startkey' := Some(pagerKey);
        m' := end - 1;
      }
    } else {
      remaining' := false;
    }
  }

  /** A page `ids[from..end]` without its last row extends `ids[..from]` to `ids[..end - 1]`. */
  lemma PageSplits(ids: seq<string>, from: nat, end: nat)
    requires from < end <= |ids|
    ensures ids[..from] + ids[from..end][..end - from - 1] == ids[..end - 1]
    ensures ids[..end - 1] + [ids[from..end][end - from - 1]] == ids[..end]
    ensures ids[from..end][end - from - 1] == ids[end - 1]
  {
    assert ids[from..end][..end - from - 1] == ids[from..end - 1];
    assert ids[..end] == ids[..end - 1] + [ids[end - 1]];
  }

  /** The server's answer to one `find` request: the matching docs of a page and the bookmark of the next. */
  datatype FindPage = FindPage(docs: seq<string>, bookmark: string)

  /** The `k`-th answer; beyond the given answers, the server has nothing more. */
  function Answer(pages: seq<FindPage>, k: nat): FindPage {
    if k < |pages| then pages[k] else FindPage([], "")
  }

  /** The position of the first empty page, or the number of pages. */
  function FirstEmpty(pages: seq<FindPage>): (r: nat)
    ensures r <= |pages|
    ensures forall k :: 0 <= k < r ==> pages[k].docs != []
    ensures r < |pages| ==> pages[r].docs == []
    decreases |pages|
  {
    if pages == [] || pages[0].docs == [] then 0 else 1 + FirstEmpty(pages[1..])
  }

  /** The docs of the pages, in order. */
  function Concat(pages: seq<FindPage>): seq<string>
    decreases |pages|
  {
    if pages == [] then [] else pages[0].docs + Concat(pages[1..])
  }

  lemma {:induction false} ConcatAppend(pages: seq<FindPage>, p: FindPage)
    ensures Concat(pages + [p]) == Concat(pages) + p.docs
    decreases |pages|
  {
    if pages != [] {
      assert (pages + [p])[1..] == pages[1..] + [p];
      ConcatAppend(pages[1..], p);
    } else {
      assert Concat([p]) == p.docs + Concat([]);
    }
  }

  /**
   * The `find` mode of `pageThroughAlldocsOrSelector`: every returned doc is
   * appended and the returned bookmark sent with the next request, until a
   * page comes back empty. `sent[k]` is the bookmark of request `k`.
   */
  method PageFind(pages: seq<FindPage>) returns (docs: seq<string>, sent: seq<Option<string>>)
    ensures docs == Concat(pages[..FirstEmpty(pages)])
    ensures |sent| == FirstEmpty(pages) + 1 && sent[0] == None
    ensures forall k :: 1 <= k < |sent| ==> sent[k] == Some(pages[k - 1].bookmark)
  {
    docs := [];
    sent := [];
    var bookmark: Option<string> := None;
    var remaining := true;
    var k := 0;
    while remaining
      invariant k <= FirstEmpty(pages) + (if remaining then 0 else 1)
      invariant remaining ==> |sent| == k && k <= FirstEmpty(pages)
      invariant !remaining ==> |sent| == k && k == FirstEmpty(pages) + 1
      invariant remaining ==> docs == Concat(pages[..k])
      invariant !remaining ==> docs == Concat(pages[..FirstEmpty(pages)])
      invariant remaining ==> bookmark == (if k == 0 then None else Some(pages[k - 1].bookmark))
      invariant |sent| > 0 ==> sent[0] == None
      invariant forall j :: 1 <= j < |sent| ==> sent[j] == Some(pages[j - 1].bookmark)
      decreases if remaining then 1 else 0, FirstEmpty(pages) - k
    {
      var response := Answer(pages, k);
      sent := sent + [bookmark];
      if |response.docs| > 0 {
        ConcatAppend(pages[..k], pages[k]);
        assert pages[..k + 1] == pages[..k] + [pages[k]];
        docs := docs + response.docs;
        bookmark := Some(response.bookmark);
      } else {
        remaining := false;
      }
      k := k + 1;
    }
  }

  /** With no empty page, `find` paging collects every doc of every page. */
  lemma FindCollectsAll(pages: seq<FindPage>)
    requires forall k :: 0 <= k < |pages| ==> pages[k].docs != []
    ensures Concat(pages[..FirstEmpty(pages)]) == Concat(pages)
  {
    assert FirstEmpty(pages) == |pages|;
    assert pages[..|pages|] == pages;
  }

  /** Paging stops at the first empty page: nothing after it is collected. */
  lemma {:induction false} FindStopsAtEmptyPage(pages: seq<FindPage>, b: string, rest: seq<FindPage>)
    requires forall k :: 0 <= k < |pages| ==> pages[k].docs != []
    ensures FirstEmpty(pages + [FindPage([], b)] + rest) == |pages|
    ensures (pages + [FindPage([], b)] + rest)[..|pages|] == pages
    decreases |pages|
  {
    var all := pages + [FindPage([], b)] + rest;
    if pages != [] {
      assert all[1..] == pages[1..] + [FindPage([], b)] + rest;
      FindStopsAtEmptyPage(pages[1..], b, rest);
    }
    assert all[..|pages|] == pages;
  }
}
