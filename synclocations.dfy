/**
 * Sync-location change detection of the client sync engine
 * (`syncLocationsDontMatch` and `syncLocationConfigsDontMatch`).
 *
 * A device sync location is a path of nodes from the top of the location
 * hierarchy down to the node the device syncs; the deepest node is the last
 * one. The comparison is modelled as the code writes it: the deepest node of
 * the first argument is compared with itself, so two configurations never
 * "don't match"; reading the deepest node of an empty path throws a
 * TypeError, which the model returns as `None`.
 */
module SyncLocations {
  import opened Wrappers

  datatype LocationNode = LocationNode(level: string, value: string)

  /** A device sync location: its path of nodes, deepest last. */
  datatype LocationConfig = LocationConfig(level: string, value: seq<LocationNode>)

  /**
   * `syncLocationsDontMatch(a, b)`. Both "lowest nodes" are read from `a`;
   * `b` is not consulted. None when `a`'s path is empty.
   */
  function SyncLocationsDontMatch(a: LocationConfig, b: LocationConfig): (r: Option<bool>)
    ensures r.None? <==> a.value == []
    ensures r.Some? ==> r.value == false
  {
    if a.value == [] then None
    else
      var lowestANode := a.value[|a.value| - 1];
      var lowestBNode := a.value[|a.value| - 1];
      Some(lowestANode.value != lowestBNode.value)
  }

  /** `bs.some(lcB => syncLocationsDontMatch(lcB, x))`, where a throwing callback ends the walk. */
  function SomeFromB(bs: seq<LocationConfig>, x: LocationConfig): Option<bool> {
    if bs == [] then Some(false)
    else
      match SyncLocationsDontMatch(bs[0], x)
      case None => None
      case Some(t) => if t then Some(true) else SomeFromB(bs[1..], x)
  }

  /** `xs.some(lcA => syncLocationsDontMatch(y, lcA))`. */
  function SomeWithFirst(y: LocationConfig, xs: seq<LocationConfig>): Option<bool> {
    if xs == [] then Some(false)
    else
      match SyncLocationsDontMatch(y, xs[0])
      case None => None
      case Some(t) => if t then Some(true) else SomeWithFirst(y, xs[1..])
  }

  /** The first loop, over `a`, from flag value `flag`. */
  function FirstPass(a: seq<LocationConfig>, b: seq<LocationConfig>, flag: bool): Option<bool> {
    if a == [] then Some(flag)
    else
      match SomeFromB(b, a[0])
      case None => None
      case Some(t) => FirstPass(a[1..], b, flag || t)
  }

  /** The second loop, over `b`, from flag value `flag`. */
  function SecondPass(b: seq<LocationConfig>, a: seq<LocationConfig>, flag: bool): Option<bool> {
    if b == [] then Some(flag)
    else
      match SomeWithFirst(b[0], a)
      case None => None
      case Some(t) => SecondPass(b[1..], a, flag || t)
  }

  /** `syncLocationConfigsDontMatch(a, b)` as the value its two loops compute. */
  function ConfigsDontMatch(a: seq<LocationConfig>, b: seq<LocationConfig>): Option<bool> {
    match FirstPass(a, b, false)
    case None => None
    case Some(f) => SecondPass(b, a, f)
  }

  /** An empty path somewhere in the list. */
  predicate SomeEmptyPath(locs: seq<LocationConfig>) {
    exists j :: 0 <= j < |locs| && locs[j].value == []
  }

  lemma SomeEmptyPathTail(locs: seq<LocationConfig>)
    requires locs != []
    ensures SomeEmptyPath(locs) <==> locs[0].value == [] || SomeEmptyPath(locs[1..])
  {
    if SomeEmptyPath(locs) && locs[0].value != [] {
      var j :| 0 <= j < |locs| && locs[j].value == [];
      assert locs[1..][j - 1].value == [];
    }
    if SomeEmptyPath(locs[1..]) {
      var j :| 0 <= j < |locs[1..]| && locs[1..][j].value == [];
      assert locs[j + 1].value == [];
    }
  }

  lemma {:induction false} SomeFromBIs(bs: seq<LocationConfig>, x: LocationConfig)
    ensures SomeFromB(bs, x) == if SomeEmptyPath(bs) then None else Some(false)
  {
    if bs != [] {
      SomeEmptyPathTail(bs);
      SomeFromBIs(bs[1..], x);
    }
  }

  lemma {:induction false} SomeWithFirstIs(y: LocationConfig, xs: seq<LocationConfig>)
    ensures SomeWithFirst(y, xs) == if xs != [] && y.value == [] then None else Some(false)
  {
    if xs != [] && y.value != [] {
      SomeWithFirstIs(y, xs[1..]);
    }
  }

  lemma {:induction false} FirstPassIs(a: seq<LocationConfig>, b: seq<LocationConfig>, flag: bool)
    ensures FirstPass(a, b, flag) == if a != [] && SomeEmptyPath(b) then None else Some(flag)
  {
    if a != [] {
      SomeFromBIs(b, a[0]);
      FirstPassIs(a[1..], b, flag);
    }
  }

  lemma {:induction false} SecondPassIs(b: seq<LocationConfig>, a: seq<LocationConfig>, flag: bool)
    ensures SecondPass(b, a, flag) == if a != [] && SomeEmptyPath(b) then None else Some(flag)
  {
    if b != [] {
      SomeEmptyPathTail(b);
      SomeWithFirstIs(b[0], a);
      SecondPassIs(b[1..], a, flag);
    }
  }

  /**
   * As written, the comparison throws exactly when `a` is non-empty and some
   * configuration of `b` has an empty path, and otherwise reports that the
   * locations match, whatever they are.
   */
  lemma ConfigsDontMatchAsWritten(a: seq<LocationConfig>, b: seq<LocationConfig>)
    ensures ConfigsDontMatch(a, b) == if a != [] && SomeEmptyPath(b) then None else Some(false)
  {
    FirstPassIs(a, b, false);
    SecondPassIs(b, a, false);
  }

  /** Even two disjoint locations count as matching. */
  lemma DifferentLocationsMatch()
    ensures ConfigsDontMatch(
              [LocationConfig("region", [LocationNode("region", "r1")])],
              [LocationConfig("region", [LocationNode("region", "r2")])]) == Some(false)
  {
    ConfigsDontMatchAsWritten(
      [LocationConfig("region", [LocationNode("region", "r1")])],
      [LocationConfig("region", [LocationNode("region", "r2")])]);
  }

  /** `syncLocationConfigsDontMatch` with its two loops and its flag; None when a comparison throws. */
  method SyncLocationConfigsDontMatch(a: seq<LocationConfig>, b: seq<LocationConfig>) returns (r: Option<bool>)
    ensures r == ConfigsDontMatch(a, b)
  {
    var flag := false;
    var i := 0;
    while i < |a|
      invariant 0 <= i <= |a|
      invariant FirstPass(a[i..], b, flag) == FirstPass(a, b, false)
    {
      assert a[i..][1..] == a[i + 1..];
      var some := SomeFromB(b, a[i]);
      if some.None? {
        return None;
      }
      if some.value {
        flag := true;
      }
      i := i + 1;
    }
    var j := 0;
    while j < |b|
      invariant 0 <= j <= |b|
      invariant SecondPass(b[j..], a, flag) == ConfigsDontMatch(a, b)
    {
      assert b[j..][1..] == b[j + 1..];
      var some := SomeWithFirst(b[j], a);
      if some.None? {
        return None;
      }
      if some.value {
        flag := true;
      }
      j := j + 1;
    }
    return Some(flag);
  }
}
