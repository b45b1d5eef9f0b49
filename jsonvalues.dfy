/**
 * JavaScript values as the modelled code sees them: documents, form
 * responses, replication info and status records. Numbers are integers (the
 * modelled code only counts and compares them) plus NaN, which arises when a
 * count is added to `undefined`. An object is the ordered list of its own
 * enumerable properties, in the order they were added, and `Object.keys`,
 * `entries` and `JSON.stringify` follow that list. JavaScript lists
 * integer-like keys first, in ascending order; this model does not.
 */
module JsonValues {
  import opened Wrappers
  import opened Strings

  datatype Json =
    | Undefined
    | Null
    | Bool(b: bool)
    | Num(n: int)
    | NaN
    | Str(s: string)
    | Arr(items: seq<Json>)
    | Obj(fields: seq<(string, Json)>)

  /** JavaScript truthiness (`if (v)`, `v || w`, `v ? a : b`). */
  predicate Truthy(v: Json) {
    match v
    case Undefined => false
    case Null => false
    case Bool(b) => b
    case Num(n) => n != 0
    case NaN => false
    case Str(s) => s != ""
    case Arr(_) => true
    case Obj(_) => true
  }

  /** `typeof v === 'object'`: true for null, arrays and objects. */
  predicate TypeofObject(v: Json) {
    v.Null? || v.Arr? || v.Obj?
  }

  /** `v === Object(v)`: arrays and objects, but not null and no primitive. */
  predicate IsObjectValue(v: Json) {
    v.Arr? || v.Obj?
  }

  function Keys(fields: seq<(string, Json)>): (r: seq<string>)
    ensures |r| == |fields|
    ensures forall i :: 0 <= i < |fields| ==> r[i] == fields[i].0
  {
    seq(|fields|, i requires 0 <= i < |fields| => fields[i].0)
  }

  /** No key occurs twice: every object built by the modelled code has this shape. */
  predicate UniqueKeys(fields: seq<(string, Json)>) {
    forall i, j :: 0 <= i < j < |fields| ==> fields[i].0 != fields[j].0
  }

  lemma KeysAppend(a: seq<(string, Json)>, b: seq<(string, Json)>)
    ensures Keys(a + b) == Keys(a) + Keys(b)
  {
  }

  predicate HasKey(fields: seq<(string, Json)>, k: string) {
    k in Keys(fields)
  }

  /** The value stored under `k`, or `undefined`. */
  function Lookup(fields: seq<(string, Json)>, k: string): (r: Json)
    ensures !HasKey(fields, k) ==> r == Undefined
  {
    if fields == [] then Undefined
    else if fields[0].0 == k then fields[0].1
    else
      assert Keys(fields) == [fields[0].0] + Keys(fields[1..]);
      Lookup(fields[1..], k)
  }

  lemma LookupStep(fields: seq<(string, Json)>, k: string)
    requires fields != []
    ensures Lookup(fields, k) == if fields[0].0 == k then fields[0].1 else Lookup(fields[1..], k)
  {
  }

  /** `v[k]` for a value that is neither null nor undefined: primitives and arrays have no named own properties here. */
  function Get(v: Json, k: string): Json {
    if v.Obj? then Lookup(v.fields, k) else Undefined
  }

  /** `v.k`, where reading a property of null or undefined throws a TypeError (None). */
  function Member(v: Json, k: string): (r: Option<Json>)
    ensures r.None? <==> (v.Undefined? || v.Null?)
  {
    if v.Undefined? || v.Null? then None else Some(Get(v, k))
  }

  /** `o[k] = v` on an object: an existing key keeps its position, a new key goes last. */
  function ObjSet(fields: seq<(string, Json)>, k: string, v: Json): seq<(string, Json)> {
    if fields == [] then [(k, v)]
    else if fields[0].0 == k then [(k, v)] + fields[1..]
    else [fields[0]] + ObjSet(fields[1..], k, v)
  }

  lemma HasKeyStep(fields: seq<(string, Json)>, k: string)
    requires fields != []
    ensures HasKey(fields, k) <==> fields[0].0 == k || HasKey(fields[1..], k)
  {
    assert Keys(fields) == [fields[0].0] + Keys(fields[1..]);
  }

  /** Assigning an existing key keeps the key order; a new key is appended. */
  lemma ObjSetKeys(fields: seq<(string, Json)>, k: string, v: Json)
    ensures HasKey(fields, k) ==> Keys(ObjSet(fields, k, v)) == Keys(fields)
    ensures !HasKey(fields, k) ==> ObjSet(fields, k, v) == fields + [(k, v)]
  {
    if HasKey(fields, k) {
      ObjSetExistingKey(fields, k, v);
    } else {
      ObjSetNewKey(fields, k, v);
    }
  }

  lemma ObjSetExistingKey(fields: seq<(string, Json)>, k: string, v: Json)
    requires HasKey(fields, k)
    ensures Keys(ObjSet(fields, k, v)) == Keys(fields)
  {
    ObjSetSameShape(fields, k, v);
    var r := ObjSet(fields, k, v);
    assert forall i :: 0 <= i < |fields| ==> Keys(r)[i] == Keys(fields)[i];
  }

  lemma {:induction false} ObjSetSameShape(fields: seq<(string, Json)>, k: string, v: Json)
    requires HasKey(fields, k)
    ensures |ObjSet(fields, k, v)| == |fields|
    ensures forall i :: 0 <= i < |fields| ==> ObjSet(fields, k, v)[i].0 == fields[i].0
  {
    HasKeyStep(fields, k);
    if fields[0].0 != k {
      ObjSetSameShape(fields[1..], k, v);
      var rest := ObjSet(fields[1..], k, v);
      assert ObjSet(fields, k, v) == [fields[0]] + rest;
      forall i | 1 <= i < |fields|
        ensures ObjSet(fields, k, v)[i].0 == fields[i].0
      {
        assert ObjSet(fields, k, v)[i] == rest[i - 1];
      }
    }
  }

  lemma {:induction false} ObjSetNewKey(fields: seq<(string, Json)>, k: string, v: Json)
    requires !HasKey(fields, k)
    ensures ObjSet(fields, k, v) == fields + [(k, v)]
  {
    if fields != [] {
      HasKeyStep(fields, k);
      ObjSetNewKey(fields[1..], k, v);
      assert fields + [(k, v)] == [fields[0]] + (fields[1..] + [(k, v)]);
    }
  }

  lemma ObjSetHasKey(fields: seq<(string, Json)>, k: string, v: Json, k': string)
    ensures HasKey(ObjSet(fields, k, v), k') <==> k' == k || HasKey(fields, k')
  {
    ObjSetKeys(fields, k, v);
    if !HasKey(fields, k) {
      assert Keys(fields + [(k, v)]) == Keys(fields) + [k];
    }
  }

  /** After `o[k] = v`, reading `k` gives `v` and every other key is unchanged. */
  lemma {:induction false} ObjSetLookup(fields: seq<(string, Json)>, k: string, v: Json, k': string)
    ensures Lookup(ObjSet(fields, k, v), k') == if k' == k then v else Lookup(fields, k')
  {
    if fields != [] && fields[0].0 != k {
      ObjSetLookup(fields[1..], k, v, k');
      assert ([fields[0]] + ObjSet(fields[1..], k, v))[1..] == ObjSet(fields[1..], k, v);
    }
  }

  lemma {:induction false} ObjSetKeepsUniqueKeys(fields: seq<(string, Json)>, k: string, v: Json)
    requires UniqueKeys(fields)
    ensures UniqueKeys(ObjSet(fields, k, v))
  {
    var r := ObjSet(fields, k, v);
    if fields != [] && fields[0].0 != k {
      ObjSetKeepsUniqueKeys(fields[1..], k, v);
      var rest := ObjSet(fields[1..], k, v);
      forall m | 0 <= m < |fields[1..]|
        ensures Keys(fields[1..])[m] != fields[0].0
      {
        assert fields[m + 1].0 == Keys(fields[1..])[m];
      }
      forall i, j | 0 <= i < j < |r|
        ensures r[i].0 != r[j].0
      {
        if i == 0 {
          assert r[j] == rest[j - 1];
          assert Keys(rest)[j - 1] == rest[j - 1].0;
          ObjSetHasKey(fields[1..], k, v, rest[j - 1].0);
        } else {
          assert r[i] == rest[i - 1] && r[j] == rest[j - 1];
        }
      }
    } else if fields != [] {
      forall i, j | 0 <= i < j < |r|
        ensures r[i].0 != r[j].0
      {
        assert r[j] == fields[j];
        if i > 0 { assert r[i] == fields[i]; }
      }
    }
  }

  /** `delete o[k]`. */
  function ObjRemove(fields: seq<(string, Json)>, k: string): (r: seq<(string, Json)>)
    ensures forall i :: 0 <= i < |r| ==> r[i].0 != k
    ensures |r| <= |fields|
  {
    if fields == [] then []
    else if fields[0].0 == k then ObjRemove(fields[1..], k)
    else [fields[0]] + ObjRemove(fields[1..], k)
  }

  lemma {:induction false} ObjRemoveLookup(fields: seq<(string, Json)>, k: string, k': string)
    ensures Lookup(ObjRemove(fields, k), k') == if k' == k then Undefined else Lookup(fields, k')
  {
    if fields != [] {
      ObjRemoveLookup(fields[1..], k, k');
      if fields[0].0 != k {
        assert ([fields[0]] + ObjRemove(fields[1..], k))[1..] == ObjRemove(fields[1..], k);
      }
    }
  }

  /** `{...a, ...b}`: the properties of `b` assigned one by one onto a copy of `a`. */
  function Spread(a: seq<(string, Json)>, b: seq<(string, Json)>): (r: seq<(string, Json)>)
    decreases |b|
  {
    if b == [] then a else Spread(ObjSet(a, b[0].0, b[0].1), b[1..])
  }

  lemma {:induction false} SpreadLookup(a: seq<(string, Json)>, b: seq<(string, Json)>, k: string)
    requires UniqueKeys(b)
    ensures Lookup(Spread(a, b), k) == if HasKey(b, k) then Lookup(b, k) else Lookup(a, k)
    decreases |b|
  {
    if b != [] {
      SpreadLookup(ObjSet(a, b[0].0, b[0].1), b[1..], k);
      ObjSetLookup(a, b[0].0, b[0].1, k);
      assert Keys(b) == [b[0].0] + Keys(b[1..]);
      forall m | 0 <= m < |b[1..]|
        ensures Keys(b[1..])[m] != b[0].0
      {
        assert b[m + 1].0 == Keys(b[1..])[m];
      }
    }
  }

  /** Copying an object with unique keys onto a fresh one gives it back. */
  lemma {:induction false} SpreadOntoFresh(a: seq<(string, Json)>, b: seq<(string, Json)>)
    requires UniqueKeys(a + b)
    ensures Spread(a, b) == a + b
    decreases |b|
  {
    if b != [] {
      forall i | 0 <= i < |a|
        ensures Keys(a)[i] != b[0].0
      {
        assert (a + b)[i].0 != (a + b)[|a|].0;
      }
      ObjSetNewKey(a, b[0].0, b[0].1);
      assert a + [b[0]] + b[1..] == a + b;
      SpreadOntoFresh(a + [b[0]], b[1..]);
    }
  }

  lemma UniqueKeysParts(a: seq<(string, Json)>, b: seq<(string, Json)>)
    requires UniqueKeys(a + b)
    ensures UniqueKeys(a) && UniqueKeys(b)
  {
    assert forall i :: 0 <= i < |a| ==> (a + b)[i] == a[i];
    assert forall i :: 0 <= i < |b| ==> (a + b)[|a| + i] == b[i];
  }

  /** `{...a, ...b}` for objects with unique keys: `b` wins, then `a`. */
  lemma FreshSpreadLookup(a: seq<(string, Json)>, b: seq<(string, Json)>, k: string)
    requires UniqueKeys(a) && UniqueKeys(b)
    ensures Lookup(Spread(Spread([], a), b), k) == if HasKey(b, k) then Lookup(b, k) else Lookup(a, k)
  {
    assert [] + a == a;
    SpreadOntoFresh([], a);
    SpreadLookup(a, b, k);
  }

  /** In an object with unique keys, each key reads its own value. */
  lemma {:induction false} LookupAt(fields: seq<(string, Json)>, i: nat)
    requires UniqueKeys(fields) && i < |fields|
    ensures Lookup(fields, fields[i].0) == fields[i].1
  {
    if i > 0 {
      assert fields[0].0 != fields[i].0;
      UniqueKeysParts([fields[0]], fields[1..]);
      assert [fields[0]] + fields[1..] == fields;
      LookupAt(fields[1..], i - 1);
    }
  }

  /** Every entry after `o[k] = v` is an entry of `o` or the new one. */
  lemma {:induction false} ObjSetEntries(fields: seq<(string, Json)>, k: string, v: Json)
    ensures forall e :: e in ObjSet(fields, k, v) ==> e in fields || e == (k, v)
  {
    if fields != [] && fields[0].0 != k {
      ObjSetEntries(fields[1..], k, v);
      assert forall e :: e in fields[1..] ==> e in fields;
    } else if fields != [] {
      assert forall e :: e in fields[1..] ==> e in fields;
    }
  }

  /** `String(v)` for the values the modelled code converts to text. */
  function ToJsString(v: Json): string {
    match v
    case Undefined => "undefined"
    case Null => "null"
    case Bool(b) => if b then "true" else "false"
    case Num(n) => IntToString(n)
    case NaN => "NaN"
    case Str(s) => s
    case Arr(items) => Join(ArrayItemStrings(items), ",")
    case Obj(_) => "[object Object]"
  }

  /** `Array.prototype.join` renders null and undefined elements as the empty string. */
  function ArrayItemStrings(items: seq<Json>): (r: seq<string>)
    ensures |r| == |items|
    decreases items, 0
  {
    if items == [] then []
    else [if items[0].Undefined? || items[0].Null? then "" else ToJsString(items[0])] + ArrayItemStrings(items[1..])
  }

  /** `ToNumber` for the primitives that reach the modelled additions. */
  function ToNumber(v: Json): Json
    ensures ToNumber(v).Num? || ToNumber(v).NaN?
  {
    match v
    case Null => Num(0)
    case Bool(b) => Num(if b then 1 else 0)
    case Num(n) => Num(n)
    case Str(s) => if s == "" then Num(0) else NaN
    case _ => NaN
  }

  /** `a + b`: string concatenation when either side is a string, array or object, numeric addition otherwise. */
  function Add(a: Json, b: Json): (r: Json)
    ensures a.Num? && b.Num? ==> r == Num(a.n + b.n)
    ensures (a.Undefined? || b.Undefined?) && !(a.Str? || b.Str? || IsObjectValue(a) || IsObjectValue(b)) ==> r == NaN
  {
    if a.Str? || b.Str? || IsObjectValue(a) || IsObjectValue(b) then Str(ToJsString(a) + ToJsString(b))
    else
      var x := ToNumber(a);
      var y := ToNumber(b);
      if x.Num? && y.Num? then Num(x.n + y.n) else NaN
  }

  /** NaN is absorbing for addition of non-string values. */
  lemma AddNaN(b: Json)
    requires !b.Str? && !IsObjectValue(b)
    ensures Add(NaN, b) == NaN
  {
  }

  function HexDigit(d: nat): char
    requires d < 16
  {
    if d < 10 then ('0' as int + d) as char else ('a' as int + d - 10) as char
  }

  /** The JSON escape of one character inside a string literal. */
  function EscapeChar(ch: char): string {
    if ch == '"' then "\\\""
    else if ch == '\\' then "\\\\"
    else if ch == '\U{8}' then "\\b"
    else if ch == '\U{C}' then "\\f"
    else if ch == '\n' then "\\n"
    else if ch == '\r' then "\\r"
    else if ch == '\t' then "\\t"
    else if (ch as int) < 0x20 then "\\u00" + [HexDigit(ch as int / 16), HexDigit(ch as int % 16)]
    else [ch]
  }

  function EscapeString(s: string): string {
    if s == [] then "" else EscapeChar(s[0]) + EscapeString(s[1..])
  }

  function Quote(s: string): (r: string)
    ensures |r| >= 2 && r[0] == '"'
  {
    "\"" + EscapeString(s) + "\""
  }

  /**
   * `JSON.stringify(v)`: `undefined` for `undefined`, otherwise a string. NaN
   * becomes `null`, array elements that are `undefined` become `null`, and
   * object properties whose value is `undefined` are skipped.
   */
  function Stringify(v: Json): (r: Json)
    ensures r.Undefined? <==> v.Undefined?
    ensures !v.Undefined? ==> r.Str? && r.s != ""
  {
    if v.Undefined? then Undefined else Str(StringifyText(v))
  }

  function StringifyText(v: Json): (r: string)
    requires !v.Undefined?
    ensures r != ""
    decreases v, 1
  {
    match v
    case Null => "null"
    case Bool(b) => if b then "true" else "false"
    case Num(n) => IntToString(n)
    case NaN => "null"
    case Str(s) => Quote(s)
    case Arr(items) => "[" + Join(StringifyItems(items), ",") + "]"
    case Obj(fields) => "{" + Join(StringifyFields(fields), ",") + "}"
  }

  function StringifyItems(items: seq<Json>): (r: seq<string>)
    ensures |r| == |items|
    decreases items, 0
  {
    if items == [] then []
    else [if items[0].Undefined? then "null" else StringifyText(items[0])] + StringifyItems(items[1..])
  }

  function StringifyFields(fields: seq<(string, Json)>): seq<string>
    decreases fields, 0
  {
    if fields == [] then []
    else if fields[0].1.Undefined? then StringifyFields(fields[1..])
    else
      assert fields[0].1 < fields[0];
      [Quote(fields[0].0) + ":" + StringifyText(fields[0].1)] + StringifyFields(fields[1..])
  }
}
