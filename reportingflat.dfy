/**
 * The flat record the MySQL reporting module builds from a form response:
 * the base columns, then one variable per input value as handed to
 * `setVariable` (key and value), in item and input order. Sanitised outputs
 * leave out every input flagged as an identifier.
 *
 * Also the small helpers of the module: `getItemValue`, `flatten` and
 * `getLocationByKeys`.
 */
module ReportingFlat {
  import opened Wrappers
  import opened Strings
  import opened JsonValues

  type Fields = seq<(string, Json)>

  /** An input of a response item: its name, tag, value and `identifier` flag. */
  datatype Input = Input(name: string, tagName: string, value: Json, identifier: Json)

  datatype Item = Item(inputs: seq<Input>)

  datatype Form = Form(id: string, title: Json)

  /** A response doc: its own top-level properties other than `form` and `items`, then those two. */
  datatype Response = Response(top: Fields, form: Form, items: seq<Item>)

  /**
   * One `setVariable(flatFormResponse, input, key, value)` call, or an input
   * handed to the location branch (`TANGY-LOCATION`), whose calls are not
   * part of this model.
   */
  datatype Call = SetVar(input: Input, key: string, value: Json) | Location(input: Input)

  /** The flat record: the base columns and the variable calls that follow them. */
  datatype FlatResponse = FlatResponse(base: Fields, calls: seq<Call>)

  /** `v || ''`. */
  function OrEmpty(v: Json): (r: Json)
    ensures Truthy(v) ==> r == v
    ensures !Truthy(v) ==> r == Str("")
  {
    if Truthy(v) then v else Str("")
  }

  /** An empty form id is replaced by `blank`. */
  function BlankFormId(id: string): (r: string)
    ensures r != ""
    ensures id != "" ==> r == id
  {
    if id == "" then "blank" else id
  }

  /** The response as `generateFlatResponse` leaves it: the form id made non-empty. */
  function WithFormId(r: Response): Response {
    r.(form := r.form.(id := BlankFormId(r.form.id)))
  }

  /** The base columns, in order; read from the response after its form id was made non-empty. */
  function BaseFields(r: Response): Fields {
    FormColumns(r) + OptionalColumns(r.top) + StateColumns(r.top)
  }

  function FormColumns(r: Response): Fields {
    [("_id", Lookup(r.top, "_id")),
     ("formId", Str(r.form.id)),
     ("formTitle", r.form.title),
     ("startUnixtime", Lookup(r.top, "startUnixtime"))]
  }

  /** The columns written as `doc.x || ''`. */
  function OptionalColumns(top: Fields): Fields {
    [("endUnixtime", OrEmpty(Lookup(top, "endUnixtime"))),
     ("buildId", OrEmpty(Lookup(top, "buildId"))),
     ("buildChannel", OrEmpty(Lookup(top, "buildChannel"))),
     ("deviceId", OrEmpty(Lookup(top, "deviceId"))),
     ("groupId", OrEmpty(Lookup(top, "groupId")))]
  }

  function StateColumns(top: Fields): Fields {
    [("complete", Lookup(top, "complete")),
     ("archived", OrEmpty(Lookup(top, "archived")))]
  }

  const FormColumnNames: seq<string> := ["_id", "formId", "formTitle", "startUnixtime"]
  const OptionalColumnNames: seq<string> := ["endUnixtime", "buildId", "buildChannel", "deviceId", "groupId"]
  const StateColumnNames: seq<string> := ["complete", "archived"]
  const BaseColumns: seq<string> := FormColumnNames + OptionalColumnNames + StateColumnNames

  lemma FormColumnsKeys(r: Response)
    ensures Keys(FormColumns(r)) == FormColumnNames
  {
    var f := FormColumns(r);
    assert Keys(f) == [f[0].0, f[1].0, f[2].0, f[3].0];
  }

  lemma OptionalColumnsKeys(top: Fields)
    ensures Keys(OptionalColumns(top)) == OptionalColumnNames
  {
    var o := OptionalColumns(top);
    assert Keys(o) == [o[0].0, o[1].0, o[2].0, o[3].0, o[4].0];
  }

  lemma StateColumnsKeys(top: Fields)
    ensures Keys(StateColumns(top)) == StateColumnNames
  {
    var t := StateColumns(top);
    assert Keys(t) == [t[0].0, t[1].0];
  }

  /** The base columns and their order are fixed. */
  lemma BaseFieldsColumns(r: Response)
    ensures Keys(BaseFields(r)) == BaseColumns
  {
    FormColumnsKeys(r);
    OptionalColumnsKeys(r.top);
    StateColumnsKeys(r.top);
    KeysAppend(FormColumns(r), OptionalColumns(r.top));
    KeysAppend(FormColumns(r) + OptionalColumns(r.top), StateColumns(r.top));
  }

  /** The form id column is never empty. */
  lemma BaseFieldsFormId(r: Response)
    ensures BaseFields(WithFormId(r))[1].1 == Str(BlankFormId(r.form.id)) != Str("")
  {
    assert BaseFields(WithFormId(r))[1] == FormColumns(WithFormId(r))[1];
  }

  /** The optional columns and `archived` are never `undefined`. */
  lemma BaseFieldsDefined(r: Response)
    ensures forall i :: 4 <= i <= 10 && i != 9 ==> !BaseFields(r)[i].1.Undefined?
  {
    var f, o, t := FormColumns(r), OptionalColumns(r.top), StateColumns(r.top);
    OptionalColumnsDefined(r.top);
    assert !t[1].1.Undefined?;
    assert |f| == 4 && |o| == 5;
    assert forall i :: 4 <= i < 9 ==> BaseFields(r)[i] == o[i - 4];
    assert BaseFields(r)[10] == t[1];
  }

  lemma OptionalColumnsDefined(top: Fields)
    ensures forall i :: 0 <= i < |OptionalColumns(top)| ==> !OptionalColumns(top)[i].1.Undefined?
  {
  }

  /** An input a sanitised output leaves out. */
  predicate Hidden(input: Input, sanitized: bool) {
    sanitized && Truthy(input.identifier)
  }

  /** `options.find(option => !!option.value)`; None when an option is null or undefined, where reading `value` throws. */
  function SelectedOption(options: seq<Json>): (r: Option<Option<Json>>)
    ensures r == Some(None) ==> forall i :: 0 <= i < |options| ==> Member(options[i], "value").Some? && !Truthy(Get(options[i], "value"))
    ensures r.Some? && r.value.Some? ==> exists i :: 0 <= i < |options| && options[i] == r.value.value && Truthy(Get(options[i], "value"))
    decreases |options|
  {
    if options == [] then Some(None)
    else
      match Member(options[0], "value")
      case None => None
      case Some(v) =>
        if Truthy(v) then Some(Some(options[0]))
        else
          var rest := SelectedOption(options[1..]);
          assert forall i :: 1 <= i < |options| ==> options[i] == options[1..][i - 1];
          rest
  }

  /** One call per element of an array value, keyed `name.<group.name>`; None when an element is null or undefined. */
  function GroupCalls(input: Input, groups: seq<Json>): (r: Option<seq<Call>>)
    ensures r.Some? ==> (
      && |r.value| == |groups|
      && forall i :: 0 <= i < |groups| ==> r.value[i] == SetVar(input, input.name + "." + ToJsString(Get(groups[i], "name")), Get(groups[i], "value")))
    ensures r.None? <==> exists i :: 0 <= i < |groups| && (groups[i].Undefined? || groups[i].Null?)
    decreases |groups|
  {
    if groups == [] then Some([])
    else
      var g := groups[0];
      var rest := GroupCalls(input, groups[1..]);
      assert forall i :: 1 <= i < |groups| ==> groups[i] == groups[1..][i - 1];
      if g.Undefined? || g.Null? || rest.None? then None
      else Some([SetVar(input, input.name + "." + ToJsString(Get(g, "name")), Get(g, "value"))] + rest.value)
  }

  /** One call per own property of an object value, keyed `name.<key>`. */
  function KeyCalls(input: Input, fields: Fields): (r: seq<Call>)
    ensures |r| == |fields|
    ensures forall i :: 0 <= i < |fields| ==> r[i] == SetVar(input, input.name + "." + fields[i].0, fields[i].1)
  {
    seq(|fields|, i requires 0 <= i < |fields| => SetVar(input, input.name + "." + fields[i].0, fields[i].1))
  }

  /** The calls one (not hidden) input gives rise to, chosen by its tag and the type of its value. */
  function InputCalls(input: Input): Option<seq<Call>> {
    var v := input.value;
    if input.tagName == "TANGY-LOCATION" then Some([Location(input)])
    else if input.tagName == "TANGY-RADIO-BUTTONS" && v.Arr? then
      match SelectedOption(v.items)
      case None => None
      case Some(None) => Some([SetVar(input, input.name, Str(""))])
      case Some(Some(option)) => Some([SetVar(input, input.name, Get(option, "name"))])
    else if input.tagName == "TANGY-PHOTO-CAPTURE" || input.tagName == "TANGY-VIDEO-CAPTURE" then
      Some([SetVar(input, input.name, Str(if Truthy(v) then "true" else "false"))])
    else if v.Str? || v.Num? || v.NaN? then Some([SetVar(input, input.name, v)])
    else if v.Arr? then GroupCalls(input, v.items)
    else if v.Obj? then Some(KeyCalls(input, v.fields))
    else Some([])
  }

  /** Every call an input gives rise to carries that input. */
  lemma InputCallsOwnInput(input: Input)
    ensures InputCalls(input).Some? ==> forall c :: c in InputCalls(input).value ==> c.input == input
  {
  }

  /** `a` followed by `b`, where either may have thrown. */
  function Then(a: Option<seq<Call>>, b: Option<seq<Call>>): (r: Option<seq<Call>>)
    ensures r.Some? <==> a.Some? && b.Some?
    ensures r.Some? ==> r.value == a.value + b.value
  {
    if a.Some? && b.Some? then Some(a.value + b.value) else None
  }

  /** The calls of the inputs of one item, in order. */
  function InputsCalls(inputs: seq<Input>, sanitized: bool): Option<seq<Call>>
    decreases |inputs|
  {
    if inputs == [] then Some([])
    else
      var last := inputs[|inputs| - 1];
      Then(InputsCalls(inputs[..|inputs| - 1], sanitized), if Hidden(last, sanitized) then Some([]) else InputCalls(last))
  }

  /** The calls of all items, in order. */
  function ItemsCalls(items: seq<Item>, sanitized: bool): Option<seq<Call>>
    decreases |items|
  {
    if items == [] then Some([])
    else Then(ItemsCalls(items[..|items| - 1], sanitized), InputsCalls(items[|items| - 1].inputs, sanitized))
  }

  /** The flat record of a response, or None when building it throws. */
  function FlatOf(r: Response, sanitized: bool): Option<FlatResponse> {
    match ItemsCalls(r.items, sanitized)
    case None => None
    case Some(calls) => Some(FlatResponse(BaseFields(WithFormId(r)), calls))
  }

  /**
   * `generateFlatResponse(formResponse, sanitized)`: the form id is made
   * non-empty on the response itself, then the base columns are taken and
   * the inputs walked, item by item.
   */
  method GenerateFlatResponse(r: Response, sanitized: bool) returns (r': Response, flat: Option<FlatResponse>)
    ensures r' == WithFormId(r)
    ensures flat == FlatOf(r, sanitized)
  {
    r' := r;
    if r'.form.id == "" {
      r' := r'.(form := r'.form.(id := "blank"));
    }
    var base := BaseFields(r');
    var calls: Option<seq<Call>> := Some([]);
    var i := 0;
    while i < |r'.items|
      invariant i <= |r'.items| && r'.items == r.items
      invariant calls == ItemsCalls(r.items[..i], sanitized)
    {
      assert r.items[..i + 1][..i] == r.items[..i];
      var itemCalls := ItemInputsCalls(r'.items[i].inputs, sanitized);
      calls := Then(calls, itemCalls);
      i := i + 1;
    }
    assert r.items[..i] == r.items;
    flat := if calls.None? then None else Some(FlatResponse(base, calls.value));
  }

  /** The inner loop of `generateFlatResponse`: the calls of one item's inputs, in order. */
  method ItemInputsCalls(inputs: seq<Input>, sanitized: bool) returns (itemCalls: Option<seq<Call>>)
    ensures itemCalls == InputsCalls(inputs, sanitized)
  {
    itemCalls := Some([]);
    var j := 0;
    while j < |inputs|
      invariant j <= |inputs|
      invariant itemCalls == InputsCalls(inputs[..j], sanitized)
    {
      assert inputs[..j + 1][..j] == inputs[..j];
      var input := inputs[j];
      if !Hidden(input, sanitized) {
        itemCalls := Then(itemCalls, InputCalls(input));
      } else {
        itemCalls := Then(itemCalls, Some([]));
      }
      j := j + 1;
    }
    assert inputs[..j] == inputs;
  }

  /** Every call of an item's inputs comes from one of them, never from a hidden one. */
  lemma {:induction false} InputsCallsVisible(inputs: seq<Input>, sanitized: bool)
    ensures InputsCalls(inputs, sanitized).Some? ==>
      forall c :: c in InputsCalls(inputs, sanitized).value ==> c.input in inputs && !Hidden(c.input, sanitized)
    decreases |inputs|
  {
    if inputs != [] {
      var init := inputs[..|inputs| - 1];
      var last := inputs[|inputs| - 1];
      InputsCallsVisible(init, sanitized);
      InputCallsOwnInput(last);
      assert forall x :: x in init ==> x in inputs;
    }
  }

  /** A sanitised flat record carries nothing of an input flagged as an identifier. */
  lemma {:induction false} SanitizedHidesIdentifiers(items: seq<Item>)
    ensures ItemsCalls(items, true).Some? ==> forall c :: c in ItemsCalls(items, true).value ==> !Truthy(c.input.identifier)
    decreases |items|
  {
    if items != [] {
      SanitizedHidesIdentifiers(items[..|items| - 1]);
      InputsCallsVisible(items[|items| - 1].inputs, true);
    }
  }

  /** The inputs of an item without those flagged as identifiers. */
  function Unidentified(inputs: seq<Input>): seq<Input>
    decreases |inputs|
  {
    if inputs == [] then []
    else
      var last := inputs[|inputs| - 1];
      Unidentified(inputs[..|inputs| - 1]) + (if Truthy(last.identifier) then [] else [last])
  }

  /** Sanitising is the same as flattening the items with the identifier inputs removed. */
  lemma {:induction false} SanitizedIsUnidentified(inputs: seq<Input>)
    ensures InputsCalls(inputs, true) == InputsCalls(Unidentified(inputs), false)
    decreases |inputs|
  {
    if inputs != [] {
      var init := inputs[..|inputs| - 1];
      var last := inputs[|inputs| - 1];
      SanitizedIsUnidentified(init);
      var u := Unidentified(init);
      var sub := InputsCalls(u, false);
      if !Truthy(last.identifier) {
        assert (u + [last])[..|u + [last]| - 1] == u;
        assert InputsCalls(u + [last], false) == Then(sub, InputCalls(last));
      } else {
        assert Unidentified(inputs) == u + [] == u;
        assert sub.Some? ==> sub.value + [] == sub.value;
      }
    }
  }

  /** Every item with its identifier inputs removed. */
  function UnidentifiedItems(items: seq<Item>): (r: seq<Item>)
    ensures |r| == |items|
    ensures forall i :: 0 <= i < |items| ==> r[i] == Item(Unidentified(items[i].inputs))
  {
    seq(|items|, i requires 0 <= i < |items| => Item(Unidentified(items[i].inputs)))
  }

  lemma {:induction false} SanitizedItemsUnidentified(items: seq<Item>)
    ensures ItemsCalls(items, true) == ItemsCalls(UnidentifiedItems(items), false)
    decreases |items|
  {
    if items != [] {
      var init := items[..|items| - 1];
      SanitizedItemsUnidentified(init);
      SanitizedIsUnidentified(items[|items| - 1].inputs);
      assert UnidentifiedItems(items)[..|items| - 1] == UnidentifiedItems(init);
    }
  }

  /** The sanitised flat record of a response is the full flat record of the same response with its identifier inputs removed. */
  lemma SanitizedFlatIsUnidentified(r: Response)
    ensures FlatOf(r, true) == FlatOf(r.(items := UnidentifiedItems(r.items)), false)
  {
    SanitizedItemsUnidentified(r.items);
  }

  /** Tag mapping for the common cases. */
  lemma TagMapping(input: Input)
    requires input.tagName != "TANGY-LOCATION"
    ensures input.tagName == "TANGY-PHOTO-CAPTURE" ==>
      InputCalls(input) == Some([SetVar(input, input.name, Str(if Truthy(input.value) then "true" else "false"))])
    ensures (input.tagName != "TANGY-RADIO-BUTTONS" && input.tagName != "TANGY-PHOTO-CAPTURE"
             && input.tagName != "TANGY-VIDEO-CAPTURE" && (input.value.Str? || input.value.Num?))
      ==> InputCalls(input) == Some([SetVar(input, input.name, input.value)])
    ensures (input.tagName == "TANGY-RADIO-BUTTONS" && input.value.Arr? && SelectedOption(input.value.items) == Some(None))
      ==> InputCalls(input) == Some([SetVar(input, input.name, Str(""))])
    ensures (input.tagName != "TANGY-RADIO-BUTTONS" && input.tagName != "TANGY-PHOTO-CAPTURE"
             && input.tagName != "TANGY-VIDEO-CAPTURE" && input.value.Obj?)
      ==> InputCalls(input) == Some(KeyCalls(input, input.value.fields))
    ensures ((input.value.Undefined? || input.value.Null? || input.value.Bool?) && input.tagName != "TANGY-PHOTO-CAPTURE"
             && input.tagName != "TANGY-VIDEO-CAPTURE")
      ==> InputCalls(input) == Some([])
  {
  }

  /** Assigning the variables onto the record, taking `setVariable(obj, input, key, value)` to assign `obj[key] = value`. */
  function ApplyCalls(acc: Fields, calls: seq<Call>): Fields
    decreases |calls|
  {
    if calls == [] then acc
    else
      var next := if calls[0].SetVar? then ObjSet(acc, calls[0].key, calls[0].value) else acc;
      ApplyCalls(next, calls[1..])
  }

  /** The flat record as an object. */
  function FlatRecord(f: FlatResponse): Fields {
    ApplyCalls(f.base, f.calls)
  }

  // ---------------------------------------------------------------------------------------------
  // getItemValue

  /** The variables of `getItemValue`: every input's value assigned by name onto an object, item by item. */
  function AssignInputs(acc: Fields, inputs: seq<Input>): Fields
    decreases |inputs|
  {
    if inputs == [] then acc else AssignInputs(ObjSet(acc, inputs[0].name, inputs[0].value), inputs[1..])
  }

  function AssignItems(acc: Fields, items: seq<Item>): Fields
    decreases |items|
  {
    if items == [] then acc else AssignItems(AssignInputs(acc, items[0].inputs), items[1..])
  }

  /** `getItemValue(doc, variableName)`. */
  function GetItemValue(items: seq<Item>, variableName: string): Json {
    Lookup(AssignItems([], items), variableName)
  }

  /** Every input of every item, in order. */
  function AllInputs(items: seq<Item>): seq<Input>
    decreases |items|
  {
    if items == [] then [] else items[0].inputs + AllInputs(items[1..])
  }

  /** The position of the last input with the given name. */
  function LastNamed(inputs: seq<Input>, name: string): (r: Option<nat>)
    ensures r.Some? ==> (
      && r.value < |inputs| && inputs[r.value].name == name
      && forall j :: r.value < j < |inputs| ==> inputs[j].name != name)
    ensures r.None? ==> forall j :: 0 <= j < |inputs| ==> inputs[j].name != name
    decreases |inputs|
  {
    if inputs == [] then None
    else if inputs[|inputs| - 1].name == name then Some(|inputs| - 1)
    else LastNamed(inputs[..|inputs| - 1], name)
  }

  /** The value of the last input with the given name, `undefined` when there is none. */
  function LastValue(inputs: seq<Input>, name: string): Json {
    match LastNamed(inputs, name)
    case None => Undefined
    case Some(i) => inputs[i].value
  }

  lemma {:induction false} LastValueAppend(a: seq<Input>, b: seq<Input>, name: string)
    ensures LastValue(a + b, name) == if LastNamed(b, name).Some? then LastValue(b, name) else LastValue(a, name)
    decreases |b|
  {
    if b != [] {
      var init := b[..|b| - 1];
      assert (a + b)[..|a + b| - 1] == a + init;
      LastValueAppend(a, init, name);
    } else {
      assert a + b == a;
    }
  }

  lemma {:induction false} AssignInputsLookup(acc: Fields, inputs: seq<Input>, name: string)
    ensures Lookup(AssignInputs(acc, inputs), name) == if LastNamed(inputs, name).Some? then LastValue(inputs, name) else Lookup(acc, name)
    decreases |inputs|
  {
    if inputs != [] {
      var first := inputs[0];
      AssignInputsLookup(ObjSet(acc, first.name, first.value), inputs[1..], name);
      ObjSetLookup(acc, first.name, first.value, name);
      assert inputs == [first] + inputs[1..];
      LastValueAppend([first], inputs[1..], name);
      assert LastValue([first], name) == (if first.name == name then first.value else Undefined);
    }
  }

  lemma {:induction false} AssignItemsLookup(acc: Fields, items: seq<Item>, name: string)
    ensures Lookup(AssignItems(acc, items), name) ==
      if LastNamed(AllInputs(items), name).Some? then LastValue(AllInputs(items), name) else Lookup(acc, name)
    decreases |items|
  {
    if items != [] {
      var ins := items[0].inputs;
      AssignItemsLookup(AssignInputs(acc, ins), items[1..], name);
      AssignInputsLookup(acc, ins, name);
      LastValueAppend(ins, AllInputs(items[1..]), name);
      LastNamedAppend(ins, AllInputs(items[1..]), name);
    }
  }

  lemma LastNamedAppend(a: seq<Input>, b: seq<Input>, name: string)
    ensures LastNamed(a + b, name).Some? <==> LastNamed(a, name).Some? || LastNamed(b, name).Some?
  {
    if LastNamed(a + b, name).Some? {
      var i := LastNamed(a + b, name).value;
      if i >= |a| {
        assert (a + b)[i] == b[i - |a|];
      } else {
        assert (a + b)[i] == a[i];
      }
    }
    if LastNamed(a, name).Some? {
      assert (a + b)[LastNamed(a, name).value].name == name;
    }
    if LastNamed(b, name).Some? {
      assert (a + b)[|a| + LastNamed(b, name).value].name == name;
    }
  }

  /** `getItemValue` gives the value of the last input with that name across all items: later inputs override earlier ones. */
  lemma GetItemValueIsLast(items: seq<Item>, variableName: string)
    ensures GetItemValue(items, variableName) == LastValue(AllInputs(items), variableName)
  {
    AssignItemsLookup([], items, variableName);
  }

  // ---------------------------------------------------------------------------------------------
  // flatten

  /**
   * `flatten(obj, roots, sep)`: each property is merged into the result in
   * turn; a plain-object value is flattened under its key, any other value
   * (arrays included) is a leaf keyed by the joined path. The nested call
   * passes no separator, so it uses the default `.`.
   */
  function Flatten(fields: Fields, roots: seq<string>, sep: string): Fields
    decreases fields, 1
  {
    FlattenFrom([], fields, roots, sep)
  }

  function FlattenFrom(memo: Fields, fields: Fields, roots: seq<string>, sep: string): Fields
    decreases fields, 0
  {
    if fields == [] then memo
    else
      var prop := fields[0].0;
      var v := fields[0].1;
      assert v < fields[0];
      var part := if v.Obj? then Flatten(v.fields, roots + [prop], ".") else [(Join(roots + [prop], sep), v)];
      FlattenFrom(Spread(Spread([], memo), part), fields[1..], roots, sep)
  }

  /** A record without plain-object values. */
  predicate NoObjects(fields: Fields) {
    forall i :: 0 <= i < |fields| ==> !fields[i].1.Obj?
  }

  /** With no roots, an object without plain-object values flattens to itself: every value, arrays included, is a leaf under its own key. */
  lemma {:induction false} FlattenFlat(memo: Fields, fields: Fields, sep: string)
    requires NoObjects(fields) && UniqueKeys(memo + fields)
    ensures FlattenFrom(memo, fields, [], sep) == memo + fields
    decreases |fields|
  {
    if fields == [] {
      assert memo + fields == memo;
    } else {
      var prop := fields[0].0;
      assert [] + [prop] == [prop];
      assert Join([prop], sep) == prop;
      assert memo + fields == (memo + [fields[0]]) + fields[1..];
      UniqueKeysParts(memo + [fields[0]], fields[1..]);
      UniqueKeysParts(memo, [fields[0]]);
      assert [] + memo == memo;
      SpreadOntoFresh([], memo);
      SpreadOntoFresh(memo, [fields[0]]);
      FlattenFlat(memo + [fields[0]], fields[1..], sep);
    }
  }

  /** The leaves of `inner` keyed under `k`: `<k>.<key>`. */
  function Prefixed(k: string, inner: Fields): (r: Fields)
    ensures |r| == |inner|
  {
    seq(|inner|, i requires 0 <= i < |inner| => (k + "." + inner[i].0, inner[i].1))
  }

  lemma PrefixedUnique(k: string, inner: Fields)
    requires UniqueKeys(inner)
    ensures UniqueKeys(Prefixed(k, inner))
  {
    var r := Prefixed(k, inner);
    forall i, j | 0 <= i < j < |r|
      ensures r[i].0 != r[j].0
    {
      var p := k + ".";
      assert r[i].0 == p + inner[i].0 && r[j].0 == p + inner[j].0;
      assert (p + inner[i].0)[|p|..] == inner[i].0;
      assert (p + inner[j].0)[|p|..] == inner[j].0;
    }
  }

  /** Under the single root `k`, the leaves of an object without plain-object values are keyed `<k>.<key>`. */
  lemma {:induction false} FlattenUnderRoot(k: string, memo: Fields, inner: Fields)
    requires NoObjects(inner) && UniqueKeys(memo + Prefixed(k, inner))
    ensures FlattenFrom(memo, inner, [k], ".") == memo + Prefixed(k, inner)
    decreases |inner|
  {
    if inner == [] {
      assert memo + Prefixed(k, inner) == memo;
    } else {
      var e := (k + "." + inner[0].0, inner[0].1);
      var p := Prefixed(k, inner);
      assert Join([k] + [inner[0].0], ".") == k + "." + inner[0].0;
      assert p == [e] + Prefixed(k, inner[1..]);
      assert memo + p == (memo + [e]) + Prefixed(k, inner[1..]);
      UniqueKeysParts(memo + [e], Prefixed(k, inner[1..]));
      UniqueKeysParts(memo, [e]);
      assert [] + memo == memo;
      SpreadOntoFresh([], memo);
      SpreadOntoFresh(memo, [e]);
      FlattenUnderRoot(k, memo + [e], inner[1..]);
    }
  }

  /** A nested plain object's leaves are keyed `<key>.<leaf key>`. */
  lemma FlattenNested(k: string, inner: Fields, sep: string)
    requires NoObjects(inner) && UniqueKeys(inner)
    ensures Flatten([(k, Obj(inner))], [], sep) == Prefixed(k, inner)
  {
    var p := Prefixed(k, inner);
    assert [] + [k] == [k];
    PrefixedUnique(k, inner);
    assert [] + p == p;
    FlattenUnderRoot(k, [], inner);
    assert Flatten(inner, [k], ".") == p;
    SpreadOntoFresh([], p);
    var fs := [(k, Obj(inner))];
    assert fs[1..] == [];
    assert FlattenFrom([], fs, [], sep) == FlattenFrom(Spread(Spread([], []), p), [], [], sep);
  }

  /** Without roots the separator is never used: a top-level key is a one-element join and nested levels use the default. */
  lemma {:induction false} FlattenIgnoresSeparator(memo: Fields, fields: Fields, sep: string)
    ensures FlattenFrom(memo, fields, [], sep) == FlattenFrom(memo, fields, [], ".")
    decreases |fields|
  {
    if fields != [] {
      var prop := fields[0].0;
      assert [] + [prop] == [prop];
      assert Join([prop], sep) == prop && Join([prop], ".") == prop;
      var v := fields[0].1;
      var part := if v.Obj? then Flatten(v.fields, [prop], ".") else [(prop, v)];
      FlattenIgnoresSeparator(Spread(Spread([], memo), part), fields[1..], sep);
    }
  }

  // ---------------------------------------------------------------------------------------------
  // getLocationByKeys

  /** One level down: `level.children[key]`; None when `level` or its `children` is null or undefined. */
  function Child(level: Json, key: string): Option<Json> {
    match Member(level, "children")
    case None => None
    case Some(children) => Member(children, key)
  }

  /** Following the keys down from `level`. */
  function Descend(level: Json, keys: seq<string>): Option<Json>
    decreases |keys|
  {
    if keys == [] then Some(level)
    else
      match Child(level, keys[0])
      case None => None
      case Some(next) => Descend(next, keys[1..])
  }

  /** The first key (`undefined`, read as the property name `undefined`, when there are no keys) picks the top-level location. */
  function TopLocation(keys: seq<string>, locationList: Json): Option<Json> {
    match Member(locationList, "locations")
    case None => None
    case Some(locations) => Member(locations, if keys == [] then "undefined" else keys[0])
  }

  /** `getLocationByKeys(keys, locationList)`; None when it throws. */
  method GetLocationByKeys(keys: seq<string>, locationList: Json) returns (r: Option<Json>)
    ensures r == match TopLocation(keys, locationList) case None => None case Some(top) => Descend(top, if keys == [] then [] else keys[1..])
  {
    r := TopLocation(keys, locationList);
    if r.None? {
      return;
    }
    var rest := if keys == [] then [] else keys[1..];
    ghost var top := r.value;
    var k := 0;
    while k < |rest|
      invariant k <= |rest|
      invariant r.Some? ==> Descend(top, rest) == Descend(r.value, rest[k..])
      invariant r.None? ==> Descend(top, rest).None?
    {
      if r.Some? {
        r := Child(r.value, rest[k]);
      }
      k := k + 1;
    }
  }

  /** Descending along a path in two parts is descending along each in turn. */
  lemma {:induction false} DescendAppend(level: Json, a: seq<string>, b: seq<string>)
    ensures Descend(level, a + b) == match Descend(level, a) case None => None case Some(mid) => Descend(mid, b)
    decreases |a|
  {
    if a != [] {
      assert (a + b)[1..] == a[1..] + b;
      match Child(level, a[0]) {
        case None =>
        case Some(next) => DescendAppend(next, a[1..], b);
      }
    } else {
      assert a + b == b;
    }
  }
}
