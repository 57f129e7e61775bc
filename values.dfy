/** The pure logic behind the editor's value state: deriving the values from a
    schema and the host's initial values, type defaults, applying one edit,
    and looking one value up. */
module ParamValues {
  import opened ParamTypes

  /** `values.find(pv => pv.paramId === id)`: the first entry carrying `id`. */
  function Find(values: seq<ParamValue>, id: int): (r: Option<ParamValue>)
    ensures r.None? <==> !HasId(values, id)
    ensures r.Some? ==> exists k :: IsFirstMatch(values, id, k) && values[k] == r.value
  {
    if values == [] then None
    else if values[0].paramId == id then
      assert IsFirstMatch(values, id, 0);
      Some(values[0])
    else
      var rest := Find(values[1..], id);
      if rest.Some? then
        var k :| IsFirstMatch(values[1..], id, k) && values[1..][k] == rest.value;
        assert IsFirstMatch(values, id, k + 1);
        rest
      else
        rest
  }

  /** An id that occurs has a first occurrence. */
  lemma FirstMatchExists(values: seq<ParamValue>, id: int)
    requires HasId(values, id)
    ensures exists k :: IsFirstMatch(values, id, k)
  {
    var found := Find(values, id);
  }

  /** The value a parameter of type `paramType` starts with when the host
      supplies none: "" for text, "0" for numbers, "" for any other tag. */
  function DefaultValue(paramType: string): (r: string)
    ensures paramType == "string" ==> r == ""
    ensures paramType == "number" ==> r == "0"
    ensures paramType != "string" && paramType != "number" ==> r == ""
  {
    match paramType
    case "string" => ""
    case "number" => "0"
    case _ => ""
  }

  /** The entry the editor derives for one schema parameter: the first initial
      value with the parameter's id, unless that value is empty, in which case
      (as when there is none) the type default. */
  function InitialEntry(p: Param, init: seq<ParamValue>): (pv: ParamValue)
    ensures pv.paramId == p.id
    ensures forall k :: IsFirstMatch(init, p.id, k) ==>
      pv.value == (if init[k].value != "" then init[k].value else DefaultValue(p.paramType))
    ensures !HasId(init, p.id) ==> pv.value == DefaultValue(p.paramType)
  {
    var existing := Find(init, p.id);
    var supplied := if existing.Some? then existing.value.value else "";
    ParamValue(p.id, OrElse(supplied, DefaultValue(p.paramType)))
  }

  /** The state derived from a schema and the host's initial values: one entry
      per schema parameter, in schema order, each carrying its parameter's id
      and the value chosen by InitialEntry. Initial values whose id is not in
      the schema are dropped. */
  function InitializeParamValues(params: seq<Param>, init: seq<ParamValue>): (r: seq<ParamValue>)
    ensures |r| == |params|
    ensures forall i :: 0 <= i < |params| ==> r[i].paramId == params[i].id
    ensures forall i, k :: 0 <= i < |params| && IsFirstMatch(init, params[i].id, k) ==>
      r[i].value == (if init[k].value != "" then init[k].value else DefaultValue(params[i].paramType))
    ensures forall i :: 0 <= i < |params| && !HasId(init, params[i].id) ==>
      r[i].value == DefaultValue(params[i].paramType)
  {
    if params == [] then []
    else [InitialEntry(params[0], init)] + InitializeParamValues(params[1..], init)
  }

  /** The updater of an edit: every entry carrying `id` gets `v`. The list keeps
      its length and its ids; entries with other ids are left as they were. */
  function ApplyEdit(values: seq<ParamValue>, id: int, v: string): (r: seq<ParamValue>)
    ensures |r| == |values|
    ensures forall i :: 0 <= i < |values| ==> r[i].paramId == values[i].paramId
    ensures forall i :: 0 <= i < |values| && values[i].paramId == id ==> r[i].value == v
    ensures forall i :: 0 <= i < |values| && values[i].paramId != id ==> r[i] == values[i]
  {
    if values == [] then []
    else
      var head := if values[0].paramId == id then values[0].(value := v) else values[0];
      [head] + ApplyEdit(values[1..], id, v)
  }

  /** `getParamValue`: the value of the first entry carrying `id`, or "" when
      no entry carries it. */
  function LookupValue(values: seq<ParamValue>, id: int): (r: string)
    ensures !HasId(values, id) ==> r == ""
    ensures forall k :: IsFirstMatch(values, id, k) ==> r == values[k].value
  {
    var found := Find(values, id);
    OrElse(if found.Some? then found.value.value else "", "")
  }

  // ---------------------------------------------------------------------------
  // Properties of initialization

  /** The derived state has exactly the schema's ids, in schema order. */
  lemma InitializeIds(params: seq<Param>, init: seq<ParamValue>)
    ensures Ids(InitializeParamValues(params, init)) == ParamIds(params)
  {
  }

  /** An empty schema derives an empty state, whatever the initial values. */
  lemma InitializeEmptySchema(init: seq<ParamValue>)
    ensures InitializeParamValues([], init) == []
  {
  }

  /** A supplied but empty value does not survive initialization: a "number"
      parameter whose first initial value is "" starts at "0". */
  lemma EmptyNumberBecomesZero(p: Param, init: seq<ParamValue>, k: nat)
    requires p.paramType == "number"
    requires IsFirstMatch(init, p.id, k) && init[k].value == ""
    ensures InitializeParamValues([p], init) == [ParamValue(p.id, "0")]
  {
    var r := InitializeParamValues([p], init);
    assert r[0].value == "0";
  }

  /** Only the FIRST initial value with a given id matters: later duplicates
      are ignored. */
  lemma InitializeIgnoresLaterDuplicates(p: Param, a: string, b: string)
    requires a != ""
    ensures InitializeParamValues([p], [ParamValue(p.id, a), ParamValue(p.id, b)]) == [ParamValue(p.id, a)]
  {
    assert IsFirstMatch([ParamValue(p.id, a), ParamValue(p.id, b)], p.id, 0);
  }

  /** With distinct schema ids, looking a schema id up in the derived state
      gives that parameter's own derived entry. */
  lemma LookupAfterInitialize(params: seq<Param>, init: seq<ParamValue>, i: int)
    requires Distinct(ParamIds(params))
    requires 0 <= i < |params|
    ensures LookupValue(InitializeParamValues(params, init), params[i].id)
         == InitialEntry(params[i], init).value
  {
    var r := InitializeParamValues(params, init);
    forall j | 0 <= j < i
      ensures r[j].paramId != params[i].id
    {
      assert ParamIds(params)[j] != ParamIds(params)[i];
    }
    assert IsFirstMatch(r, params[i].id, i);
  }

  /** With distinct schema ids, the derived state has distinct ids: exactly
      one entry per parameter. */
  lemma InitializeDistinct(params: seq<Param>, init: seq<ParamValue>)
    requires Distinct(ParamIds(params))
    ensures Distinct(Ids(InitializeParamValues(params, init)))
  {
    InitializeIds(params, init);
  }

  /** Feeding a state back as the initial values reproduces it, provided it
      has the schema's ids (distinct) and no empty value where the type
      default is not empty. */
  lemma ReloadRoundTrip(params: seq<Param>, s: seq<ParamValue>)
    requires Distinct(ParamIds(params))
    requires Ids(s) == ParamIds(params)
    requires forall i :: 0 <= i < |s| && s[i].value == "" ==> DefaultValue(params[i].paramType) == ""
    ensures InitializeParamValues(params, s) == s
  {
    var r := InitializeParamValues(params, s);
    forall i | 0 <= i < |params|
      ensures r[i] == s[i]
    {
      assert Ids(s)[i] == params[i].id;
      forall j | 0 <= j < i
        ensures s[j].paramId != params[i].id
      {
        assert Ids(s)[j] == ParamIds(params)[j] != ParamIds(params)[i];
      }
      assert IsFirstMatch(s, params[i].id, i);
    }
  }

  /** ... and without the proviso it fails: a "number" parameter edited to ""
      comes back as "0". */
  lemma ReloadTurnsEmptyNumberIntoZero(p: Param)
    requires p.paramType == "number"
    ensures InitializeParamValues([p], [ParamValue(p.id, "")]) == [ParamValue(p.id, "0")]
  {
    EmptyNumberBecomesZero(p, [ParamValue(p.id, "")], 0);
  }

  // ---------------------------------------------------------------------------
  // Properties of an edit

  /** An edit keeps the id column. */
  lemma ApplyEditIds(values: seq<ParamValue>, id: int, v: string)
    ensures Ids(ApplyEdit(values, id, v)) == Ids(values)
  {
  }

  /** An edit of an id that no entry carries changes nothing. */
  lemma ApplyEditAbsent(values: seq<ParamValue>, id: int, v: string)
    requires !HasId(values, id)
    ensures ApplyEdit(values, id, v) == values
  {
  }

  /** Of two edits of the same id, the second wins. */
  lemma ApplyEditLastWins(values: seq<ParamValue>, id: int, v: string, w: string)
    ensures ApplyEdit(ApplyEdit(values, id, v), id, w) == ApplyEdit(values, id, w)
  {
  }

  /** Edits of different ids commute. */
  lemma ApplyEditCommute(values: seq<ParamValue>, id: int, v: string, id': int, w: string)
    requires id != id'
    ensures ApplyEdit(ApplyEdit(values, id, v), id', w) == ApplyEdit(ApplyEdit(values, id', w), id, v)
  {
  }

  /** An edit is visible to the next lookup of its id. */
  lemma LookupAfterEdit(values: seq<ParamValue>, id: int, v: string)
    ensures LookupValue(ApplyEdit(values, id, v), id) == (if HasId(values, id) then v else "")
  {
    var r := ApplyEdit(values, id, v);
    if HasId(values, id) {
      FirstMatchExists(values, id);
      var k :| IsFirstMatch(values, id, k);
      assert IsFirstMatch(r, id, k);
    } else {
      ApplyEditAbsent(values, id, v);
    }
  }

  /** An edit leaves the lookup of every other id as it was. */
  lemma LookupOtherAfterEdit(values: seq<ParamValue>, id: int, v: string, other: int)
    requires other != id
    ensures LookupValue(ApplyEdit(values, id, v), other) == LookupValue(values, other)
  {
    var r := ApplyEdit(values, id, v);
    if HasId(values, other) {
      FirstMatchExists(values, other);
      var k :| IsFirstMatch(values, other, k);
      assert IsFirstMatch(r, other, k);
    } else {
      forall j | 0 <= j < |r| ensures r[j].paramId != other {
        assert values[j].paramId != other;
      }
    }
  }
}
