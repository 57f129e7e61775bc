/** The parameter editor component: the state it holds between host updates and
    user edits, the snapshot it hands back, and what it renders. */
module Editor {
  import opened ParamTypes
  import opened ParamValues
  import opened Registry

  /** What the host passes in. `params` and `model.paramValues` are arrays in
      the host, compared by reference: each carries a generation token that
      changes exactly when the host passes a different array. */
  datatype Props = Props(
    params: seq<Param>,
    paramsGeneration: nat,
    model: Model,
    valuesGeneration: nat)

  /** The test that triggers a re-synchronization: a different schema array
      or a different initial-values array. Colors are not part of it. */
  predicate InputsChanged(prev: Props, cur: Props)
  {
    prev.paramsGeneration != cur.paramsGeneration
    || prev.valuesGeneration != cur.valuesGeneration
  }

  /** A host that passes the same array again has not changed its contents. */
  ghost predicate KeepsIdentity(prev: Props, cur: Props)
  {
    && (prev.paramsGeneration == cur.paramsGeneration ==> prev.params == cur.params)
    && (prev.valuesGeneration == cur.valuesGeneration ==> prev.model.paramValues == cur.model.paramValues)
  }

  /** One rendered parameter: its descriptor, its renderer and the value shown. */
  datatype Field = Field(param: Param, renderer: Renderer, value: string)

  /** What the editor renders: a placeholder for an empty schema, otherwise
      one field per schema entry. */
  datatype RenderOutput = Placeholder | Fields(fields: seq<Field>)

  /** The render dispatch: every schema entry, in order, gets the renderer its
      type resolves to and the value the state holds for its id. */
  function RenderParams(params: seq<Param>, table: map<string, Renderer>, values: seq<ParamValue>): (out: RenderOutput)
    requires Fallback in table
    ensures out.Placeholder? <==> params == []
    ensures out.Fields? ==> |out.fields| == |params|
    ensures out.Fields? ==> forall i :: 0 <= i < |params| ==>
      && out.fields[i].param == params[i]
      && out.fields[i].renderer == Resolve(table, params[i].paramType)
      && out.fields[i].value == LookupValue(values, params[i].id)
  {
    if params == [] then Placeholder
    else Fields(seq(|params|, i requires 0 <= i < |params| =>
      Field(params[i], Resolve(table, params[i].paramType), LookupValue(values, params[i].id))))
  }

  /** Right after a (re-)synchronization on a schema with distinct ids, every
      field shows the value its parameter was initialised with. */
  lemma RenderAfterInitialize(params: seq<Param>, init: seq<ParamValue>, table: map<string, Renderer>, i: int)
    requires Fallback in table
    requires Distinct(ParamIds(params))
    requires 0 <= i < |params|
    ensures RenderParams(params, table, InitializeParamValues(params, init)).fields[i].value
         == InitializeParamValues(params, init)[i].value
  {
    LookupAfterInitialize(params, init, i);
  }

  class ParamEditor {
    /** The renderer table; shared when the host hands every editor the same one. */
    const registry: ComponentRegistry
    /** The props most recently passed in by the host. */
    var props: Props
    /** The editor state: one value per parameter of the synchronised schema. */
    var paramValues: seq<ParamValue>
    /** The schema the state was last derived from. */
    ghost var syncedParams: seq<Param>

    /** The state's ids are those of the schema it was last derived from, in
        order. */
    ghost predicate Valid()
      reads this
    {
      Ids(paramValues) == ParamIds(syncedParams)
    }

    /** The state was derived from the schema the host passes now. */
    ghost predicate InSync()
      reads this
    {
      syncedParams == props.params
    }

    /** Derives the state from the host's schema and initial values. */
    constructor (props: Props, registry: ComponentRegistry)
      ensures Valid() && InSync()
      ensures this.props == props && this.registry == registry
      ensures paramValues == InitializeParamValues(props.params, props.model.paramValues)
    {
      this.registry := registry;
      this.props := props;
      paramValues := InitializeParamValues(props.params, props.model.paramValues);
      syncedParams := props.params;
      InitializeIds(props.params, props.model.paramValues);
    }

    /** The host passes new props; the state is not touched yet. */
    method SetProps(next: Props)
      modifies this`props
      ensures props == next
    {
      props := next;
    }

    /** Replaces the whole state, discarding edits, when the schema or the
        initial values are a different array than in `prevProps`; otherwise
        leaves it alone. */
    method ComponentDidUpdate(prevProps: Props)
      requires Valid()
      modifies this`paramValues, this`syncedParams
      ensures Valid()
      ensures InputsChanged(prevProps, props) ==>
        paramValues == InitializeParamValues(props.params, props.model.paramValues) && InSync()
      ensures !InputsChanged(prevProps, props) ==>
        paramValues == old(paramValues) && syncedParams == old(syncedParams)
    {
      if InputsChanged(prevProps, props) {
        paramValues := InitializeParamValues(props.params, props.model.paramValues);
        syncedParams := props.params;
        InitializeIds(props.params, props.model.paramValues);
      }
    }

    /** A host update: new props, then the re-synchronization check against
        the props they replace. A host that keeps array identity honest keeps
        the state in sync with the schema it shows. */
    method ReceiveProps(next: Props)
      requires Valid()
      modifies this`props, this`paramValues, this`syncedParams
      ensures Valid() && props == next
      ensures paramValues == if InputsChanged(old(props), next)
        then InitializeParamValues(next.params, next.model.paramValues)
        else old(paramValues)
      ensures InputsChanged(old(props), next) ==> InSync()
      ensures !InputsChanged(old(props), next) ==> syncedParams == old(syncedParams)
      ensures old(InSync()) && KeepsIdentity(old(props), next) ==> InSync()
    {
      var prev := props;
      SetProps(next);
      ComponentDidUpdate(prev);
    }

    /** A user edit: every entry with id `paramId` takes `value`; nothing else
        changes. */
    method HandleParamChange(paramId: int, value: string)
      requires Valid()
      modifies this`paramValues
      ensures Valid()
      ensures paramValues == ApplyEdit(old(paramValues), paramId, value)
      ensures Ids(paramValues) == Ids(old(paramValues))
      ensures forall i :: 0 <= i < |paramValues| && old(paramValues)[i].paramId != paramId ==>
        paramValues[i] == old(paramValues)[i]
      ensures !HasId(old(paramValues), paramId) ==> paramValues == old(paramValues)
    {
      ApplyEditIds(paramValues, paramId, value);
      if !HasId(paramValues, paramId) {
        ApplyEditAbsent(paramValues, paramId, value);
      }
      paramValues := ApplyEdit(paramValues, paramId, value);
    }

    /** A snapshot of the state together with the host's current colors.
        An edit replaces the entries it touches with new ones, so it cannot
        reach a snapshot already taken. */
    method GetModel() returns (m: Model)
      ensures m.paramValues == paramValues
      ensures m.colors == props.model.colors
    {
      m := Model(paramValues, props.model.colors);
    }

    /** The value shown for `paramId`: that of its first entry, "" if none. */
    function GetParamValue(paramId: int): (r: string)
      reads this
      ensures !HasId(paramValues, paramId) ==> r == ""
      ensures forall k :: IsFirstMatch(paramValues, paramId, k) ==> r == paramValues[k].value
    {
      LookupValue(paramValues, paramId)
    }

    /** What the editor renders for the current props and state. */
    function Render(): (out: RenderOutput)
      reads this, registry
      requires registry.Valid()
      ensures out.Placeholder? <==> props.params == []
      ensures out.Fields? ==> |out.fields| == |props.params|
      ensures out.Fields? ==> forall i :: 0 <= i < |props.params| ==>
        && out.fields[i].param == props.params[i]
        && out.fields[i].renderer == registry.GetParamComponent(props.params[i].paramType)
        && out.fields[i].value == GetParamValue(props.params[i].id)
    {
      RenderParams(props.params, registry.table, paramValues)
    }
  }

  /** The host's scenario: derive the state, take a snapshot, edit, take a
      second snapshot. The first snapshot keeps the values it was taken with. */
  method SnapshotThenEdit(p1: Param, p2: Param, colors: seq<Color>) returns (before: Model, after: Model)
    requires p1.id != p2.id
    requires p1.paramType == "string" && p2.paramType == "string"
    ensures before == Model([ParamValue(p1.id, "casual"), ParamValue(p2.id, "")], colors)
    ensures after == Model([ParamValue(p1.id, "casual"), ParamValue(p2.id, "maxi")], colors)
  {
    var registry := new ComponentRegistry();
    var init := [ParamValue(p1.id, "casual")];
    var editor := new ParamEditor(Props([p1, p2], 0, Model(init, colors), 0), registry);
    assert IsFirstMatch(init, p1.id, 0);
    before := editor.GetModel();
    editor.HandleParamChange(p2.id, "maxi");
    after := editor.GetModel();
  }
}
