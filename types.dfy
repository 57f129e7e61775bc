/** The records the parameter editor exchanges with its host. */
module ParamTypes {

  datatype Option<+T> = None | Some(value: T)

  /** A schema entry, supplied by the host and never changed by the editor.
      `paramType` is the tag that selects a renderer ("string", "number", or any
      tag registered later). */
  datatype Param = Param(id: int, name: string, paramType: string, options: Option<seq<string>>)

  /** The edit unit: the current text of one parameter. */
  datatype ParamValue = ParamValue(paramId: int, value: string)

  /** Reference data the editor carries through without looking inside. */
  datatype Color = Color(id: int, name: string)

  /** The bundle exchanged with the host: values plus the pass-through colors. */
  datatype Model = Model(paramValues: seq<ParamValue>, colors: seq<Color>)

  /** The ids of a value list, in order. */
  function Ids(values: seq<ParamValue>): seq<int>
  {
    seq(|values|, i requires 0 <= i < |values| => values[i].paramId)
  }

  /** The ids of a schema, in order. */
  function ParamIds(params: seq<Param>): seq<int>
  {
    seq(|params|, i requires 0 <= i < |params| => params[i].id)
  }

  /** No id occurs twice. */
  predicate Distinct(ids: seq<int>)
  {
    forall i, j :: 0 <= i < j < |ids| ==> ids[i] != ids[j]
  }

  /** Some entry of `values` carries `id`. */
  predicate HasId(values: seq<ParamValue>, id: int)
  {
    exists k :: 0 <= k < |values| && values[k].paramId == id
  }

  /** `k` is the index of the first entry of `values` that carries `id`. */
  predicate IsFirstMatch(values: seq<ParamValue>, id: int, k: int)
  {
    && 0 <= k < |values|
    && values[k].paramId == id
    && forall j :: 0 <= j < k ==> values[j].paramId != id
  }

  /** JavaScript's `a || b` on two strings: the empty string is falsy. */
  function OrElse(s: string, fallback: string): string
  {
    if s != "" then s else fallback
  }
}
