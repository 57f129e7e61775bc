/** The renderer registry: a mutable table from a parameter-type tag to the
    component that renders a parameter of that type. In the source the table
    is a static member, shared by every editor; here it is an object that each
    editor is given, so the sharing holds when the host gives every editor the
    same one. */
module Registry {

  /** Renderers are opaque here: the built-in text input, the built-in
      renderer that shows nothing, and components registered by the host. */
  datatype Renderer = StringInput | Empty | Custom(token: nat)

  /** The tag every lookup falls back to. */
  const Fallback: string := "string"

  /** The table as it stands before any registration. */
  const Builtins: map<string, Renderer> := map[Fallback := StringInput, "number" := Empty]

  /** Lookup in a table that holds the fallback tag: the entry for `t`,
      or the fallback entry when `t` has none. Never fails. */
  function Resolve(table: map<string, Renderer>, t: string): (r: Renderer)
    requires Fallback in table
    ensures r in table.Values
    ensures t in table ==> r == table[t]
    ensures t !in table ==> r == table[Fallback]
  {
    if t in table then table[t] else table[Fallback]
  }

  /** After registering `c` under `t`, `t` resolves to `c`; a tag with its own
      entry keeps it; a tag without one follows the fallback entry, which is
      `c` exactly when `t` is the fallback tag itself. */
  lemma ResolveAfterRegister(table: map<string, Renderer>, t: string, c: Renderer, u: string)
    requires Fallback in table
    ensures Fallback in table[t := c]
    ensures Resolve(table[t := c], t) == c
    ensures u != t && u in table ==> Resolve(table[t := c], u) == table[u]
    ensures u != t && u !in table ==>
      Resolve(table[t := c], u) == (if t == Fallback then c else table[Fallback])
  {
  }

  /** Before any registration, "string" gives the text input, "number" gives
      the renderer that shows nothing, and every other tag the text input. */
  lemma BuiltinResolution(t: string)
    ensures Fallback in Builtins
    ensures Resolve(Builtins, t) == (if t == "number" then Empty else StringInput)
  {
  }

  class ComponentRegistry {
    var table: map<string, Renderer>

    /** The fallback entry is never missing, so lookup never fails. */
    ghost predicate Valid()
      reads this
    {
      Fallback in table
    }

    constructor ()
      ensures Valid()
      ensures table == Builtins
    {
      table := Builtins;
    }

    /** The renderer for tag `t`, or the "string" renderer when `t` has none. */
    function GetParamComponent(t: string): (r: Renderer)
      reads this
      requires Valid()
      ensures t in table ==> r == table[t]
      ensures t !in table ==> r == table[Fallback]
    {
      Resolve(table, t)
    }

    /** Installs or overwrites the entry for `t`; last registration wins. */
    method RegisterParamType(t: string, c: Renderer)
      requires Valid()
      modifies this
      ensures Valid()
      ensures table == old(table)[t := c]
      ensures GetParamComponent(t) == c
      ensures forall u :: u != t && u in old(table) ==> u in table && table[u] == old(table)[u]
    {
      table := table[t := c];
    }

    /** A read-only view of the whole table. */
    function Entries(): (m: map<string, Renderer>)
      reads this
      requires Valid()
      ensures Fallback in m
      ensures m.Keys == table.Keys
      ensures forall t :: t in m ==> GetParamComponent(t) == m[t]
    {
      table
    }
  }
}
