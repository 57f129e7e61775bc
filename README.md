# ParamEditor state model

This project is a Dafny model of the state logic of `ParamEditor`. `ParamEditor` is a React form widget for editing a product's parameters, such as purpose, length, colour and size. The host gives it two inputs: a schema, which is an ordered list of typed parameters, and an initial model, which holds parameter values and a list of colours. The widget keeps one text value per parameter. The host pulls the edited result with `getModel()`.

The model has four modules:

- `ParamTypes` (`types.dfy`) holds the records `Param`, `ParamValue`, `Color` and `Model`. It also has small predicates over value lists: ids, "has id" and "first match". `OrElse` is JavaScript's `||` on strings, where the empty string is falsy.
- `Registry` (`registry.dfy`) models the renderer registry. In the source it is a static table shared by all editors; here it is an object, `ComponentRegistry`, that each editor is given, so sharing holds when every editor is given the same one. Its field `table: map<string, Renderer>` always holds the `"string"` key. Renderers are opaque tokens.
- `ParamValues` (`values.dfy`) holds the pure logic:
  - `Find`, the `find` call on `paramId`;
  - `DefaultValue`, the type default;
  - `InitialEntry` and `InitializeParamValues`, which derive the state;
  - `ApplyEdit`, the updater inside `handleParamChange`;
  - `LookupValue`, which is `getParamValue`;
  - lemmas about length, order, the falsy-`||` rule, the edit's frame and lookups.
- `Editor` (`editor.dfy`) holds the class `ParamEditor`. Its fields are the current `props`, the state `paramValues` and a reference to the shared registry. It has methods for construction, prop updates, `componentDidUpdate`, edits and `getModel`. It also has functions for `getParamValue` and for the render dispatch.

The host's arrays are compared by reference. The model gives each array a generation token: `Props.paramsGeneration` and `Props.valuesGeneration`. Re-synchronization happens exactly when one of these tokens differs from the previous props. A host can pass changed contents under the same token. This is like mutating the array in place in JavaScript. The model then does not re-synchronize, just like the source.

Three behaviours of the code are worth stating outright:

- **Empty initial values.** The derivation uses `existingValue?.value || default` (`src/paramEditor/index.tsx:115`). So a present but empty initial value is also replaced by the type default: `""` becomes `"0"` for a `number` parameter. `InitialEntry`, `EmptyNumberBecomesZero` and `ReloadTurnsEmptyNumberIntoZero` state this.
- **Duplicate ids.** An edit maps over the whole list (`src/paramEditor/index.tsx:133-135`), so every entry with that id changes, not just the first. `ApplyEdit` does the same.
- **Reset commands.** `src/App.tsx:39`, `src/App.tsx:46` and `src/paramEditor/paramEditor.test.tsx:114` call `resetToInitial`/`resetToEmpty`, which `src/paramEditor/index.tsx` does not define; the `onReset` prop (`src/paramEditor/index.tsx:30`) is never invoked (see Left out).

Two helpers have no row of their own: `ParamTypes.OrElse` is the falsy `||` of `src/paramEditor/index.tsx:115` and `:150`, whose effect `InitialEntry` and `LookupValue` state; `Editor.InputsChanged` is the reference test of `src/paramEditor/index.tsx:94-97`, whose effect `ComponentDidUpdate` states.

## Model

| member | source | states |
|---|---|---|
| `Registry.Resolve` | src/paramEditor/index.tsx:69-73 | The lookup never fails when the table holds "string". It returns a value of the table: the entry for the tag if there is one, else the "string" entry. |
| `Registry.ResolveAfterRegister` | src/paramEditor/index.tsx:75-77 | After registering `c` under `t`, `t` resolves to `c`. Another tag with its own entry keeps it. A tag without an entry resolves to the fallback, which is `c` exactly when `t` is "string". The "string" key is never lost. |
| `Registry.BuiltinResolution` | src/paramEditor/index.tsx:48-67 | Before any registration, "number" resolves to the renderer that shows nothing. Every other tag, "string" included, resolves to the text input. |
| `Registry.ComponentRegistry.constructor` | src/paramEditor/index.tsx:48-67 | The table starts with the two built-in entries and satisfies the "string is present" invariant. |
| `Registry.ComponentRegistry.GetParamComponent` | src/paramEditor/index.tsx:69-73 | The entry for `t` if `t` is a key, else the "string" entry. |
| `Registry.ComponentRegistry.RegisterParamType` | src/paramEditor/index.tsx:75-77 | The new table is the old one with `t` set to `c`, so last registration wins. Lookup of `t` gives `c`, every other key keeps its entry, and the invariant is kept. |
| `Registry.ComponentRegistry.Entries` | src/paramEditor/index.tsx:79-81 | The view has exactly the table's keys, "string" among them, and each key maps to what lookup returns for it. |
| `ParamValues.Find` | src/paramEditor/index.tsx:112 | `None` exactly when no entry has the id. Otherwise the result is the entry at the FIRST index with that id. |
| `ParamValues.DefaultValue` | src/paramEditor/index.tsx:120-129 | "" for "string", "0" for "number", "" for any other tag. |
| `ParamValues.InitialEntry` | src/paramEditor/index.tsx:111-117 | The entry has the parameter's id. Its value is the first matching initial value if that value is non-empty, else the type default. It is also the type default when no initial value has the id. |
| `ParamValues.InitializeParamValues` | src/paramEditor/index.tsx:107-118 | The result has exactly one entry per schema parameter, in schema order, and entry i has `params[i].id`. Its value follows the first-match-or-default rule. Ids not in the schema are dropped. |
| `ParamValues.ApplyEdit` | src/paramEditor/index.tsx:131-137 | Length and the id at every index are unchanged. Every entry with the edited id holds the new value. Every other entry is unchanged. |
| `ParamValues.LookupValue` | src/paramEditor/index.tsx:146-151 | The value of the first entry with the id, or "" when there is none. |
| `ParamValues.InitializeIds` | src/paramEditor/index.tsx:111-117 | The ids of the derived state are the schema's ids, in schema order. |
| `ParamValues.InitializeEmptySchema` | src/paramEditor/index.tsx:111 | An empty schema derives an empty state, whatever the initial values. |
| `ParamValues.EmptyNumberBecomesZero` | src/paramEditor/index.tsx:115 | A "number" parameter whose first initial value is "" starts at "0". |
| `ParamValues.InitializeIgnoresLaterDuplicates` | src/paramEditor/index.tsx:112 | Of two initial values with the same id, only the first is used. |
| `ParamValues.LookupAfterInitialize` | src/paramEditor/paramEditor.test.tsx:36-48 | With distinct schema ids, looking up a parameter's id in the derived state gives that parameter's derived value. |
| `ParamValues.InitializeDistinct` | src/paramEditor/index.tsx:111-117 | With distinct schema ids, the derived state has exactly one entry per id. |
| `ParamValues.ReloadRoundTrip` | src/paramEditor/index.tsx:107-118 | Feeding a state back as initial values reproduces it. This needs the schema's ids, distinct, and no empty value where the default is non-empty. |
| `ParamValues.ReloadTurnsEmptyNumberIntoZero` | src/paramEditor/index.tsx:115 | Without that condition the round trip fails: a "number" value "" comes back as "0". |
| `ParamValues.ApplyEditIds` | src/paramEditor/index.tsx:133-135 | An edit keeps the id column unchanged. |
| `ParamValues.ApplyEditAbsent` | src/paramEditor/index.tsx:133-135 | Editing an id that no entry has changes nothing. |
| `ParamValues.ApplyEditLastWins` | src/paramEditor/index.tsx:133-135 | Of two edits of the same id, the second wins. |
| `ParamValues.ApplyEditCommute` | src/paramEditor/index.tsx:133-135 | Edits of different ids commute. |
| `ParamValues.LookupAfterEdit` | src/paramEditor/paramEditor.test.tsx:79-87 | After an edit, looking up its id gives the new value if the id was present, else "". |
| `ParamValues.LookupOtherAfterEdit` | src/paramEditor/index.tsx:133-135 | After an edit, the lookup of any other id is unchanged. |
| `Editor.RenderParams` | src/paramEditor/index.tsx:169-184 | The placeholder appears exactly when the schema is empty. Otherwise there is one field per schema entry, in order. Each field carries the renderer its type resolves to and the value the state holds for its id. |
| `Editor.RenderAfterInitialize` | src/paramEditor/paramEditor.test.tsx:36-48 | Right after derivation with distinct ids, every field shows its parameter's derived value. |
| `Editor.ParamEditor.constructor` | src/paramEditor/index.tsx:83-91 | The state is derived from the props' schema and initial values, and it is in sync with the schema. |
| `Editor.ParamEditor.SetProps` | src/paramEditor/index.tsx:93-96 | The new props replace the old ones. The state is untouched until `ComponentDidUpdate` runs. |
| `Editor.ParamEditor.ComponentDidUpdate` | src/paramEditor/index.tsx:93-105 | If either generation differs from `prevProps`, the state becomes exactly the derivation from the current props, and any edits are discarded. Otherwise the state is unchanged. The id invariant is kept. |
| `Editor.ParamEditor.ReceiveProps` | src/paramEditor/index.tsx:93-105 | A host update sets the props. If either generation changed, the state becomes the derivation from the new props and is in sync with the new schema; otherwise the state and the schema it was derived from are unchanged. If the host keeps array identity honest, the state stays in sync with the schema it shows. |
| `Editor.ParamEditor.HandleParamChange` | src/paramEditor/index.tsx:131-137 | The state becomes the edited list. The ids are unchanged, other entries are unchanged, and an absent id changes nothing. |
| `Editor.ParamEditor.GetModel` | src/paramEditor/index.tsx:139-144 | The snapshot's values equal the state element-wise, and its colors are the current props' colors. |
| `Editor.ParamEditor.GetParamValue` | src/paramEditor/index.tsx:146-151 | The value of the state's first entry with the id, or "" when there is none. |
| `Editor.ParamEditor.Render` | src/paramEditor/index.tsx:169-184 | The placeholder appears exactly when the current schema is empty. Otherwise there is one field per schema entry, in order; each field carries its own schema entry, the registry's renderer for its type and the value `GetParamValue` gives for its id. |
| `Editor.SnapshotThenEdit` | src/paramEditor/paramEditor.test.tsx:69-87 | A snapshot taken before an edit keeps the values it was taken with. The second snapshot shows the edit, and both carry the host's colors. |

## Left out

- JSX and presentation are not modelled: labels, inputs, styles, placeholder text and the `param-<id>` element ids. Only the render dispatch is modelled: one renderer per schema entry, or the placeholder for an empty schema.
- React lifecycle mechanics are not modelled: `setState` batching and asynchrony, and `ref` wiring. Every state update is one synchronous assignment. React's assignment of new props is `SetProps`, followed by `ComponentDidUpdate`.
- `resetToInitial`, `resetToEmpty` and the `onReset` callback are not modelled. The host page and the test call the two reset methods, but the component does not define them, and it never invokes `onReset`.
- `Registry.ComponentRegistry.constructor`: the source has exactly one registry (a static member, `src/paramEditor/index.tsx:48`); the model lets a host give two editors different registries, so one shared table is a property of the host's use, not of the model.
- `Editor.ParamEditor.GetModel`: the source copies the two arrays with spread (`src/paramEditor/index.tsx:141-142`) but shares the `ParamValue` and `Color` objects inside them, so a host that writes into `getModel().paramValues[0].value` changes the editor's state and what it renders next. The model's records are values, so this aliasing is not captured. What does hold in both is that a later edit never reaches an earlier snapshot, because the edit builds new entries (`src/paramEditor/index.tsx:134`).
- `Registry.ComponentRegistry.Entries`: the source getter returns the live registry object (`src/paramEditor/index.tsx:79-81`), so a view taken earlier shows later registrations. The model returns the table's value at the time of the call, so that live aliasing is not captured.
- Renderers are opaque tokens, and every token is truthy. The `||` in `getParamComponent` can therefore only fall back when a key is missing. A plain JavaScript object would also answer prototype keys such as `"constructor"`. The model's table answers only registered keys.
- The type tag is any string. The source's `"string" | "number"` union is a compile-time restriction only, and `registerParamType` accepts any string.
- Parameter ids are unbounded integers. JavaScript numbers are doubles, and NaN or fractional ids are not modelled.
- `Param.options` and the contents of `Color` are carried but never inspected.
- `src/App.tsx` is not part of this model. It is a demo host page with buttons, alerts and logging.
