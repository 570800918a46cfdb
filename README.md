# JSON Schema generation service, modelled in Dafny

This project models `Schemaservice`, the engine that turns a JSON document
into a JSON Schema (draft 4) in three passes over in-memory trees, and
proves what each pass promises.

- **Inference** (`schema4Object`, module `Inference`, file `inference.dfy`).
  The parsed document is walked into an intermediate tree. Each node comes
  from the node factory. A container gets one child per member or element,
  in enumeration order.
- **Rendering** (`constructSchema` and its rule helpers, module `Rendering`,
  file `rendering.dfy`).
  - Each node becomes a schema object through a fixed sequence of rules:
    - `_$schema` on the root;
    - `id`, `type`;
    - the verbose extras;
    - `default` and `enum`;
    - `additionalProperties`;
    - container initialisation.
  - The children are then rendered and attached under `properties`,
    `items` and `required`. Each child carries `__parent__` and, under
    force-required, `__required__`.
  - In absolute-id mode the composed id is written back onto the node.
  - Module `RenderingProperties` (`rendering_properties.dfy`) holds the
    properties of whole rendered nodes.
- **Metadata strip** (`step3`, module `MetaStrip`, file `strip.dfy`).
  Members named `__x__` that hold a primitive are deleted at every depth.
  Members holding objects or arrays are walked into.
- **Rename on serialisation** (`getSchemaAsString`, module `Serialisation`,
  file `rename.dfy`). The first `_$` of the serialised schema becomes `$`.
- **The service object** (module `Service`, file `service.dfy`). A class
  with the four fields `json`, `intermediateResult`, `editableSchema` and
  `schema`:
  - methods `Step1`, `Step2`, `Step3` and `JSON2Schema` update them;
  - the getters `GetSchema`, `GetEditableSchema` and `GetSchemaAsString`
    read them.

JSON values are the datatype `JsonValues.Json`. An object holds its members
as an ordered sequence, because the order of `properties` and `required`
follows child order. `o[k] = v` is `JsonValues.Put`: an existing member
keeps its place, and a new one goes last.

The object under construction is the record `Rendering.Draft`. It has one
optional slot per member name the engine ever assigns to it.
`Rendering.ToJson` lists the assigned slots in the order the engine first
assigns them:

1. the node's own rules;
2. `required`, created by the first child;
3. `__parent__` and `__required__`, added by the parent after the object
   is returned.

Rendering is stated twice:
- `Rendering.Construct` is a function. It renders all children against
  the node's rendered id, then attaches them in order.
- `Rendering.ConstructSchema` and `Rendering.ConstructSubSchemas` are
  methods that run the source's interleaved loop. They are proved equal
  to `Construct`.

A child's rendering never reads its parent's object, so the two orders
agree.

The configuration (`user_defined_options` and the `Specification`
constant) is the parameter `Rendering.Options`. The node factory is the
function parameter `Inference.Factory`. The serialiser used by
`getSchemaAsString` is a function parameter.

Two behaviours of the code are easy to miss. Rendering an already rendered
tree again in absolute mode prefixes the ids a second time, because line 130
rewrites the node's id (see `RenderingProperties.SecondRenderPrefixesAgain`).
Every rendered node, primitives included, carries `id` (line 180).

## Model

| member | source | states |
|---|---|---|
| JsonValues.Put | app/scripts/services/Schemaservice.js:205-206 | assigning `o[k]` makes `k` read `v` and leaves every other name as it read; a new name is appended at the end, and an existing one leaves the length unchanged |
| JsonValues.PutKeepsPlace | app/scripts/services/Schemaservice.js:205-206 | assigning to an existing name overwrites the first member of that name where it stands: the result is the member list with only that position changed |
| Inference.GetInstance | app/scripts/services/Schemaservice.js:63 | the factory's node carries the key it was asked for and the kind, id and default the factory reports, and no children |
| Inference.Schema4Object | app/scripts/services/Schemaservice.js:61-78 | the loop builds exactly `Infer`: no children for a primitive, one child per member (keyed by its name) or per element (keyed by its index) in order |
| Inference.InferShape | app/scripts/services/Schemaservice.js:65-76 | for any factory, each child of a container is the inferred tree of the corresponding member or element |
| Inference.RebuildInfer | app/scripts/services/Schemaservice.js:61-78 | with a factory that classifies containers and reports primitives' values, the tree gives back the document, member names and order included |
| Rendering.StampDialect | app/scripts/services/Schemaservice.js:175-178 | `_$schema` is set to the dialect exactly on the root; nothing else changes |
| Rendering.ConstructId | app/scripts/services/Schemaservice.js:120-132 | the root's id, and every id when absolute ids are off, is copied; otherwise the id is the parent's id, "/", and the node's id, and that id is written back onto the node |
| Rendering.SetType | app/scripts/services/Schemaservice.js:152-154 | `type` is the node's type name; nothing else changes |
| Rendering.MakeVerbose | app/scripts/services/Schemaservice.js:80-99 | without the flag nothing changes; with it title, description and name are copied, number and integer get `minimum` 0, arrays `minItems` 0 and `uniqueItems` false, strings `minLength` 0 |
| Rendering.AddDefault | app/scripts/services/Schemaservice.js:134-141 | `default` is the raw value only with the flag and only for primitives |
| Rendering.AddEnums | app/scripts/services/Schemaservice.js:143-150 | `enum` is `[value, null]` only with the flag and only for primitives |
| Rendering.SetDefaultProperties | app/scripts/services/Schemaservice.js:168-170 | `additionalProperties` is false whatever the type |
| Rendering.InitProperties | app/scripts/services/Schemaservice.js:101-105 | an object starts with empty `properties`; other types are unchanged |
| Rendering.InitItems | app/scripts/services/Schemaservice.js:107-118 | an array starts with `[]` when it has more than one child, `{}` otherwise; other types are unchanged |
| Rendering.PushRequired | app/scripts/services/Schemaservice.js:156-161 | `required` is created if absent; under force-required the child's key is appended; nothing else changes |
| Rendering.MarkRequired | app/scripts/services/Schemaservice.js:162-165 | under force-required the child gets `__required__: true`; nothing else changes |
| Rendering.AddRequired | app/scripts/services/Schemaservice.js:156-166 | both halves of `addRequired`, on the parent and on the child |
| Rendering.AttachSubSchema | app/scripts/services/Schemaservice.js:205-223 | an object files the child under its key in `properties`; an array sets `items` to `{}`, to the child, or appends to the list by the array option and child count; a primitive is unchanged |
| Rendering.OwnRules | app/scripts/services/Schemaservice.js:172-187 | every member a node's own rules set, each as a function of the node, the flags and whether it is the root |
| Rendering.Head | app/scripts/services/Schemaservice.js:172-191 | the object entering the child loop: the own members, containers initialised for the type, no `required` and no bookkeeping members |
| Rendering.ApplyNodeRules | app/scripts/services/Schemaservice.js:172-191 | applying the helpers one after another to a fresh object yields `Head` |
| Rendering.ConstructSchema | app/scripts/services/Schemaservice.js:172-228 | the recursive method returns exactly the object and written-back node of `Construct` |
| Rendering.ConstructSubSchemas | app/scripts/services/Schemaservice.js:195-225 | the interleaved child loop (render, tag `__parent__`, add required, attach) gives the render-then-attach result |
| RenderingProperties.FoldKeeps | app/scripts/services/Schemaservice.js:195-225 | the child loop changes no member other than `properties`, `items` and `required` |
| RenderingProperties.FoldRequired | app/scripts/services/Schemaservice.js:156-166 | `required` appears with the first child; it lists the children's keys in order under force-required and stays empty otherwise |
| RenderingProperties.FoldProperties | app/scripts/services/Schemaservice.js:205-206 | with distinct child keys, `properties` is exactly the children's keys mapped to their stored schemas, in order |
| RenderingProperties.FoldItems | app/scripts/services/Schemaservice.js:208-223 | `items` after any prefix of the children, for each array option and child count |
| RenderingProperties.FoldLeavesOtherContainer | app/scripts/services/Schemaservice.js:205-223 | a non-object's `properties` and a non-array's `items` are never touched by the loop |
| RenderingProperties.RenderedChildAt | app/scripts/services/Schemaservice.js:195-199 | the j-th stored child is that child rendered on its own against the parent's rendered id |
| RenderingProperties.RenderedNodeAt | app/scripts/services/Schemaservice.js:195-197 | the j-th written-back child is that child's own rendering result |
| RenderingProperties.RenderedOwnMembers | app/scripts/services/Schemaservice.js:172-191 | a rendered object keeps all its own-rule members after the loop and has no `__parent__`/`__required__` of its own |
| RenderingProperties.RenderedRequired | app/scripts/services/Schemaservice.js:156-166 | `required` exists iff the node has a child; it lists every child key in order under force-required, else is empty |
| RenderingProperties.ChildSchemasInOrder | app/scripts/services/Schemaservice.js:195-206 | one stored schema per child, in child order |
| RenderingProperties.RenderedProperties | app/scripts/services/Schemaservice.js:205-206 | an object's `properties` maps each child key to the rendered child in order; non-objects have none |
| RenderingProperties.RenderedItems | app/scripts/services/Schemaservice.js:208-223 | `items` is `{}` for empty-schema or no children, the last child for single-schema, the list of all children when there are several, the lone child when there is one; non-arrays have none |
| RenderingProperties.ChildMarkers | app/scripts/services/Schemaservice.js:196-203 | a stored child is its rendered object plus `__parent__` = the parent's rendered id and, exactly under force-required, `__required__: true` |
| RenderingProperties.WriteBack | app/scripts/services/Schemaservice.js:120-132 | in absolute mode rendering leaves every id in the tree composed from the root down; otherwise the tree is unchanged |
| RenderingProperties.RenderedIdIsWrittenBack | app/scripts/services/Schemaservice.js:120-132 | the `id` a node renders with is the id left on the node |
| RenderingProperties.GrandchildId | app/scripts/services/Schemaservice.js:124-130 | a grandchild composes against its parent's already absolute id: root/child/grandchild |
| RenderingProperties.SecondRenderPrefixesAgain | app/scripts/services/Schemaservice.js:130 | rendering the written-back tree again prefixes the root id a second time, so rendering is not idempotent in absolute mode |
| MetaStrip.StripMeta | app/scripts/services/Schemaservice.js:44-59 | the member-by-member walk computes `Strip` |
| MetaStrip.IndexNamesAreNotMeta | app/scripts/services/Schemaservice.js:53-56 | an array's index names never match `^__.*__$`, so array elements are never deleted |
| MetaStrip.StripIsClean | app/scripts/services/Schemaservice.js:44-59 | after the strip no metadata member holding a primitive is left at any depth, arrays included |
| MetaStrip.CleanIsFixpoint | app/scripts/services/Schemaservice.js:44-59 | a value is clean exactly when the strip leaves it unchanged |
| MetaStrip.StripIdempotent | app/scripts/services/Schemaservice.js:44-59 | stripping twice is stripping once |
| MetaStrip.StripKeepsOrdinary | app/scripts/services/Schemaservice.js:53-56 | a non-metadata name reads the same value, stripped, after the strip |
| MetaStrip.StripKeepsMetaContainer | app/scripts/services/Schemaservice.js:49-51 | a member holding an object or array is walked into, not deleted, even under a metadata name |
| MetaStrip.StripDeletesMeta | app/scripts/services/Schemaservice.js:53-56 | a metadata name whose members all hold primitives is gone after the strip |
| MetaStrip.StripRemovesAbsent | app/scripts/services/Schemaservice.js:44-59 | the strip adds no name |
| Serialisation.ReplaceFirst | app/scripts/services/Schemaservice.js:244 | `replace` with a string pattern: without an occurrence the string is unchanged; otherwise the first occurrence is replaced and the text before it and all of the text after it are kept |
| Serialisation.LaterOccurrenceKept | app/scripts/services/Schemaservice.js:244 | a later occurrence of `_$` survives the replace |
| Serialisation.RenamesDialectMember | app/scripts/services/Schemaservice.js:242-246 | with no `_$` before it, `"_$schema"` becomes `"$schema"` and the rest of the text is unchanged |
| Service.Schemaservice.constructor | app/scripts/services/Schemaservice.js:11-15 | the fields start as `{}`, null, `{}`, `{}` |
| Service.Schemaservice.Step1 | app/scripts/services/Schemaservice.js:23-34 | `json` is the parsed document and `intermediateResult` its tree under no key; the schemas are untouched |
| Service.Schemaservice.Step2 | app/scripts/services/Schemaservice.js:36-42 | `schema` is the rendered root, `editableSchema` an equal copy, and `intermediateResult` the tree with ids written back |
| Service.Schemaservice.Step3 | app/scripts/services/Schemaservice.js:44-59 | `schema` is stripped; the editable copy and the other fields are untouched |
| Service.Schemaservice.JSON2Schema | app/scripts/services/Schemaservice.js:17-21 | the editable schema is the rendered document, and the schema is that stripped and clean |
| Service.Schemaservice.GetSchema | app/scripts/services/Schemaservice.js:234-236 | returns the `schema` field, the stripped schema once `JSON2Schema` has run |
| Service.Schemaservice.GetEditableSchema | app/scripts/services/Schemaservice.js:238-240 | returns the `editableSchema` field, bookkeeping members included |
| Service.Schemaservice.GetSchemaAsString | app/scripts/services/Schemaservice.js:242-246 | the serialised schema with its first `_$` turned into `$`, the text around it kept; text without `_$` is returned as serialised |
| Service.RootStartsWithDialect | app/scripts/services/Schemaservice.js:175-178 | the final schema's first member is `_$schema` with the dialect, so it is what a serialiser writes first |
| Service.StoredChildHasParentMember | app/scripts/services/Schemaservice.js:199 | every stored child has a `__parent__` string member |
| Service.EditableKeepsBookkeeping | app/scripts/services/Schemaservice.js:36-59 | an object with a child renders to a value that is not clean, while its strip is clean and differs from it |
| Service.DocumentKeysAreDistinct | app/scripts/services/Schemaservice.js:61-78 | a document object with distinct names gives a root with distinct child keys and, under a faithful factory, an object node |
| Service.ServiceSplitsSchemas | app/scripts/services/Schemaservice.js:17-42 | after `JSON2Schema` on a non-empty object document, the editable schema keeps bookkeeping members that the schema no longer has |
| Service.SchemaStringRenamesDialect | app/scripts/services/Schemaservice.js:242-246 | `getSchemaAsString` turns the serialised `"_$schema"` into `"$schema"` and keeps the rest |

## Left out

- JSON parsing (`angular.fromJson`, line 25) is a foreign parser. `Step1` takes the parsed document.
- The node factory (`Schemafactory.getInstance`, `addSubSchema`) is not part of this model. Its answers come from a function parameter: type, id, title, description, name and default value. Number versus integer classification and the `root` flag live in the factory. The model treats "rendered with no parent" as the root.
- The parent back-reference that `addSubSchema` sets is not stored. The rendering walk passes the parent's id down instead.
- A primitive at the document root has no children. `angular.forEach` over a string depends on the Angular version.
- Inference.Infer and Inference.Schema4Object walk every member of an object. `angular.forEach` at line 65 treats an object with a numeric `length` member as array-like and walks its indices instead. For example, `{"length": 1, "0": "x", "a": 2}` is walked over index 0 only. In Angular 1.3 and earlier, `{"length": 0, "a": 2}` is not walked at all. This depends on the Angular version and is not modelled.
- Serialisation (`angular.toJson`, pretty-printing) is a function parameter. Only the string replace on its output is modelled.
- `angular.copy` is a value copy. Values are immutable here, so the editable schema is the same value as the schema before the strip.
- `removeSchema` only writes to the console. It is not modelled.
- Dependency injection, the singleton wiring and the global `user_defined_options` are not modelled. The flags and the dialect string are the `Options` parameter.
- JavaScript key enumeration order is not modelled. Engines list integer-like names first. The model keeps members in insertion order. Names such as `__proto__` get no special treatment.
- Rendering.Construct: the schema object is a record with one slot per member name the engine assigns. Its emission order is the order of first assignment. `__parent__` and `__required__` on the root are never assigned, so they are absent there.
- Rendering.MakeVerbose: an undefined `title`, `description` or `name` is copied as whatever JSON value the factory reports. JavaScript's "assigned but undefined" member, which the serialiser drops, is not modelled.
- Rendering.PushRequired: `!dst.required` is modelled as "not yet assigned". Only ever a list is stored there, and a list is never falsy.
- MetaStrip.StripMeta: `step3` deletes members from the objects in place during its `for-in` loop. The model rebuilds each object's member list in the same order and returns the new value. Aliasing between the schema and other references to its sub-objects is not modelled.
- RenderingProperties.RenderedProperties and RenderingProperties.FoldProperties assume distinct child keys. That is true of every parsed object (see `Service.DocumentKeysAreDistinct`). With repeated keys the later child overwrites the earlier one in place, and `Put` models that, but no lemma states the resulting list.
- Service.RootStartsWithDialect: the member comes first in the object value. That a given serialiser writes it first is an assumption of `Service.SchemaStringRenamesDialect`.
- Serialisation.ReplaceFirst: `$` replacement patterns (`$&`, `$1`, …) are not modelled. The replacement used is a lone `$`, which stands for itself.
- Numbers are mathematical reals (`JsonValues.Json`'s `JNum`). IEEE double rounding, `NaN` and the infinities are not modelled. The engine only copies numbers and never computes with them.
- Service.Schemaservice.Step2: its precondition `intermediateResult.Some?` excludes calling `step2` before `step1`. In the source, `constructSchema(null)` then throws a TypeError reading `.root` (line 175), and that exception is not modelled.
