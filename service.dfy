/** The service object: its four fields and the three steps that fill
    them (`JSON2Schema` runs them in order), the getters, and the string
    form of the final schema. */
module Service {
  import opened JsonValues
  import opened Inference
  import opened Rendering
  import opened RenderingProperties
  import opened MetaStrip
  import opened Serialisation

  class Schemaservice {
    /** The document as parsed. */
    var json: Json
    /** The intermediate tree; `None` until the first step has run. */
    var intermediateResult: Option<Node>
    /** The schema as rendered, bookkeeping members included. */
    var editableSchema: Json
    /** The schema handed out, bookkeeping members stripped. */
    var schema: Json

    /** The fields' initial values (Schemaservice.js lines 11-15). */
    constructor()
      ensures json == JObj([]) && intermediateResult == None
      ensures editableSchema == JObj([]) && schema == JObj([])
    {
      json := JObj([]);
      intermediateResult := None;
      editableSchema := JObj([]);
      schema := JObj([]);
    }

    /** `step1`: take the parsed document and infer its tree, the document
        itself sitting under no key. */
    method Step1(parsed: Json, f: Factory)
      modifies this
      ensures json == parsed && intermediateResult == Some(Infer(f, Undefined, parsed))
      ensures editableSchema == old(editableSchema) && schema == old(schema)
    {
      json := parsed;
      var root := Schema4Object(f, Undefined, json);
      intermediateResult := Some(root);
    }

    /** `step2`: render the tree from its root (which may rewrite its ids)
        and keep a copy of the result as the editable schema. */
    method Step2(opts: Options)
      requires intermediateResult.Some?
      modifies this
      ensures var (d, n) := Construct(opts, old(intermediateResult).value, None);
        schema == ToJson(d) && intermediateResult == Some(n)
      ensures editableSchema == schema && json == old(json)
    {
      var rendered, updated := ConstructSchema(opts, intermediateResult.value, None);
      intermediateResult := Some(updated);
      schema := ToJson(rendered);
      editableSchema := schema;
    }

    /** `step3(schema)`: strip the bookkeeping members from the schema; the
        editable copy is a separate value and keeps them. */
    method Step3()
      modifies this
      ensures schema == Strip(old(schema))
      ensures editableSchema == old(editableSchema) && json == old(json)
      ensures intermediateResult == old(intermediateResult)
    {
      schema := StripMeta(schema);
    }

    /** `JSON2Schema`: the three steps in order. The editable schema is the
        rendered schema of the document's tree; the schema is that with its
        bookkeeping stripped, and nothing is left to strip from it. */
    method JSON2Schema(parsed: Json, f: Factory, opts: Options)
      modifies this
      ensures json == parsed
      ensures editableSchema == ToJson(Construct(opts, Infer(f, Undefined, parsed), None).0)
      ensures intermediateResult == Some(Construct(opts, Infer(f, Undefined, parsed), None).1)
      ensures schema == Strip(editableSchema) && Clean(schema)
    {
      Step1(parsed, f);
      Step2(opts);
      Step3();
      StripIsClean(editableSchema);
    }

    /** `getSchema`: the schema handed out, without bookkeeping. */
    function GetSchema(): (r: Json)
      reads this
      ensures r == schema
    {
      schema
    }

    /** `getEditableSchema`: the schema as rendered, bookkeeping included. */
    function GetEditableSchema(): (r: Json)
      reads this
      ensures r == editableSchema
    {
      editableSchema
    }

    /** `getSchemaAsString`: the serialised schema with its first `_$`
        replaced by `$` (the serialiser is a parameter); text without `_$`
        comes back as serialised. */
    function GetSchemaAsString(serialise: Json -> string): (r: string)
      reads this
      ensures (forall j: nat :: !OccursAt(serialise(schema), "_$", j)) ==> r == serialise(schema)
      ensures forall i: nat :: FirstAt(serialise(schema), "_$", i) ==>
        r == serialise(schema)[..i] + "$" + serialise(schema)[i + 2..]
    {
      ReplaceFirst(serialise(schema), "_$", "$")
    }
  }

  // ---------------------------------------------------------------------
  // The rendered schema as a JSON object

  /** An assigned slot is a member of the object. */
  lemma {:induction false} PresentContains(slots: seq<(string, Option<Json>)>, i: nat)
    requires i < |slots| && slots[i].1.Some?
    ensures (slots[i].0, slots[i].1.value) in Present(slots)
  {
    if i > 0 {
      PresentContains(slots[1..], i - 1);
    }
  }

  /** The `properties` and `__parent__` slots, once assigned, are members. */
  lemma AssignedSlotsAreMembers(d: Draft)
    ensures d.properties.Some? ==> ("properties", d.properties.value) in Members(d)
    ensures d.parentTag.Some? ==> ("__parent__", d.parentTag.value) in Members(d)
  {
    var slots := Slots(d);
    if d.properties.Some? {
      assert slots[13] == ("properties", d.properties);
      PresentContains(slots, 13);
    }
    if d.parentTag.Some? {
      assert slots[16] == ("__parent__", d.parentTag);
      PresentContains(slots, 16);
    }
  }

  /** A child stored by its parent carries a `__parent__` string member. */
  lemma StoredChildHasParentMember(opts: Options, id: string, child: Draft)
    ensures Attached(opts, id, child).JObj?
    ensures ("__parent__", JStr(id)) in Attached(opts, id, child).fields
  {
    AssignedSlotsAreMembers(MarkRequired(opts, child.(parentTag := Some(JStr(id)))));
  }

  /** `__parent__` is a metadata name. */
  lemma ParentNameIsMeta()
    ensures IsMeta("__parent__")
  {
    var k := "__parent__";
    assert k[..2] == "__" && k[|k| - 2..] == "__";
  }

  /** A value with a metadata member holding a primitive is not clean. */
  lemma UncleanMember(fs: Fields, m: (string, Json))
    requires m in fs && IsMeta(m.0) && !IsObjectValue(m.1)
    ensures !Clean(JObj(fs))
  {
    var i :| 0 <= i < |fs| && fs[i] == m;
  }

  /** A value with a member that is not clean is not clean. */
  lemma UncleanEntry(fs: Fields, i: nat)
    requires i < |fs| && !Clean(fs[i].1)
    ensures !Clean(JObj(fs))
  {
  }

  /** The root's first member is the dialect, and the strip keeps it
      first: the final schema starts with `_$schema`. */
  lemma RootStartsWithDialect(opts: Options, n: Node)
    ensures var s := Strip(ToJson(Construct(opts, n, None).0));
      s.JObj? && |s.fields| > 0 && s.fields[0] == ("_$schema", JStr(opts.specification))
  {
    var d := Construct(opts, n, None).0;
    RenderedOwnMembers(opts, n, None);
    assert Slots(d)[0] == ("_$schema", Some(JStr(opts.specification)));
    var fs := Members(d);
    assert fs[0] == ("_$schema", JStr(opts.specification));
    assert !IsMeta("_$schema") by { assert "_$schema"[1] == '$'; }
    StripKeepsFirst(ToJson(d), fs);
  }

  /** The strip keeps a leading ordinary member with a primitive value. */
  lemma {:induction false} StripKeepsFirst(obj: Json, fs: Fields)
    requires obj.JObj? && fs <= obj.fields && |fs| > 0
    requires !IsMeta(fs[0].0) && !IsObjectValue(fs[0].1)
    ensures |StripFields(obj, fs)| > 0 && StripFields(obj, fs)[0] == fs[0]
    decreases |fs|
  {
    var i := |fs| - 1;
    assert fs[i] == obj.fields[i];
    if i > 0 {
      StripKeepsFirst(obj, fs[..i]);
    }
  }

  /** An object's rendered schema holds its `properties` member. */
  lemma PropertiesMember(opts: Options, n: Node, parent: Option<string>)
    requires n.kind == Object && DistinctKeys(n)
    ensures ("properties", JObj(Entries(n, ChildSchemas(opts, n, parent)))) in Members(Rendered(opts, n, parent))
  {
    RenderedProperties(opts, n, parent);
    AssignedSlotsAreMembers(Rendered(opts, n, parent));
  }

  /** A stored child is not clean: its `__parent__` is in it. */
  lemma StoredChildUnclean(opts: Options, id: string, child: Draft)
    ensures !Clean(Attached(opts, id, child))
  {
    StoredChildHasParentMember(opts, id, child);
    ParentNameIsMeta();
    UncleanMember(Attached(opts, id, child).fields, ("__parent__", JStr(id)));
  }

  lemma ChildSchemaUnclean(opts: Options, src: Node, id: string, j: nat)
    requires j < |src.subSchemas|
    ensures !Clean(ChildSchema(opts, src, id, j))
  {
    StoredChildUnclean(opts, id, Rendered(opts, src.subSchemas[j], Some(id)));
  }

  /** The `properties` of an object with a child are not clean: the first
      child's `__parent__` is in them. */
  lemma PropertiesUnclean(opts: Options, n: Node, parent: Option<string>)
    requires |n.subSchemas| > 0
    ensures !Clean(JObj(Entries(n, ChildSchemas(opts, n, parent))))
  {
    var children := ChildSchemas(opts, n, parent);
    ChildSchemasInOrder(opts, n, parent);
    ChildSchemaUnclean(opts, n, RenderedId(opts, n, parent), 0);
    UncleanEntry(Entries(n, children), 0);
  }

  /** The editable copy keeps the bookkeeping the schema loses: an object
      with a child renders to a value that is not clean (the child's
      `__parent__` is in it), and stripping it changes it. */
  lemma EditableKeepsBookkeeping(opts: Options, n: Node, parent: Option<string>)
    requires n.kind == Object && |n.subSchemas| > 0 && DistinctKeys(n)
    ensures !Clean(ToJson(Rendered(opts, n, parent)))
    ensures Clean(Strip(ToJson(Rendered(opts, n, parent))))
    ensures Strip(ToJson(Rendered(opts, n, parent))) != ToJson(Rendered(opts, n, parent))
  {
    var d := Rendered(opts, n, parent);
    var props := JObj(Entries(n, ChildSchemas(opts, n, parent)));
    PropertiesMember(opts, n, parent);
    PropertiesUnclean(opts, n, parent);
    var i :| 0 <= i < |Members(d)| && Members(d)[i] == ("properties", props);
    assert !Clean(Members(d)[i].1);
    StripIsClean(ToJson(d));
  }

  /** A document object with distinct member names gives its root node
      distinct child keys, and under a faithful factory an object node. */
  lemma DocumentKeysAreDistinct(f: Factory, key: Key, v: Json)
    requires v.JObj? && UniqueNames(v.fields)
    ensures DistinctKeys(Infer(f, key, v))
    ensures Faithful(f) ==> Infer(f, key, v).kind == Object
  {
    InferShape(f, key, v);
    if Faithful(f) {
      assert FactsMatch(v, f(key, v));
    }
  }

  /** After `JSON2Schema` on a non-empty object document with distinct
      member names: the editable schema still holds bookkeeping members,
      the schema holds none, and the two differ. */
  lemma ServiceSplitsSchemas(f: Factory, opts: Options, doc: Json)
    requires Faithful(f) && doc.JObj? && |doc.fields| > 0 && UniqueNames(doc.fields)
    ensures var editable := ToJson(Construct(opts, Infer(f, Undefined, doc), None).0);
      !Clean(editable) && Clean(Strip(editable)) && Strip(editable) != editable
  {
    var n := Infer(f, Undefined, doc);
    DocumentKeysAreDistinct(f, Undefined, doc);
    InferShape(f, Undefined, doc);
    EditableKeepsBookkeeping(opts, n, None);
  }

  /** The string form: when the serialised schema has the dialect member
      with no `_$` before it, that member is renamed to `$schema` and the
      rest of the text is kept. */
  lemma SchemaStringRenamesDialect(svc: Schemaservice, serialise: Json -> string, before: string, after: string)
    requires serialise(svc.schema) == before + "\"_$schema\"" + after
    requires forall j: nat :: !OccursAt(before, "_$", j)
    ensures svc.GetSchemaAsString(serialise) == before + "\"$schema\"" + after
  {
    RenamesDialectMember(before, after);
  }
}
