/** Rendering (`constructSchema` and its rule helpers): the preorder walk that
    turns each intermediate node into a JSON Schema object. Each helper takes
    the object built so far (`dst`) and returns it with its rule applied; the
    identifier rule also returns the intermediate node with its id written
    back, and the walk threads that node on. Line numbers refer to
    app/scripts/services/Schemaservice.js. */
module Rendering {
  import opened JsonValues
  import opened Inference

  /** The array-encoding choice (`ArrayOptions`). */
  datatype ArrayOption = EmptySchema | SingleSchema | ArrayOfSchemas

  /** The user's rendering flags, and the dialect string the `Specification`
      constant supplies. */
  datatype Options = Options(verbose: bool, includeDefaults: bool, includeEnums: bool,
                             forceRequired: bool, absoluteIds: bool,
                             arrayOptions: ArrayOption, specification: string)

  predicate IsPrimitive(k: Kind)
  {
    k != Object && k != Array
  }

  /** The members a node's own rules assign (lines 175-187), one optional
      slot per member name; `None` is a member never assigned. */
  datatype Own = Own(
    dialect: Option<Json>,              // `_$schema`
    id: Option<Json>,
    typeName: Option<Json>,             // `type`
    title: Option<Json>,
    description: Option<Json>,
    name: Option<Json>,
    minimum: Option<Json>,
    minItems: Option<Json>,
    uniqueItems: Option<Json>,
    minLength: Option<Json>,
    defaultValue: Option<Json>,         // `default`
    enumValues: Option<Json>,           // `enum`
    additionalProperties: Option<Json>)

  const NoOwn := Own(None, None, None, None, None, None, None, None, None, None, None, None, None)

  /** A schema object under construction. The source only ever assigns
      eighteen member names to it: the thirteen of `Own`, the three the child
      loop fills, and the two its parent adds once it is returned. */
  datatype Draft = Draft(
    own: Own,
    properties: Option<Json>,
    items: Option<Json>,
    required: Option<Json>,
    parentTag: Option<Json>,            // `__parent__`
    requiredTag: Option<Json>)          // `__required__`

  /** `{}`. */
  const EmptyDraft := Draft(NoOwn, None, None, None, None, None)

  /** Each member name with its slot, in enumeration order. The order is the
      order in which `constructSchema` first assigns them: the node's own
      rules (lines 175-191), then `required` (created by the first child,
      line 159), then the two members the parent adds after the object is
      returned (lines 199 and 164). Later assignments to `properties` and
      `items` keep their place. */
  function Slots(d: Draft): seq<(string, Option<Json>)>
  {
    var o := d.own;
    [("_$schema", o.dialect), ("id", o.id), ("type", o.typeName), ("title", o.title),
     ("description", o.description), ("name", o.name), ("minimum", o.minimum),
     ("minItems", o.minItems), ("uniqueItems", o.uniqueItems), ("minLength", o.minLength),
     ("default", o.defaultValue), ("enum", o.enumValues),
     ("additionalProperties", o.additionalProperties), ("properties", d.properties),
     ("items", d.items), ("required", d.required), ("__parent__", d.parentTag),
     ("__required__", d.requiredTag)]
  }

  /** The assigned slots as members, in order. */
  function Present(slots: seq<(string, Option<Json>)>): Fields
  {
    if slots == [] then []
    else (if slots[0].1.Some? then [(slots[0].0, slots[0].1.value)] else []) + Present(slots[1..])
  }

  /** The members of a schema object in enumeration order. */
  function Members(d: Draft): Fields
  {
    Present(Slots(d))
  }

  /** The schema object as a JSON value. */
  function ToJson(d: Draft): Json
  {
    JObj(Members(d))
  }

  /** Lines 175-178: only the root is stamped with the dialect, under the
      internal name `_$schema`. */
  function StampDialect(opts: Options, isRoot: bool, dst: Own): (r: Own)
    ensures r.dialect == if isRoot then Some(JStr(opts.specification)) else dst.dialect
    ensures r == dst.(dialect := r.dialect)
  {
    if isRoot then dst.(dialect := Some(JStr(opts.specification))) else dst
  }

  /** The id a node renders with (and, in absolute mode, is rewritten to). */
  function RenderedId(opts: Options, src: Node, parent: Option<string>): string
  {
    if parent.None? || !opts.absoluteIds then src.id else parent.value + "/" + src.id
  }

  /** `constructId`: the root's id, and every id when absolute ids are off, is
      copied; otherwise the id is composed from the parent's (already
      rewritten) id, and written back onto the node. */
  function ConstructId(opts: Options, src: Node, parent: Option<string>, dst: Own): (r: (Node, Own))
    ensures r.1.id == Some(JStr(r.0.id))
    ensures r.1 == dst.(id := r.1.id)
    ensures parent.None? || !opts.absoluteIds ==> r.0 == src
    ensures parent.Some? && opts.absoluteIds ==> r.0 == src.(id := parent.value + "/" + src.id)
  {
    if parent.None? || !opts.absoluteIds then
      (src, dst.(id := Some(JStr(src.id))))
    else
      var id := parent.value + "/" + src.id;
      (src.(id := id), dst.(id := Some(JStr(id))))
  }

  /** `setType`. */
  function SetType(src: Node, dst: Own): (r: Own)
    ensures r.typeName == Some(JStr(TypeName(src.kind)))
    ensures r == dst.(typeName := r.typeName)
  {
    dst.(typeName := Some(JStr(TypeName(src.kind))))
  }

  /** `makeVerbose`: with the verbose flag, copy the node's title,
      description and name and add the type's trivial bounds; without it,
      change nothing. */
  function MakeVerbose(opts: Options, src: Node, dst: Own): (r: Own)
    ensures !opts.verbose ==> r == dst
    ensures opts.verbose ==>
      r.title == Some(src.title) && r.description == Some(src.description) && r.name == Some(src.name)
    ensures r.minimum ==
      if opts.verbose && (src.kind == Number || src.kind == Integer) then Some(JNum(0.0)) else dst.minimum
    ensures r.minItems == if opts.verbose && src.kind == Array then Some(JNum(0.0)) else dst.minItems
    ensures r.uniqueItems == if opts.verbose && src.kind == Array then Some(JBool(false)) else dst.uniqueItems
    ensures r.minLength == if opts.verbose && src.kind == String then Some(JNum(0.0)) else dst.minLength
    ensures r == dst.(title := r.title, description := r.description, name := r.name, minimum := r.minimum,
                      minItems := r.minItems, uniqueItems := r.uniqueItems, minLength := r.minLength)
  {
    if !opts.verbose then dst
    else
      var d := dst.(title := Some(src.title), description := Some(src.description), name := Some(src.name));
      match src.kind
      case Number => d.(minimum := Some(JNum(0.0)))
      case Integer => d.(minimum := Some(JNum(0.0)))
      case Array => d.(minItems := Some(JNum(0.0)), uniqueItems := Some(JBool(false)))
      case String => d.(minLength := Some(JNum(0.0)))
      case _ => d
  }

  /** `addDefault`: only primitives, and only with the flag, get a default,
      which is the raw value. */
  function AddDefault(opts: Options, src: Node, dst: Own): (r: Own)
    ensures r.defaultValue ==
      if opts.includeDefaults && IsPrimitive(src.kind) then Some(src.defaultValue) else dst.defaultValue
    ensures r == dst.(defaultValue := r.defaultValue)
  {
    if opts.includeDefaults && IsPrimitive(src.kind) then dst.(defaultValue := Some(src.defaultValue)) else dst
  }

  /** `addEnums`: only primitives, and only with the flag, get an enum: the
      raw value and null. */
  function AddEnums(opts: Options, src: Node, dst: Own): (r: Own)
    ensures r.enumValues ==
      if opts.includeEnums && IsPrimitive(src.kind) then Some(JArr([src.defaultValue, JNull])) else dst.enumValues
    ensures r == dst.(enumValues := r.enumValues)
  {
    if opts.includeEnums && IsPrimitive(src.kind) then dst.(enumValues := Some(JArr([src.defaultValue, JNull])))
    else dst
  }

  /** `setDefaultProperties`: every node, whatever its type, is closed. */
  function SetDefaultProperties(dst: Own): (r: Own)
    ensures r.additionalProperties == Some(JBool(false))
    ensures r == dst.(additionalProperties := r.additionalProperties)
  {
    dst.(additionalProperties := Some(JBool(false)))
  }

  /** `initProperties`: an object node starts with empty `properties`. */
  function InitProperties(src: Node, dst: Draft): (r: Draft)
    ensures r.properties == if src.kind == Object then Some(JObj([])) else dst.properties
    ensures r == dst.(properties := r.properties)
  {
    if src.kind == Object then dst.(properties := Some(JObj([]))) else dst
  }

  /** `initItems`: an array node starts with an empty list of item schemas
      when it has more than one child, else with one empty schema. */
  function InitItems(src: Node, dst: Draft): (r: Draft)
    ensures r.items ==
      if src.kind == Array then Some(if |src.subSchemas| > 1 then JArr([]) else JObj([])) else dst.items
    ensures r == dst.(items := r.items)
  {
    if src.kind == Array then dst.(items := Some(if |src.subSchemas| > 1 then JArr([]) else JObj([]))) else dst
  }

  /** The `required` list of an object under construction (empty if none). */
  function RequiredOf(dst: Draft): seq<Json>
  {
    match dst.required
    case Some(JArr(xs)) => xs
    case _ => []
  }

  /** The parent's half of `addRequired`: create `required` on first use
      and, with force-required, append the child's key to it. The
      `!dst.required` test is a presence test, since `required` only ever
      holds a list and a list is never falsy. */
  function PushRequired(opts: Options, dst: Draft, sub: Node): (r: Draft)
    ensures dst.required.None? || dst.required == Some(JArr(RequiredOf(dst))) ==>
      r.required == Some(JArr(if opts.forceRequired then RequiredOf(dst) + [KeyValue(sub.key)] else RequiredOf(dst)))
    ensures r == dst.(required := r.required)
  {
    var d := if dst.required.None? then dst.(required := Some(JArr([]))) else dst;
    if opts.forceRequired then d.(required := Some(JArr(RequiredOf(d) + [KeyValue(sub.key)]))) else d
  }

  /** The child's half of `addRequired`: with force-required the child's
      schema is flagged `__required__: true`. */
  function MarkRequired(opts: Options, dstSub: Draft): (r: Draft)
    ensures r.requiredTag == if opts.forceRequired then Some(JBool(true)) else dstSub.requiredTag
    ensures r == dstSub.(requiredTag := r.requiredTag)
  {
    if opts.forceRequired then dstSub.(requiredTag := Some(JBool(true))) else dstSub
  }

  /** `addRequired(dst, sub, dstSub)`: both halves. */
  function AddRequired(opts: Options, dst: Draft, sub: Node, dstSub: Draft): (r: (Draft, Draft))
    ensures r.0 == PushRequired(opts, dst, sub) && r.1 == MarkRequired(opts, dstSub)
  {
    (PushRequired(opts, dst, sub), MarkRequired(opts, dstSub))
  }

  /** A rendered child as its parent attaches it (lines 199-206): tagged
      with the parent's rendered id under `__parent__`, flagged by
      `addRequired`, and turned into the JSON object stored in the parent. */
  function Attached(opts: Options, id: string, child: Draft): Json
  {
    ToJson(MarkRequired(opts, child.(parentTag := Some(JStr(id)))))
  }

  /** The `properties` members of an object under construction. */
  function PropertiesOf(dst: Draft): Fields
  {
    match dst.properties
    case Some(JObj(ps)) => ps
    case _ => []
  }

  /** The `items` list of an array under construction. */
  function ItemsOf(dst: Draft): seq<Json>
  {
    match dst.items
    case Some(JArr(xs)) => xs
    case _ => []
  }

  /** Lines 205-223: where a rendered child goes. Objects file it under its
      key in `properties`; arrays set or extend `items` by the array option;
      primitives have no children to place. */
  function AttachSubSchema(opts: Options, src: Node, dst: Draft, sub: Node, child: Json): (r: Draft)
    ensures src.kind == Object ==>
      r == dst.(properties := Some(JObj(Put(PropertiesOf(dst), KeyText(sub.key), child))))
    ensures src.kind == Array ==> r == dst.(items := Some(
      match opts.arrayOptions
      case EmptySchema => JObj([])
      case SingleSchema => child
      case ArrayOfSchemas => if |src.subSchemas| > 1 then JArr(ItemsOf(dst) + [child]) else child))
    ensures IsPrimitive(src.kind) ==> r == dst
  {
    if src.kind == Object then
      dst.(properties := Some(JObj(Put(PropertiesOf(dst), KeyText(sub.key), child))))
    else if src.kind == Array then
      match opts.arrayOptions
      case EmptySchema => dst.(items := Some(JObj([])))
      case SingleSchema => dst.(items := Some(child))
      case ArrayOfSchemas =>
        if |src.subSchemas| > 1 then dst.(items := Some(JArr(ItemsOf(dst) + [child])))
        else dst.(items := Some(child))
    else dst
  }

  /** Lines 173-187: the members a node's own rules assign, in rule order.
      `parent` is the parent's current id, absent at the root. Every one of
      them is determined by the node and the flags. */
  function OwnRules(opts: Options, src: Node, parent: Option<string>): (r: (Node, Own))
    ensures r.0 == src.(id := RenderedId(opts, src, parent))
    ensures r.1.dialect == if parent.None? then Some(JStr(opts.specification)) else None
    ensures r.1.id == Some(JStr(RenderedId(opts, src, parent)))
    ensures r.1.typeName == Some(JStr(TypeName(src.kind)))
    ensures r.1.title == (if opts.verbose then Some(src.title) else None)
      && r.1.description == (if opts.verbose then Some(src.description) else None)
      && r.1.name == (if opts.verbose then Some(src.name) else None)
    ensures r.1.minimum ==
      if opts.verbose && (src.kind == Number || src.kind == Integer) then Some(JNum(0.0)) else None
    ensures r.1.minItems == if opts.verbose && src.kind == Array then Some(JNum(0.0)) else None
    ensures r.1.uniqueItems == if opts.verbose && src.kind == Array then Some(JBool(false)) else None
    ensures r.1.minLength == if opts.verbose && src.kind == String then Some(JNum(0.0)) else None
    ensures r.1.defaultValue ==
      if opts.includeDefaults && IsPrimitive(src.kind) then Some(src.defaultValue) else None
    ensures r.1.enumValues ==
      if opts.includeEnums && IsPrimitive(src.kind) then Some(JArr([src.defaultValue, JNull])) else None
    ensures r.1.additionalProperties == Some(JBool(false))
  {
    var d0 := StampDialect(opts, parent.None?, NoOwn);
    var (n, d1) := ConstructId(opts, src, parent, d0);
    var d2 := SetType(n, d1);
    var d3 := MakeVerbose(opts, n, d2);
    var d4 := AddDefault(opts, n, d3);
    var d5 := AddEnums(opts, n, d4);
    (n, SetDefaultProperties(d5))
  }

  /** Lines 173-191: the object as it enters the child loop: its own
      members, and the containers initialised for its type. */
  function Head(opts: Options, src: Node, parent: Option<string>): (r: (Node, Draft))
    ensures (r.0, r.1.own) == OwnRules(opts, src, parent)
    ensures r.1.properties == if src.kind == Object then Some(JObj([])) else None
    ensures r.1.items ==
      if src.kind == Array then Some(if |src.subSchemas| > 1 then JArr([]) else JObj([])) else None
    ensures r.1.required == None && r.1.parentTag == None && r.1.requiredTag == None
  {
    var (n, own) := OwnRules(opts, src, parent);
    (n, InitItems(n, InitProperties(n, EmptyDraft.(own := own))))
  }

  /** `constructSchema` as a value: the rendered object of `src` and `src` with
      the ids written back during the walk. Every child is rendered against
      the node's rendered id, and the results are attached in child order. A
      child's rendering does not read the parent's object, so rendering all
      children before attaching them gives what the interleaved loop gives
      (`ConstructSchema` below runs the interleaved loop). */
  function Construct(opts: Options, src: Node, parent: Option<string>): (r: (Draft, Node))
    decreases src, 1
  {
    var (n, dst) := Head(opts, src, parent);
    var c := |src.subSchemas|;
    (AttachChildren(opts, src, dst, RenderedChildren(opts, src, n.id, c)),
     n.(subSchemas := RenderedNodes(opts, src, n.id, c)))
  }

  /** The first `i` children of `src` rendered against the parent id `id`,
      as their parent stores them. */
  function RenderedChildren(opts: Options, src: Node, id: string, i: nat): (r: seq<Json>)
    requires i <= |src.subSchemas|
    ensures |r| == i
    decreases src, 0, i
  {
    if i == 0 then []
    else RenderedChildren(opts, src, id, i - 1) + [Attached(opts, id, Construct(opts, src.subSchemas[i - 1], Some(id)).0)]
  }

  /** The first `i` children of `src` with their ids written back, each
      rendered against the parent id `id`. */
  function RenderedNodes(opts: Options, src: Node, id: string, i: nat): (r: seq<Node>)
    requires i <= |src.subSchemas|
    ensures |r| == i
    decreases src, 0, i
  {
    if i == 0 then [] else RenderedNodes(opts, src, id, i - 1) + [Construct(opts, src.subSchemas[i - 1], Some(id)).1]
  }

  /** Lines 195-225 for the first `|children|` children of `src`, given as
      the JSON objects they are stored as: each is recorded as required and
      attached. */
  function AttachChildren(opts: Options, src: Node, dst: Draft, children: seq<Json>): Draft
    requires |children| <= |src.subSchemas|
  {
    if children == [] then dst
    else
      var i := |children| - 1;
      var sub := src.subSchemas[i];
      AttachSubSchema(opts, src, PushRequired(opts, AttachChildren(opts, src, dst, children[..i]), sub), sub, children[i])
  }

  /** Lines 173-191 as the source runs them: the rule helpers applied one
      after another to a fresh object. */
  method ApplyNodeRules(opts: Options, src: Node, parent: Option<string>) returns (updated: Node, schema: Draft)
    ensures (updated, schema) == Head(opts, src, parent)
  {
    var own := NoOwn;
    if parent.None? {
      own := own.(dialect := Some(JStr(opts.specification)));
    }
    var withId := ConstructId(opts, src, parent, own);
    updated, own := withId.0, withId.1;
    own := SetType(updated, own);
    own := MakeVerbose(opts, updated, own);
    own := AddDefault(opts, updated, own);
    own := AddEnums(opts, updated, own);
    own := SetDefaultProperties(own);
    schema := EmptyDraft.(own := own);
    schema := InitProperties(updated, schema);
    schema := InitItems(updated, schema);
  }

  /** `constructSchema(intermediate_schema)`: fill a fresh object rule by
      rule, then render and attach the children in order. Returns the object
      and the node with ids written back (the source rewrites `src.id` in
      place). */
  method ConstructSchema(opts: Options, src: Node, parent: Option<string>) returns (schema: Draft, updated: Node)
    ensures (schema, updated) == Construct(opts, src, parent)
    decreases src, 1
  {
    var start;
    updated, start := ApplyNodeRules(opts, src, parent);
    var kids;
    schema, kids := ConstructSubSchemas(opts, src, updated.id, start);
    updated := updated.(subSchemas := kids);
  }

  /** Lines 195-225: the loop over the children of `src`, whose rendered id
      is `id`. Each child is rendered, tagged with `__parent__`, recorded as
      required and attached to `schema`; the children come back with their
      ids written back. */
  method ConstructSubSchemas(opts: Options, src: Node, id: string, start: Draft) returns (schema: Draft, kids: seq<Node>)
    ensures schema == AttachChildren(opts, src, start, RenderedChildren(opts, src, id, |src.subSchemas|))
    ensures kids == RenderedNodes(opts, src, id, |src.subSchemas|)
    decreases src, 0
  {
    schema := start;
    ghost var done: seq<Json> := [];
    kids := [];
    var i := 0;
    while i < |src.subSchemas|
      invariant 0 <= i <= |src.subSchemas|
      invariant kids == RenderedNodes(opts, src, id, i)
      invariant done == RenderedChildren(opts, src, id, i)
      invariant schema == AttachChildren(opts, src, start, done)
    {
      var value := src.subSchemas[i];
      var subSchema, value' := ConstructSchema(opts, value, Some(id));
      ghost var child := Attached(opts, id, subSchema);
      subSchema := subSchema.(parentTag := Some(JStr(id)));
      var required := AddRequired(opts, schema, value, subSchema);
      schema, subSchema := required.0, required.1;
      schema := AttachSubSchema(opts, src, schema, value, ToJson(subSchema));
      assert (done + [child])[..i] == done;
      done := done + [child];
      kids := kids + [value'];
      i := i + 1;
    }
  }
}
