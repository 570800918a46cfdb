/** Inference (`schema4Object`): the walk over a parsed JSON value that builds
    the intermediate schema tree, one node per value, each container node
    owning one child per member or element in enumeration order. */
module Inference {
  import opened JsonValues

  /** The seven node types; exactly one holds of every node. */
  datatype Kind = Object | Array | String | Number | Integer | Boolean | Null

  /** The `type` keyword value of each kind. */
  function TypeName(k: Kind): string
  {
    match k
    case Object => "object"
    case Array => "array"
    case String => "string"
    case Number => "number"
    case Integer => "integer"
    case Boolean => "boolean"
    case Null => "null"
  }

  /** The key a value sits under in its parent: none for the document itself,
      a member name inside an object, an index inside an array. */
  datatype Key = Undefined | Name(text: string) | Index(index: nat)

  /** What the node factory reports for a (key, value) pair. The factory is
      outside this model; its answers are taken as given. */
  datatype Facts = Facts(kind: Kind, id: string, title: Json, description: Json,
                         name: Json, defaultValue: Json)

  type Factory = (Key, Json) -> Facts

  /** An intermediate node. Its parent back-reference is not stored: the
      rendering walk passes the parent's id down instead. */
  datatype Node = Node(key: Key, kind: Kind, id: string, title: Json,
                       description: Json, name: Json, defaultValue: Json,
                       subSchemas: seq<Node>)

  /** `Schemafactory.getInstance(key, value)`: a node without children. */
  function GetInstance(f: Factory, key: Key, value: Json): (n: Node)
    ensures n.key == key && n.kind == f(key, value).kind && n.id == f(key, value).id
    ensures n.defaultValue == f(key, value).defaultValue && n.subSchemas == []
  {
    var facts := f(key, value);
    Node(key, facts.kind, facts.id, facts.title, facts.description, facts.name,
         facts.defaultValue, [])
  }

  predicate IsContainer(v: Json)
  {
    v.JObj? || v.JArr?
  }

  /** The member name the engine uses for a key (`properties[key]`). */
  function KeyText(k: Key): string
  {
    match k
    case Undefined => "undefined"
    case Name(t) => t
    case Index(i) => DecimalText(i)
  }

  /** The key as a JSON value (`required.push(key)`). */
  function KeyValue(k: Key): Json
  {
    match k
    case Undefined => JNull
    case Name(t) => JStr(t)
    case Index(i) => JNum(i as real)
  }

  /** The intermediate tree of `v` under `key`: the factory's node for the
      pair, with one inferred child per member (under its name) or element
      (under its index). Primitives have no children. */
  function Infer(f: Factory, key: Key, v: Json): Node
    decreases v
  {
    var kids := match v
      case JObj(ms) => seq(|ms|, i requires 0 <= i < |ms| => Infer(f, Name(ms[i].0), ms[i].1))
      case JArr(es) => seq(|es|, i requires 0 <= i < |es| => Infer(f, Index(i), es[i]))
      case _ => [];
    GetInstance(f, key, v).(subSchemas := kids)
  }

  /** `schema4Object(aKey, aValue)`: obtain the node, then for every member or
      element in order infer its child (recursing into containers, asking the
      factory directly for primitives) and attach it. */
  method Schema4Object(f: Factory, key: Key, value: Json) returns (n: Node)
    ensures n == Infer(f, key, value)
    ensures !IsContainer(value) ==> n.subSchemas == []
    ensures value.JObj? ==> (|n.subSchemas| == |value.fields| &&
      forall i :: 0 <= i < |value.fields| ==> n.subSchemas[i].key == Name(value.fields[i].0))
    ensures value.JArr? ==> (|n.subSchemas| == |value.elems| &&
      forall i :: 0 <= i < |value.elems| ==> n.subSchemas[i].key == Index(i))
    decreases value
  {
    n := GetInstance(f, key, value);
    ghost var kids := Infer(f, key, value).subSchemas;
    InferShape(f, key, value);
    match value {
      case JObj(ms) =>
        var i := 0;
        while i < |ms|
          invariant 0 <= i <= |ms|
          invariant n == GetInstance(f, key, value).(subSchemas := kids[..i])
        {
          var sub: Node;
          if IsContainer(ms[i].1) {
            sub := Schema4Object(f, Name(ms[i].0), ms[i].1);
          } else {
            sub := GetInstance(f, Name(ms[i].0), ms[i].1);
          }
          assert kids[..i + 1] == kids[..i] + [sub];
          n := n.(subSchemas := n.subSchemas + [sub]);
          i := i + 1;
        }
        assert kids[..i] == kids;
      case JArr(es) =>
        var i := 0;
        while i < |es|
          invariant 0 <= i <= |es|
          invariant n == GetInstance(f, key, value).(subSchemas := kids[..i])
        {
          var sub: Node;
          if IsContainer(es[i]) {
            sub := Schema4Object(f, Index(i), es[i]);
          } else {
            sub := GetInstance(f, Index(i), es[i]);
          }
          assert kids[..i + 1] == kids[..i] + [sub];
          n := n.(subSchemas := n.subSchemas + [sub]);
          i := i + 1;
        }
        assert kids[..i] == kids;
      case _ =>
    }
  }

  /** A factory that classifies containers by what they are and reports a
      primitive's own value as its default. */
  predicate FactsMatch(v: Json, facts: Facts)
  {
    && (facts.kind == Object <==> v.JObj?)
    && (facts.kind == Array <==> v.JArr?)
    && (!IsContainer(v) ==> facts.defaultValue == v)
  }

  ghost predicate Faithful(f: Factory)
  {
    forall k, v :: FactsMatch(v, f(k, v))
  }

  /** Reads a JSON value back off an intermediate tree: objects from the
      children's keys, arrays from the children in order, primitives from
      their default value. */
  function Rebuild(n: Node): Json
    decreases n
  {
    match n.kind
    case Object =>
      JObj(seq(|n.subSchemas|, i requires 0 <= i < |n.subSchemas| =>
        (KeyText(n.subSchemas[i].key), Rebuild(n.subSchemas[i]))))
    case Array =>
      JArr(seq(|n.subSchemas|, i requires 0 <= i < |n.subSchemas| => Rebuild(n.subSchemas[i])))
    case _ => n.defaultValue
  }

  /** Inference loses nothing: with a faithful factory, the tree determines
      the value it was inferred from, member names and order included. */
  lemma {:induction false} RebuildInfer(f: Factory, key: Key, v: Json)
    requires Faithful(f)
    ensures Rebuild(Infer(f, key, v)) == v
    decreases v
  {
    var n := Infer(f, key, v);
    assert FactsMatch(v, f(key, v));
    match v
    case JObj(ms) =>
      forall i | 0 <= i < |ms|
        ensures Rebuild(n.subSchemas[i]) == ms[i].1 && n.subSchemas[i].key == Name(ms[i].0)
      {
        RebuildInfer(f, Name(ms[i].0), ms[i].1);
      }
      assert Rebuild(n).fields == ms;
    case JArr(es) =>
      forall i | 0 <= i < |es|
        ensures Rebuild(n.subSchemas[i]) == es[i]
      {
        RebuildInfer(f, Index(i), es[i]);
      }
      assert Rebuild(n).elems == es;
    case _ =>
  }

  /** Whatever the factory says, a container's node has exactly one child per
      member or element, carrying its key, and the children are the inferred
      trees of those members in order; a primitive has none. */
  lemma InferShape(f: Factory, key: Key, v: Json)
    ensures Infer(f, key, v).key == key && Infer(f, key, v).kind == f(key, v).kind
    ensures !IsContainer(v) ==> Infer(f, key, v).subSchemas == []
    ensures v.JObj? ==> (|Infer(f, key, v).subSchemas| == |v.fields| &&
      forall i :: 0 <= i < |v.fields| ==>
        Infer(f, key, v).subSchemas[i] == Infer(f, Name(v.fields[i].0), v.fields[i].1))
    ensures v.JArr? ==> (|Infer(f, key, v).subSchemas| == |v.elems| &&
      forall i :: 0 <= i < |v.elems| ==>
        Infer(f, key, v).subSchemas[i] == Infer(f, Index(i), v.elems[i]))
  {
  }
}
