/** What rendering promises about every node it renders: the members the
    child loop fills (`properties`, `items`, `required`), the bookkeeping
    members on each attached child, and the ids the walk writes back onto
    the intermediate tree. Line numbers refer to
    app/scripts/services/Schemaservice.js. */
module RenderingProperties {
  import opened JsonValues
  import opened Inference
  import opened Rendering

  /** The rendered object of `n` (first half of `Construct`). */
  function Rendered(opts: Options, n: Node, parent: Option<string>): Draft
  {
    Construct(opts, n, parent).0
  }

  /** Child `j` of `src` rendered against the parent id `id`, as attached. */
  function ChildSchema(opts: Options, src: Node, id: string, j: nat): Json
    requires j < |src.subSchemas|
  {
    Attached(opts, id, Rendered(opts, src.subSchemas[j], Some(id)))
  }

  /** The keys of the first `i` children, as `required` lists them. */
  function RequiredKeys(src: Node, i: nat): (r: seq<Json>)
    requires i <= |src.subSchemas|
    ensures |r| == i && forall j :: 0 <= j < i ==> r[j] == KeyValue(src.subSchemas[j].key)
  {
    if i == 0 then [] else RequiredKeys(src, i - 1) + [KeyValue(src.subSchemas[i - 1].key)]
  }

  /** `properties` entries for the first `|children|` children of `src`:
      each child's key to its stored schema. */
  function Entries(src: Node, children: seq<Json>): (r: Fields)
    requires |children| <= |src.subSchemas|
    ensures |r| == |children|
    ensures forall j :: 0 <= j < |children| ==> r[j] == (KeyText(src.subSchemas[j].key), children[j])
  {
    if children == [] then []
    else
      var i := |children| - 1;
      Entries(src, children[..i]) + [(KeyText(src.subSchemas[i].key), children[i])]
  }

  /** The stored schemas of all children of `n`, rendered against its id. */
  function ChildSchemas(opts: Options, n: Node, parent: Option<string>): seq<Json>
  {
    RenderedChildren(opts, n, RenderedId(opts, n, parent), |n.subSchemas|)
  }

  /** No two children file under the same member name. */
  predicate DistinctKeys(src: Node)
  {
    forall a, b :: 0 <= a < b < |src.subSchemas| ==>
      KeyText(src.subSchemas[a].key) != KeyText(src.subSchemas[b].key)
  }

  // ---------------------------------------------------------------------
  // The child loop (lines 195-225), one child at a time

  /** The loop assigns only `properties`, `items` and `required`. */
  lemma {:induction false} FoldKeeps(opts: Options, src: Node, dst: Draft, children: seq<Json>)
    requires |children| <= |src.subSchemas|
    ensures var r := AttachChildren(opts, src, dst, children);
      r.own == dst.own && r.parentTag == dst.parentTag && r.requiredTag == dst.requiredTag
    decreases |children|
  {
    if children != [] {
      FoldKeeps(opts, src, dst, children[..|children| - 1]);
    }
  }

  /** `required` appears with the first child; under force-required it
      lists the children's keys in order, otherwise it stays empty. */
  lemma {:induction false} FoldRequired(opts: Options, src: Node, dst: Draft, children: seq<Json>)
    requires |children| <= |src.subSchemas| && dst.required.None?
    ensures AttachChildren(opts, src, dst, children).required ==
      if children == [] then None else Some(JArr(if opts.forceRequired then RequiredKeys(src, |children|) else []))
    decreases |children|
  {
    if children != [] {
      var i := |children| - 1;
      FoldRequired(opts, src, dst, children[..i]);
    }
  }

  /** An object's `properties` maps each child's key to its stored schema,
      in child order. */
  lemma {:induction false} FoldProperties(opts: Options, src: Node, dst: Draft, children: seq<Json>)
    requires |children| <= |src.subSchemas| && src.kind == Object && DistinctKeys(src)
    requires dst.properties == Some(JObj([]))
    ensures AttachChildren(opts, src, dst, children).properties == Some(JObj(Entries(src, children)))
    decreases |children|
  {
    if children != [] {
      var i := |children| - 1;
      FoldProperties(opts, src, dst, children[..i]);
      var prev := Entries(src, children[..i]);
      var k := KeyText(src.subSchemas[i].key);
      LookupMissing(prev, k);
    }
  }

  /** An array's `items` after `children`, by array option: `{}` for the
      empty-schema option; the latest child for the single-schema option;
      for the list option, the list of children so far when the array has
      more than one child, else its only child. Before any child, `items`
      is what `initItems` left. */
  lemma {:induction false} FoldItems(opts: Options, src: Node, dst: Draft, children: seq<Json>)
    requires |children| <= |src.subSchemas| && src.kind == Array
    requires dst.items == Some(if |src.subSchemas| > 1 then JArr([]) else JObj([]))
    ensures AttachChildren(opts, src, dst, children).items == Some(
      if children == [] then (if |src.subSchemas| > 1 then JArr([]) else JObj([]))
      else if opts.arrayOptions == EmptySchema then JObj([])
      else if opts.arrayOptions == SingleSchema then children[|children| - 1]
      else if |src.subSchemas| > 1 then JArr(children)
      else children[|children| - 1])
    decreases |children|
  {
    if children != [] {
      var i := |children| - 1;
      FoldItems(opts, src, dst, children[..i]);
      assert children[..i] + [children[i]] == children;
    }
  }

  /** A non-object's `properties` and a non-array's `items` are left as
      they were. */
  lemma {:induction false} FoldLeavesOtherContainer(opts: Options, src: Node, dst: Draft, children: seq<Json>)
    requires |children| <= |src.subSchemas|
    ensures src.kind != Object ==> AttachChildren(opts, src, dst, children).properties == dst.properties
    ensures src.kind != Array ==> AttachChildren(opts, src, dst, children).items == dst.items
    decreases |children|
  {
    if children != [] {
      FoldLeavesOtherContainer(opts, src, dst, children[..|children| - 1]);
    }
  }

  /** The `j`-th stored child is that child rendered on its own. */
  lemma {:induction false} RenderedChildAt(opts: Options, src: Node, id: string, i: nat, j: nat)
    requires j < i <= |src.subSchemas|
    ensures RenderedChildren(opts, src, id, i)[j] == ChildSchema(opts, src, id, j)
  {
    if j < i - 1 {
      RenderedChildAt(opts, src, id, i - 1, j);
    }
  }

  /** The `j`-th written-back child is that child rendered on its own. */
  lemma {:induction false} RenderedNodeAt(opts: Options, src: Node, id: string, i: nat, j: nat)
    requires j < i <= |src.subSchemas|
    ensures RenderedNodes(opts, src, id, i)[j] == Construct(opts, src.subSchemas[j], Some(id)).1
  {
    if j < i - 1 {
      RenderedNodeAt(opts, src, id, i - 1, j);
    }
  }

  // ---------------------------------------------------------------------
  // Whole nodes

  /** The rendered object carries every member its own rules set, untouched
      by the child loop, and no bookkeeping member of its own. */
  lemma RenderedOwnMembers(opts: Options, n: Node, parent: Option<string>)
    ensures Rendered(opts, n, parent).own == OwnRules(opts, n, parent).1
    ensures Rendered(opts, n, parent).parentTag == None && Rendered(opts, n, parent).requiredTag == None
  {
    var id := RenderedId(opts, n, parent);
    FoldKeeps(opts, n, Head(opts, n, parent).1, RenderedChildren(opts, n, id, |n.subSchemas|));
  }

  /** `required` exists exactly when the node has a child; under
      force-required it lists every child's key in child order, otherwise it
      is empty. */
  lemma RenderedRequired(opts: Options, n: Node, parent: Option<string>)
    ensures Rendered(opts, n, parent).required ==
      if |n.subSchemas| == 0 then None
      else Some(JArr(if opts.forceRequired then RequiredKeys(n, |n.subSchemas|) else []))
  {
    var id := RenderedId(opts, n, parent);
    FoldRequired(opts, n, Head(opts, n, parent).1, RenderedChildren(opts, n, id, |n.subSchemas|));
  }

  /** The children are stored in child order, each rendered on its own
      against the node's rendered id. */
  lemma ChildSchemasInOrder(opts: Options, n: Node, parent: Option<string>)
    ensures |ChildSchemas(opts, n, parent)| == |n.subSchemas|
    ensures forall j :: 0 <= j < |n.subSchemas| ==>
      ChildSchemas(opts, n, parent)[j] == ChildSchema(opts, n, RenderedId(opts, n, parent), j)
  {
    forall j | 0 <= j < |n.subSchemas|
      ensures ChildSchemas(opts, n, parent)[j] == ChildSchema(opts, n, RenderedId(opts, n, parent), j)
    {
      RenderedChildAt(opts, n, RenderedId(opts, n, parent), |n.subSchemas|, j);
    }
  }

  /** An object's `properties` has one entry per child, in child order,
      mapping its key to its stored schema; a non-object has none. */
  lemma RenderedProperties(opts: Options, n: Node, parent: Option<string>)
    requires DistinctKeys(n)
    ensures n.kind != Object ==> Rendered(opts, n, parent).properties == None
    ensures n.kind == Object ==>
      Rendered(opts, n, parent).properties == Some(JObj(Entries(n, ChildSchemas(opts, n, parent))))
  {
    var h := Head(opts, n, parent).1;
    if n.kind == Object {
      FoldProperties(opts, n, h, ChildSchemas(opts, n, parent));
    } else {
      FoldLeavesOtherContainer(opts, n, h, ChildSchemas(opts, n, parent));
    }
  }

  /** An array's `items`: `{}` under the empty-schema option or without
      children; the last child's schema under the single-schema option;
      under the list option the list of all child schemas when there are
      several, the lone child's schema when there is one. A non-array has
      none. */
  lemma RenderedItems(opts: Options, n: Node, parent: Option<string>)
    ensures n.kind != Array ==> Rendered(opts, n, parent).items == None
    ensures n.kind == Array ==> Rendered(opts, n, parent).items == Some(
      var c := |n.subSchemas|;
      if c == 0 || opts.arrayOptions == EmptySchema then JObj([])
      else if opts.arrayOptions == SingleSchema || c == 1 then ChildSchema(opts, n, RenderedId(opts, n, parent), c - 1)
      else JArr(ChildSchemas(opts, n, parent)))
  {
    var h := Head(opts, n, parent).1;
    var children := ChildSchemas(opts, n, parent);
    if n.kind == Array {
      FoldItems(opts, n, h, children);
      if |n.subSchemas| > 0 {
        RenderedChildAt(opts, n, RenderedId(opts, n, parent), |n.subSchemas|, |n.subSchemas| - 1);
      }
    } else {
      FoldLeavesOtherContainer(opts, n, h, children);
    }
  }

  /** Each stored child is its rendered object with its parent's rendered
      id under `__parent__` and, exactly under force-required,
      `__required__: true`; its other members are those it rendered with. */
  lemma ChildMarkers(opts: Options, src: Node, id: string, j: nat)
    requires j < |src.subSchemas|
    ensures var d := Rendered(opts, src.subSchemas[j], Some(id));
      ChildSchema(opts, src, id, j) == ToJson(d.(parentTag := Some(JStr(id)),
        requiredTag := if opts.forceRequired then Some(JBool(true)) else None))
  {
    RenderedOwnMembers(opts, src.subSchemas[j], Some(id));
  }

  // ---------------------------------------------------------------------
  // Ids written back onto the intermediate tree (lines 120-132)

  /** The intermediate tree with every id made absolute: the root keeps its
      id, every other node's id is its parent's absolute id, "/", its own. */
  function Absolutised(n: Node, parent: Option<string>): Node
    decreases n
  {
    var id := if parent.None? then n.id else parent.value + "/" + n.id;
    n.(id := id,
       subSchemas := seq(|n.subSchemas|, i requires 0 <= i < |n.subSchemas| =>
         Absolutised(n.subSchemas[i], Some(id))))
  }

  /** Rendering in absolute mode leaves the tree absolutised; otherwise it
      leaves the tree as it was. */
  lemma {:induction false} WriteBack(opts: Options, n: Node, parent: Option<string>)
    ensures opts.absoluteIds ==> Construct(opts, n, parent).1 == Absolutised(n, parent)
    ensures !opts.absoluteIds ==> Construct(opts, n, parent).1 == n
    decreases n
  {
    var id := RenderedId(opts, n, parent);
    var kids := Construct(opts, n, parent).1.subSchemas;
    assert kids == RenderedNodes(opts, n, id, |n.subSchemas|);
    forall j | 0 <= j < |n.subSchemas|
      ensures opts.absoluteIds ==> kids[j] == Absolutised(n.subSchemas[j], Some(id))
      ensures !opts.absoluteIds ==> kids[j] == n.subSchemas[j]
    {
      RenderedNodeAt(opts, n, id, |n.subSchemas|, j);
      WriteBack(opts, n.subSchemas[j], Some(id));
    }
    if opts.absoluteIds {
      assert kids == Absolutised(n, parent).subSchemas;
    } else {
      assert kids == n.subSchemas;
    }
  }

  /** The id a node renders with is the id left on it: composed onto its
      parent's in absolute mode, its own otherwise. */
  lemma RenderedIdIsWrittenBack(opts: Options, n: Node, parent: Option<string>)
    ensures Rendered(opts, n, parent).own.id == Some(JStr(Construct(opts, n, parent).1.id))
    ensures Construct(opts, n, parent).1.id ==
      if parent.Some? && opts.absoluteIds then parent.value + "/" + n.id else n.id
  {
    RenderedOwnMembers(opts, n, parent);
  }

  /** Because parents are rendered first, a grandchild composes against its
      parent's already-absolute id: its id is root / child / grandchild. */
  lemma GrandchildId(opts: Options, n: Node, i: nat, j: nat)
    requires opts.absoluteIds
    requires i < |n.subSchemas| && j < |n.subSchemas[i].subSchemas|
    ensures |Construct(opts, n, None).1.subSchemas| == |n.subSchemas|
    ensures |Construct(opts, n, None).1.subSchemas[i].subSchemas| == |n.subSchemas[i].subSchemas|
    ensures Construct(opts, n, None).1.subSchemas[i].subSchemas[j].id ==
      n.id + "/" + n.subSchemas[i].id + "/" + n.subSchemas[i].subSchemas[j].id
  {
    WriteBack(opts, n, None);
    var child := n.subSchemas[i];
    assert Absolutised(n, None).subSchemas[i] == Absolutised(child, Some(n.id));
    assert Absolutised(child, Some(n.id)).subSchemas[j] ==
      Absolutised(child.subSchemas[j], Some(n.id + "/" + child.id));
  }

  /** Rendering the same tree a second time in absolute mode prefixes the
      ids again: a child's id gains its root's id once more. */
  lemma SecondRenderPrefixesAgain(opts: Options, n: Node, i: nat)
    requires opts.absoluteIds && i < |n.subSchemas|
    ensures |Construct(opts, n, None).1.subSchemas| == |n.subSchemas|
    ensures |Construct(opts, Construct(opts, n, None).1, None).1.subSchemas| == |n.subSchemas|
    ensures var once := Construct(opts, n, None).1;
      && once.subSchemas[i].id == n.id + "/" + n.subSchemas[i].id
      && Construct(opts, once, None).1.subSchemas[i].id == n.id + "/" + (n.id + "/" + n.subSchemas[i].id)
      && Construct(opts, once, None).1.subSchemas[i].id != once.subSchemas[i].id
  {
    WriteBack(opts, n, None);
    var once := Construct(opts, n, None).1;
    WriteBack(opts, once, None);
    assert |n.id + "/" + (n.id + "/" + n.subSchemas[i].id)| > |n.id + "/" + n.subSchemas[i].id|;
  }
}
