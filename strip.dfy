/** The metadata strip (`step3`): every member whose name has the form
    `__x__` and whose value is not an object or array is removed, at every
    depth; members holding objects or arrays are walked into instead. */
module MetaStrip {
  import opened JsonValues

  /** The characters a regular-expression `.` does not match. */
  predicate IsLineTerminator(c: char)
  {
    c == '\n' || c == '\r' || c == '\U{2028}' || c == '\U{2029}'
  }

  /** The name matches `^__.*__$`: two underscores, any run of characters
      other than line terminators, two underscores. */
  predicate IsMeta(k: string)
  {
    && |k| >= 4
    && k[..2] == "__"
    && k[|k| - 2..] == "__"
    && forall i :: 2 <= i < |k| - 2 ==> !IsLineTerminator(k[i])
  }

  /** `typeof v == "object" && v !== null`: objects and arrays. */
  predicate IsObjectValue(v: Json)
  {
    v.JObj? || v.JArr?
  }

  /** The value after the strip. */
  function Strip(v: Json): Json
    decreases v, 1
  {
    match v
    case JObj(fs) => JObj(StripFields(v, fs))
    case JArr(es) => JArr(seq(|es|, i requires 0 <= i < |es| => Strip(es[i])))
    case _ => v
  }

  /** The members of `fs` (the first members of the object `obj`) after the
      strip, in order: containers are stripped in turn, other members are
      dropped when their name is a metadata name and kept otherwise. */
  function StripFields(ghost obj: Json, fs: Fields): Fields
    requires obj.JObj? && fs <= obj.fields
    decreases obj, 0, |fs|
  {
    if fs == [] then []
    else
      var i := |fs| - 1;
      assert fs[i] == obj.fields[i];
      StripFields(obj, fs[..i]) + StripMember(obj, fs[i])
  }

  /** One member of the object `obj` after the strip: none, or one. */
  function StripMember(ghost obj: Json, m: (string, Json)): (r: Fields)
    requires obj.JObj? && m in obj.fields
    ensures |r| <= 1
    decreases obj, 0, 0
  {
    if IsObjectValue(m.1) then [(m.0, Strip(m.1))] else if IsMeta(m.0) then [] else [m]
  }

  /** No metadata member holding a primitive is left anywhere. */
  predicate Clean(v: Json)
    decreases v
  {
    match v
    case JObj(fs) => forall i :: 0 <= i < |fs| ==>
      (IsMeta(fs[i].0) ==> IsObjectValue(fs[i].1)) && Clean(fs[i].1)
    case JArr(es) => forall i :: 0 <= i < |es| ==> Clean(es[i])
    case _ => true
  }

  /** `step3(obj)`: walk the members in order; recurse into a member that
      holds an object or array, delete a metadata member that does not. An
      array's members are its elements under their index names, which are
      never metadata names (see `IndexNamesAreNotMeta`), so an array only
      has its containers walked into. */
  method StripMeta(v: Json) returns (r: Json)
    ensures r == Strip(v)
    decreases v
  {
    match v {
      case JObj(fs) =>
        var kept: Fields := [];
        var i := 0;
        while i < |fs|
          invariant 0 <= i <= |fs|
          invariant kept == StripFields(v, fs[..i])
        {
          var (k, x) := fs[i];
          assert fs[..i + 1][..i] == fs[..i];
          if IsObjectValue(x) {
            var x' := StripMeta(x);
            kept := kept + [(k, x')];
          } else if !IsMeta(k) {
            kept := kept + [(k, x)];
          }
          i := i + 1;
        }
        assert fs[..i] == fs;
        r := JObj(kept);
      case JArr(es) =>
        var elems: seq<Json> := [];
        var i := 0;
        while i < |es|
          invariant 0 <= i <= |es|
          invariant elems == seq(i, j requires 0 <= j < i => Strip(es[j]))
        {
          var e := es[i];
          if IsObjectValue(e) {
            e := StripMeta(e);
          }
          elems := elems + [e];
          i := i + 1;
        }
        r := JArr(elems);
      case _ =>
        r := v;
    }
  }

  /** The index names an array's members go by never look like metadata. */
  lemma IndexNamesAreNotMeta(i: nat)
    ensures !IsMeta(DecimalText(i))
  {
    var t := DecimalText(i);
    if |t| >= 4 {
      assert t[0] != '_';
      assert t[..2][0] == t[0];
    }
  }

  /** The strip leaves nothing to strip, at any depth. */
  lemma {:induction false} StripIsClean(v: Json)
    ensures Clean(Strip(v))
    decreases v, 1
  {
    match v
    case JObj(fs) => StripFieldsClean(v, fs);
    case JArr(es) =>
      forall i | 0 <= i < |es|
        ensures Clean(Strip(es[i]))
      {
        StripIsClean(es[i]);
      }
    case _ =>
  }

  lemma {:induction false} StripFieldsClean(obj: Json, fs: Fields)
    requires obj.JObj? && fs <= obj.fields
    ensures Clean(JObj(StripFields(obj, fs)))
    decreases obj, 0, |fs|
  {
    if fs != [] {
      var i := |fs| - 1;
      assert fs[i] == obj.fields[i];
      StripFieldsClean(obj, fs[..i]);
      if IsObjectValue(fs[i].1) {
        StripIsClean(fs[i].1);
      }
    }
  }

  /** A clean value is exactly one the strip leaves as it is. */
  lemma {:induction false} CleanIsFixpoint(v: Json)
    ensures Clean(v) <==> Strip(v) == v
    decreases v, 1
  {
    StripIsClean(v);
    if Clean(v) {
      match v
      case JObj(fs) =>
        forall j | 0 <= j < |fs|
          ensures StripMember(v, fs[j]) == [fs[j]]
        {
          CleanMemberFixed(v, j);
        }
        CleanFieldsFixed(v, fs);
      case JArr(es) =>
        forall i | 0 <= i < |es|
          ensures Strip(es[i]) == es[i]
        {
          CleanIsFixpoint(es[i]);
        }
        assert Strip(v).elems == es;
      case _ =>
    }
  }

  lemma {:induction false} CleanFieldsFixed(obj: Json, fs: Fields)
    requires obj.JObj? && fs <= obj.fields
    requires forall j :: 0 <= j < |obj.fields| ==> StripMember(obj, obj.fields[j]) == [obj.fields[j]]
    ensures StripFields(obj, fs) == fs
    decreases |fs|
  {
    if fs != [] {
      var i := |fs| - 1;
      assert fs[i] == obj.fields[i];
      CleanFieldsFixed(obj, fs[..i]);
      assert fs[..i] + [fs[i]] == fs;
    }
  }

  /** A member of a clean object survives the strip as it is. */
  lemma {:induction false} CleanMemberFixed(obj: Json, i: nat)
    requires obj.JObj? && i < |obj.fields| && Clean(obj)
    ensures StripMember(obj, obj.fields[i]) == [obj.fields[i]]
    decreases obj, 0, 0
  {
    var m := obj.fields[i];
    if IsObjectValue(m.1) {
      CleanIsFixpoint(m.1);
    }
  }

  /** Stripping twice is stripping once. */
  lemma StripIdempotent(v: Json)
    ensures Strip(Strip(v)) == Strip(v)
  {
    StripIsClean(v);
    CleanIsFixpoint(Strip(v));
  }

  /** `o[k]` after appending one member. */
  lemma {:induction false} LookupSnoc(fs: Fields, m: (string, Json), k: string)
    ensures Lookup(fs + [m], k) == if Lookup(fs, k).Some? then Lookup(fs, k) else if m.0 == k then Some(m.1) else None
  {
    if fs != [] {
      assert (fs + [m])[1..] == fs[1..] + [m];
      LookupSnoc(fs[1..], m, k);
    }
  }

  /** `o[k]` on the stripped members, one member at a time. */
  lemma LookupStripSnoc(obj: Json, fs: Fields, k: string)
    requires obj.JObj? && fs <= obj.fields && fs != []
    ensures var prev := Lookup(StripFields(obj, fs[..|fs| - 1]), k);
      var tail := StripMember(obj, fs[|fs| - 1]);
      Lookup(StripFields(obj, fs), k) ==
        if prev.Some? then prev else if tail != [] && tail[0].0 == k then Some(tail[0].1) else None
  {
    var i := |fs| - 1;
    var tail := StripMember(obj, fs[i]);
    if tail == [] {
      assert StripFields(obj, fs) == StripFields(obj, fs[..i]);
    } else {
      LookupSnoc(StripFields(obj, fs[..i]), tail[0], k);
      assert tail == [tail[0]];
    }
  }

  /** A member whose name is not a metadata name reads the same after the
      strip, up to stripping its value. */
  lemma {:induction false} StripKeepsOrdinary(obj: Json, fs: Fields, k: string)
    requires obj.JObj? && fs <= obj.fields && !IsMeta(k)
    ensures Lookup(StripFields(obj, fs), k) ==
      match Lookup(fs, k) case None => None case Some(x) => Some(Strip(x))
    decreases |fs|
  {
    if fs != [] {
      var i := |fs| - 1;
      StripKeepsOrdinary(obj, fs[..i], k);
      assert fs[..i] + [fs[i]] == fs;
      LookupSnoc(fs[..i], fs[i], k);
      LookupStripSnoc(obj, fs, k);
    }
  }

  /** A metadata member that holds an object or array is walked into, not
      deleted: it reads as its stripped value. */
  lemma {:induction false} StripKeepsMetaContainer(obj: Json, fs: Fields, k: string, x: Json)
    requires obj.JObj? && fs <= obj.fields
    requires Lookup(fs, k) == Some(x) && IsObjectValue(x)
    ensures Lookup(StripFields(obj, fs), k) == Some(Strip(x))
    decreases |fs|
  {
    var i := |fs| - 1;
    assert fs[..i] + [fs[i]] == fs;
    LookupSnoc(fs[..i], fs[i], k);
    LookupStripSnoc(obj, fs, k);
    if Lookup(fs[..i], k).Some? {
      StripKeepsMetaContainer(obj, fs[..i], k, x);
    } else {
      StripRemovesAbsent(obj, fs[..i], k);
    }
  }

  /** A metadata member holding a primitive is deleted: when every member
      of that name holds a primitive, none is left. */
  lemma {:induction false} StripDeletesMeta(obj: Json, fs: Fields, k: string)
    requires obj.JObj? && fs <= obj.fields && IsMeta(k)
    requires forall i :: 0 <= i < |fs| && fs[i].0 == k ==> !IsObjectValue(fs[i].1)
    ensures Lookup(StripFields(obj, fs), k) == None
    decreases |fs|
  {
    if fs != [] {
      StripDeletesMeta(obj, fs[..|fs| - 1], k);
      LookupStripSnoc(obj, fs, k);
    }
  }

  /** A name absent before the strip is absent after it. */
  lemma {:induction false} StripRemovesAbsent(obj: Json, fs: Fields, k: string)
    requires obj.JObj? && fs <= obj.fields && Lookup(fs, k).None?
    ensures Lookup(StripFields(obj, fs), k) == None
    decreases |fs|
  {
    if fs != [] {
      var i := |fs| - 1;
      assert fs[..i] + [fs[i]] == fs;
      LookupSnoc(fs[..i], fs[i], k);
      StripRemovesAbsent(obj, fs[..i], k);
      LookupStripSnoc(obj, fs, k);
    }
  }
}
