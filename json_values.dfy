/** JSON values as the JavaScript engine holds them after parsing, and the
    two object operations the schema engine relies on: reading a member and
    assigning one (`o[k] = v`). */
module JsonValues {

  datatype Option<T> = None | Some(value: T)

  /** A JSON value. Numbers are reals (the engine's doubles are not modelled
      bit for bit). An object is the list of its own members in the order the
      engine enumerates them; assignment keeps that order (see Put). */
  datatype Json =
    | JNull
    | JBool(b: bool)
    | JNum(n: real)
    | JStr(s: string)
    | JArr(elems: seq<Json>)
    | JObj(fields: Fields)

  type Fields = seq<(string, Json)>

  /** `o[k]`: the value of the first member named k, if any. */
  function Lookup(fs: Fields, k: string): Option<Json>
  {
    if fs == [] then None
    else if fs[0].0 == k then Some(fs[0].1)
    else Lookup(fs[1..], k)
  }

  /** No name occurs twice: true of every object the engine builds. */
  predicate UniqueNames(fs: Fields)
  {
    forall i, j :: 0 <= i < j < |fs| ==> fs[i].0 != fs[j].0
  }

  /** `o[k] = v`: an existing member keeps its position and takes the new
      value; a new member goes at the end of the enumeration order. */
  function Put(fs: Fields, k: string, v: Json): (r: Fields)
    ensures forall k' {:trigger Lookup(r, k')} :: Lookup(r, k') == if k' == k then Some(v) else Lookup(fs, k')
    ensures Lookup(fs, k).None? ==> r == fs + [(k, v)]
    ensures Lookup(fs, k).Some? ==> |r| == |fs|
  {
    if fs == [] then [(k, v)]
    else if fs[0].0 == k then [(k, v)] + fs[1..]
    else [fs[0]] + Put(fs[1..], k, v)
  }

  /** Assigning to an existing name overwrites that member where it stands:
      the first member named k takes the new value and no member moves. */
  lemma {:induction false} PutKeepsPlace(fs: Fields, k: string, v: Json, i: nat)
    requires i < |fs| && fs[i].0 == k
    requires forall j :: 0 <= j < i ==> fs[j].0 != k
    ensures Put(fs, k, v) == fs[i := (k, v)]
  {
    if i == 0 {
      assert [(k, v)] + fs[1..] == fs[0 := (k, v)];
    } else {
      PutKeepsPlace(fs[1..], k, v, i - 1);
      assert [fs[0]] + fs[1..][i - 1 := (k, v)] == fs[i := (k, v)];
    }
  }

  /** A name that no member carries is absent. */
  lemma {:induction false} LookupMissing(fs: Fields, k: string)
    requires forall i :: 0 <= i < |fs| ==> fs[i].0 != k
    ensures Lookup(fs, k) == None
  {
    if fs != [] {
      LookupMissing(fs[1..], k);
    }
  }

  /** The decimal text of an array index, as the engine converts a numeric
      key into a member name. */
  function DecimalText(n: nat): (r: string)
    ensures |r| > 0
    ensures forall i :: 0 <= i < |r| ==> '0' <= r[i] <= '9'
  {
    if n < 10 then [Digit(n)] else DecimalText(n / 10) + [Digit(n % 10)]
  }

  function Digit(d: nat): (c: char)
    requires d < 10
    ensures '0' <= c <= '9'
  {
    ['0', '1', '2', '3', '4', '5', '6', '7', '8', '9'][d]
  }
}
