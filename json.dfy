/**
 * The chart options document: a JSON-like tree of mappings, sequences and scalars.
 * Python dicts keep insertion order, so a mapping is an ordered list of
 * key/value members; lookup and update act on the first member with the key,
 * which is the only one in any tree a Python dict can stand for.
 */
module JsonTree {
  import opened Wrappers
  import opened Text

  datatype Json =
    | JNull
    | JBool(b: bool)
    | JInt(i: int)
    | JFloat(r: real)
    | JStr(s: string)
    | JArr(items: seq<Json>)
    | JObj(fields: seq<(string, Json)>)

  type Fields = seq<(string, Json)>

  /** `d.get(k)` on the member list of a dict: the value of the first member with key `k`. */
  function Lookup(fs: Fields, k: string): (r: Option<Json>)
    ensures r.Some? <==> k in Keys(fs)
    decreases |fs|
  {
    if fs == [] then None else if fs[0].0 == k then Some(fs[0].1) else Lookup(fs[1..], k)
  }

  /** The keys of a dict, in iteration order. */
  function Keys(fs: Fields): (ks: seq<string>)
    ensures |ks| == |fs| && forall i :: 0 <= i < |fs| ==> ks[i] == fs[i].0
    decreases |fs|
  {
    if fs == [] then [] else [fs[0].0] + Keys(fs[1..])
  }

  /** `d[k] = v`: an existing key keeps its position, a new key goes to the end. */
  function Put(fs: Fields, k: string, v: Json): (r: Fields)
    ensures Keys(r) == if k in Keys(fs) then Keys(fs) else Keys(fs) + [k]
    ensures Lookup(r, k) == Some(v)
    ensures forall k' :: k' != k ==> Lookup(r, k') == Lookup(fs, k')
    decreases |fs|
  {
    if fs == [] then [(k, v)]
    else if fs[0].0 == k then [(k, v)] + fs[1..]
    else [fs[0]] + Put(fs[1..], k, v)
  }

  /** Writing the value a key already has changes nothing. */
  lemma {:induction false} PutSame(fs: Fields, k: string)
    requires Lookup(fs, k).Some?
    ensures Put(fs, k, Lookup(fs, k).value) == fs
    decreases |fs|
  {
    if fs[0].0 != k {
      PutSame(fs[1..], k);
    }
  }

  /** A second write to the same key overrides the first. */
  lemma {:induction false} PutPut(fs: Fields, k: string, a: Json, b: Json)
    ensures Put(Put(fs, k, a), k, b) == Put(fs, k, b)
    decreases |fs|
  {
    if fs != [] && fs[0].0 != k {
      PutPut(fs[1..], k, a, b);
    }
  }

  /** The value of a key is the one at its first occurrence. */
  lemma {:induction false} LookupFirst(fs: Fields, i: nat, k: string)
    requires i < |fs| && fs[i].0 == k && forall j :: 0 <= j < i ==> fs[j].0 != k
    ensures Lookup(fs, k) == Some(fs[i].1)
    decreases i
  {
    if i > 0 {
      LookupFirst(fs[1..], i - 1, k);
    }
  }

  /** `isinstance(x, Mapping)` and `isinstance(x, MutableMapping)`. */
  predicate IsMapping(j: Json) { j.JObj? }

  /** `isinstance(x, MutableSequence)`: lists only. */
  predicate IsList(j: Json) { j.JArr? }

  /** `isinstance(x, (MutableMapping, MutableSequence))`. */
  predicate IsContainer(j: Json) { j.JObj? || j.JArr? }

  /**
   * `isinstance(x, Sequence)`, and what indexing it yields: a list gives its
   * items, a string gives its characters as one-character strings.
   */
  function AsSequence(j: Json): (r: Option<seq<Json>>)
    ensures r.Some? <==> j.JArr? || j.JStr?
    ensures j.JArr? ==> r == Some(j.items)
    ensures j.JStr? ==> |r.value| == |j.s| && forall k :: 0 <= k < |j.s| ==> r.value[k] == JStr([j.s[k]])
  {
    match j
    case JArr(items) => Some(items)
    case JStr(s) => Some(seq(|s|, k requires 0 <= k < |s| => JStr([s[k]])))
    case _ => None
  }

  /** `m.get(k)` when `m` is a mapping, `None` (as `JNull`) otherwise or when `k` is absent. */
  function MemberOr(j: Json, k: string, default: Json): (r: Json)
    ensures j.JObj? && k in Keys(j.fields) ==> Some(r) == Lookup(j.fields, k)
    ensures !(j.JObj? && k in Keys(j.fields)) ==> r == default
  {
    if j.JObj? then Lookup(j.fields, k).GetOr(default) else default
  }

  /** Python truthiness (`bool(x)`, `if x:`). */
  predicate Truthy(j: Json) {
    match j
    case JNull => false
    case JBool(b) => b
    case JInt(i) => i != 0
    case JFloat(r) => r != 0.0
    case JStr(s) => s != []
    case JArr(items) => items != []
    case JObj(fields) => fields != []
  }

  /** Python's `str(x)` for the scalars whose rendering is modelled; `None` for floats and containers. */
  function PyStr(j: Json): (r: Option<string>)
    ensures j.JStr? ==> r == Some(j.s)
    ensures j.JNull? ==> r == Some("None")
    ensures j.JBool? ==> r == Some(if j.b then "True" else "False")
    ensures j.JInt? ==> r == Some(IntToString(j.i))
    ensures r.None? <==> j.JFloat? || j.JArr? || j.JObj?
  {
    match j
    case JNull => Some("None")
    case JBool(b) => Some(if b then "True" else "False")
    case JInt(i) => Some(IntToString(i))
    case JStr(s) => Some(s)
    case _ => None
  }
}
