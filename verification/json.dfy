/**
 * JSON values as the server receives them in request bodies and the pages
 * receive them from `res.json()`. Numbers are integers here (floating point is
 * not modelled); objects keep their key order.
 */
module Json {
  import opened Options
  import opened JsObject
  import opened JsString

  datatype Json =
    | Null
    | Bool(b: bool)
    | Num(n: int)
    | Str(s: string)
    | Arr(items: seq<Json>)
    | Obj(fields: Dict<Json>)

  /** JavaScript truthiness: `null`, `false`, `0` and `""` are falsy; every array and object is truthy. */
  predicate Truthy(j: Json) {
    match j
    case Null => false
    case Bool(b) => b
    case Num(n) => n != 0
    case Str(s) => s != ""
    case Arr(_) => true
    case Obj(_) => true
  }

  /** `v || dflt` for a possibly undefined value. */
  function Or(v: Option<Json>, dflt: Json): (r: Json)
    ensures v.Some? && Truthy(v.value) ==> r == v.value
    ensures !(v.Some? && Truthy(v.value)) ==> r == dflt
  {
    match v
    case Some(x) => if Truthy(x) then x else dflt
    case None => dflt
  }

  /**
   * `j[k]` (and `j?.[k]` once `j` is known to be defined): an own property of
   * an object; undefined on every other value.
   */
  function Member(j: Json, k: string): (r: Option<Json>)
    ensures r.Some? ==> j.Obj? && (k, r.value) in j.fields
    ensures j.Obj? ==> r == Get(j.fields, k)
  {
    match j
    case Obj(f) => Get(f, k)
    case _ => None
  }

  /** `j?.[k]`: like `Member`, but an undefined `j` gives undefined instead of throwing. */
  function OptMember(j: Option<Json>, k: string): (r: Option<Json>)
    ensures r.Some? ==> j.Some? && Member(j.value, k) == r
    ensures j.Some? ==> r == Member(j.value, k)
  {
    match j
    case Some(x) => Member(x, k)
    case None => None
  }

  /** The index keys "0", "1", … of an array or a string of length `n`. */
  function IndexKeys(n: nat): (ks: seq<string>)
    ensures |ks| == n
    ensures forall i :: 0 <= i < n ==> ks[i] == Decimal(i)
  {
    if n == 0 then [] else IndexKeys(n - 1) + [Decimal(n - 1)]
  }

  /** The elements of an array paired with their index keys. */
  function IndexedEntries(items: seq<Json>): (es: Dict<Json>)
    ensures Keys(es) == IndexKeys(|items|)
  {
    if items == [] then []
    else
      var n := |items| - 1;
      var es := IndexedEntries(items[..n]) + [(Decimal(n), items[n])];
      KeysAppend(IndexedEntries(items[..n]), [(Decimal(n), items[n])]);
      es
  }

  /** The index keys of an array or a string are pairwise different. */
  lemma IndexedEntriesDistinct(items: seq<Json>)
    ensures DistinctKeys(IndexedEntries(items))
  {
    var es := IndexedEntries(items);
    forall i, j | 0 <= i < j < |es|
      ensures es[i].0 != es[j].0
    {
      KeysIndex(es, i);
      KeysIndex(es, j);
      if Decimal(i) == Decimal(j) {
        DecimalInjective(i, j);
      }
    }
  }

  /** The characters of a string as one-character strings, as indexing gives them. */
  function Chars(s: string): (cs: seq<Json>)
    ensures |cs| == |s|
  {
    if s == [] then [] else [Str([s[0]])] + Chars(s[1..])
  }

  /**
   * `Object.keys(j)` for a non-null value: an object's keys, the indices of an
   * array or a string, nothing for a boolean or a number.
   */
  function ObjectKeys(j: Json): (ks: seq<string>)
    requires !j.Null?
    ensures j.Obj? ==> ks == Keys(j.fields)
  {
    match j
    case Obj(f) => Keys(f)
    case Arr(items) => IndexKeys(|items|)
    case Str(s) => IndexKeys(|s|)
    case _ => []
  }

  /**
   * `Object.entries(j)` for a non-null value: an object's own pairs, the
   * indexed elements of an array or the indexed one-character strings of a
   * string, nothing for a boolean or a number.
   */
  function ObjectEntries(j: Json): (es: Dict<Json>)
    requires !j.Null?
    ensures Keys(es) == ObjectKeys(j)
  {
    match j
    case Obj(f) => f
    case Arr(items) => IndexedEntries(items)
    case Str(s) => IndexedEntries(Chars(s))
    case _ => []
  }

  /**
   * Only an object can carry a repeated key: the entries of an array, a
   * string, a boolean or a number are always distinct, and those of an
   * object are distinct when its fields are.
   */
  lemma ObjectEntriesDistinct(j: Json)
    requires !j.Null? && (j.Obj? ==> DistinctKeys(j.fields))
    ensures DistinctKeys(ObjectEntries(j))
  {
    match j
    case Obj(_) =>
    case Arr(items) => IndexedEntriesDistinct(items);
    case Str(s) => IndexedEntriesDistinct(Chars(s));
    case _ =>
  }
}

/** The JSON shapes exchanged over the HTTP interface. */
module Api {
  import opened Options
  import opened JsObject
  import opened Json

  /** The history as served by GET /api/historial: hora → activo → cambio. */
  type Table = Dict<Dict<Json>>

  /** `table[hora]?.[activo]`. */
  function Lookup(t: Table, hora: string, activo: string): (r: Option<Json>)
    ensures r.Some? ==> HasKey(t, hora)
  {
    match Get(t, hora)
    case Some(row) => Get(row, activo)
    case None => None
  }

  /** The reply of a create handler: `{ok: true}` or a 400 with `{error}`. */
  datatype Status = Created | BadRequest(error: string)
}
