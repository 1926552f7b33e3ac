/**
 * A parsed JSON document and the two queries the notification formatter makes of it:
 * `Path(key)` (look a key up) and `Exists(key)` (is there a non-null value under that key),
 * with the semantics of the gabs v1 container the source uses. Numbers and booleans are
 * never read as such by the formatter, so they are one `Scalar` case.
 */
module Json {

  datatype Json =
    | Null
    | Str(s: string)
    | Scalar
    | Arr(elems: seq<Json>)
    | Obj(members: map<string, Json>)

  /** Looks `key` up in `v`. An object yields the member (or Null when missing); an array
      yields the non-null hits of its elements, or Null when there are none; anything else
      yields Null. */
  function Path(v: Json, key: string): (r: Json)
    ensures r.Str? ==> v.Obj? && key in v.members && v.members[key] == r
    ensures v.Obj? && key in v.members ==> r == v.members[key]
    ensures v.Obj? && key !in v.members ==> r.Null?
    ensures v.Arr? ==> r.Null? || (r.Arr? && |r.elems| > 0)
    ensures !v.Obj? && !v.Arr? ==> r.Null?
    decreases v, 1
  {
    match v
    case Obj(m) => if key in m then m[key] else Null
    case Arr(es) =>
      var hits := Hits(v, es, key);
      if hits == [] then Null else Arr(hits)
    case _ => Null
  }

  /** The non-null results of looking `key` up in each of `es`, in order. */
  function Hits(ghost parent: Json, es: seq<Json>, key: string): (hs: seq<Json>)
    requires parent.Arr? && forall e :: e in es ==> e in parent.elems
    ensures |hs| <= |es|
    ensures forall h :: h in hs ==> !h.Null?
    decreases parent, 0, |es|
  {
    if es == [] then []
    else
      assert es[0] in parent.elems;
      var h := Path(es[0], key);
      (if h.Null? then [] else [h]) + Hits(parent, es[1..], key)
  }

  /** True when `v` holds a non-null value under `key`. */
  predicate Exists(v: Json, key: string)
    ensures v.Obj? ==> (Exists(v, key) <==> key in v.members && !v.members[key].Null?)
    ensures Exists(v, key) ==> v.Obj? || v.Arr?
  {
    !Path(v, key).Null?
  }

  /** The string under `key`, or "" when there is none or it is not a string
      (Go's `x, _ := ….Data().(string)`). */
  function StringAt(v: Json, key: string): (s: string)
    ensures Path(v, key).Str? ==> s == Path(v, key).s
    ensures !Path(v, key).Str? ==> s == ""
    ensures s != "" ==> Path(v, key) == Str(s)
  {
    match Path(v, key)
    case Str(s) => s
    case _ => ""
  }

  /** No element of `es` holds a non-null value under `key` iff `Hits` finds nothing. */
  lemma {:induction false} HitsEmptyIff(parent: Json, es: seq<Json>, key: string)
    requires parent.Arr? && forall e :: e in es ==> e in parent.elems
    ensures Hits(parent, es, key) == [] <==> forall i :: 0 <= i < |es| ==> Path(es[i], key).Null?
    decreases |es|
  {
    if es != [] {
      HitsEmptyIff(parent, es[1..], key);
      assert forall i :: 1 <= i < |es| ==> es[i] == es[1..][i - 1];
    }
  }

  /** A key exists in an array iff it exists in one of the array's elements. */
  lemma ExistsInArray(es: seq<Json>, key: string)
    ensures Exists(Arr(es), key) <==> exists i :: 0 <= i < |es| && Exists(es[i], key)
  {
    HitsEmptyIff(Arr(es), es, key);
  }
}
