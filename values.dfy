/**
 * Dynamic values: Go's `any` inside a decoded `map[string]any`, and the field values
 * of a JavaScript object. Numbers are kept as integers.
 */
module Values {

  datatype Value =
    | Null
    | Bool(b: bool)
    | Num(n: int)
    | Str(s: string)
    | List(items: seq<Value>)
    | Object(fields: map<string, Value>)

  /** A string-keyed map of dynamic values: a Go `map[string]any` or a JavaScript object. */
  type Obj = map<string, Value>

  /** m1 and m2 agree on key k: both lack it, or both hold the same value there. */
  predicate SameEntry(m1: Obj, m2: Obj, k: string) {
    (k in m1 <==> k in m2) && (k in m1 ==> m1[k] == m2[k])
  }

  /** m1 and m2 agree on every key of keys. */
  predicate AgreeOn(m1: Obj, m2: Obj, keys: set<string>) {
    forall k :: k in keys ==> SameEntry(m1, m2, k)
  }
}
