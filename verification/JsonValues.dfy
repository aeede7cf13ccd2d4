/** Parsed JSON values and the comparison that tells whether an audit entry was rewritten. */
module JsonValues {
  datatype Number = Int(i: int) | Finite(r: real) | Infinite(positive: bool) | NaN

  datatype Json =
    | Null
    | Bool(b: bool)
    | Num(n: Number)
    | Str(s: string)
    | List(items: seq<Json>)
    | Dict(fields: map<string, Json>)

  /** Integers and finite floats compare by value; nothing equals a NaN. */
  predicate SameNumber(a: Number, b: Number) {
    match (a, b)
    case (Int(i), Int(j)) => i == j
    case (Int(i), Finite(s)) => i as real == s
    case (Finite(r), Int(j)) => r == j as real
    case (Finite(r), Finite(s)) => r == s
    case (Infinite(p), Infinite(q)) => p == q
    case _ => false
  }

  /** `_same_json_value`. */
  predicate SameJson(a: Json, b: Json)
    decreases a
  {
    if a.Dict? || b.Dict? then
      && a.Dict? && b.Dict?
      && a.fields.Keys == b.fields.Keys
      && forall k :: k in a.fields ==> SameJson(a.fields[k], b.fields[k])
    else if a.List? || b.List? then
      && a.List? && b.List?
      && |a.items| == |b.items|
      && forall i :: 0 <= i < |a.items| ==> SameJson(a.items[i], b.items[i])
    else if a.Bool? || b.Bool? then a == b
    else if a.Num? || b.Num? then a.Num? && b.Num? && SameNumber(a.n, b.n)
    else a == b
  }

  predicate HasNaN(a: Json) {
    match a
    case Num(n) => n.NaN?
    case List(items) => exists i :: 0 <= i < |items| && HasNaN(items[i])
    case Dict(fields) => exists k :: k in fields && HasNaN(fields[k])
    case _ => false
  }

  lemma {:induction false} SameSymmetric(a: Json, b: Json)
    ensures SameJson(a, b) <==> SameJson(b, a)
    decreases a
  {
    if a.Dict? && b.Dict? && a.fields.Keys == b.fields.Keys {
      forall k | k in a.fields ensures SameJson(a.fields[k], b.fields[k]) <==> SameJson(b.fields[k], a.fields[k]) {
        SameSymmetric(a.fields[k], b.fields[k]);
      }
    } else if a.List? && b.List? && |a.items| == |b.items| {
      forall i | 0 <= i < |a.items| ensures SameJson(a.items[i], b.items[i]) <==> SameJson(b.items[i], a.items[i]) {
        SameSymmetric(a.items[i], b.items[i]);
      }
    }
  }

  lemma {:induction false} SameTransitive(a: Json, b: Json, c: Json)
    requires SameJson(a, b) && SameJson(b, c)
    ensures SameJson(a, c)
    decreases a
  {
    if a.Dict? {
      forall k | k in a.fields ensures SameJson(a.fields[k], c.fields[k]) {
        SameTransitive(a.fields[k], b.fields[k], c.fields[k]);
      }
    } else if a.List? {
      forall i | 0 <= i < |a.items| ensures SameJson(a.items[i], c.items[i]) {
        SameTransitive(a.items[i], b.items[i], c.items[i]);
      }
    }
  }

  /** A value is the same as itself exactly when no NaN occurs in it, at any depth. So the
      comparison is an equivalence on the values that can be compared with anything at all. */
  lemma {:induction false} SameReflexive(a: Json)
    ensures SameJson(a, a) <==> !HasNaN(a)
    decreases a
  {
    if a.Dict? {
      forall k | k in a.fields ensures SameJson(a.fields[k], a.fields[k]) <==> !HasNaN(a.fields[k]) {
        SameReflexive(a.fields[k]);
      }
    } else if a.List? {
      forall i | 0 <= i < |a.items| ensures SameJson(a.items[i], a.items[i]) <==> !HasNaN(a.items[i]) {
        SameReflexive(a.items[i]);
      }
    }
  }

  lemma SameHasNoNaN(a: Json, b: Json)
    requires SameJson(a, b)
    ensures !HasNaN(a) && !HasNaN(b)
  { }
}
