/** JavaScript values as the store sees them: what `response.json()` yields,
    what the normalisation writes into an item, and what survives a trip
    through `JSON.stringify` followed by `JSON.parse`. */
module Json {

  /** A JavaScript value. `Undefined` stands for a property that was
      explicitly assigned `undefined`; JSON text never produces it.
      Numbers are modelled as integers. */
  datatype Value =
    | Undefined
    | Null
    | Bool(b: bool)
    | Num(n: int)
    | Str(s: string)
    | List(elems: seq<Value>)
    | Object(fields: map<string, Value>)

  /** True for values that JSON text can denote: no `undefined` anywhere. */
  predicate IsJson(v: Value) {
    match v
    case Undefined => false
    case List(es) => forall i :: 0 <= i < |es| ==> IsJson(es[i])
    case Object(fs) => forall k :: k in fs ==> IsJson(fs[k])
    case _ => true
  }

  /** The value that `JSON.parse(JSON.stringify(v))` gives back for a value
      `v` that is not itself `undefined`: object properties holding
      `undefined` are dropped and array slots holding it become `null`. */
  function Jsonify(v: Value): (r: Value)
    requires !v.Undefined?
    ensures IsJson(r)
    ensures v.List? <==> r.List?
    ensures v.Object? <==> r.Object?
    ensures v.Object? ==> r.fields.Keys == set k | k in v.fields && !v.fields[k].Undefined?
  {
    match v
    case List(es) =>
      List(JsonifyElems(es))
    case Object(fs) =>
      Object(map k | k in fs && !fs[k].Undefined? :: Jsonify(fs[k]))
    case _ => v
  }

  /** The array slots of `Jsonify`, one by one. */
  function JsonifyElems(es: seq<Value>): (r: seq<Value>)
    ensures |r| == |es|
    ensures forall i :: 0 <= i < |es| ==> r[i] == if es[i].Undefined? then Null else Jsonify(es[i])
  {
    if es == [] then []
    else [if es[0].Undefined? then Null else Jsonify(es[0])] + JsonifyElems(es[1..])
  }

  /** A value that JSON can already denote comes back from the round trip
      unchanged. */
  lemma {:induction false} JsonifyKeepsJson(v: Value)
    requires IsJson(v)
    ensures Jsonify(v) == v
  {
    match v
    case List(es) =>
      forall i | 0 <= i < |es| ensures Jsonify(v).elems[i] == es[i] {
        JsonifyKeepsJson(es[i]);
      }
    case Object(fs) =>
      forall k | k in fs ensures Jsonify(v).fields[k] == fs[k] {
        JsonifyKeepsJson(fs[k]);
      }
    case _ =>
  }
}
