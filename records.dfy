/** Normalisation of the records a backend returns: each record's nested
    identifier `_id.$oid` becomes a flat `id` field and `_id` is removed. */
module Records {
  import opened Json

  /** An item of a collection: a plain object, by property name. */
  type Fields = map<string, Value>

  /** Why a fetched body cannot be normalised. Both are a `TypeError` thrown
      from the normalisation loop; the index tells which record threw. */
  datatype Failure = NotAnArray | MalformedRecord(index: nat)

  datatype Result<T> = Ok(value: T) | Err(failure: Failure)

  /** `record._id.$oid` evaluates without throwing: the record is an object
      and its `_id` is neither missing nor `null`. */
  predicate HasId(record: Value) {
    && record.Object?
    && "_id" in record.fields
    && !record.fields["_id"].Null?
    && !record.fields["_id"].Undefined?
  }

  /** The value of `id.$oid`: the `$oid` property of an object, and
      `undefined` for an object without one or for any other value. */
  function Oid(id: Value): (r: Value)
    ensures id.Object? && "$oid" in id.fields ==> r == id.fields["$oid"]
    ensures !(id.Object? && "$oid" in id.fields) ==> r.Undefined?
  {
    if id.Object? && "$oid" in id.fields then id.fields["$oid"] else Undefined
  }

  /** One iteration of the loop body: `item.id = item._id.$oid; delete item._id`. */
  function NormalizeRecord(record: Value): (item: Fields)
    requires HasId(record)
    ensures "_id" !in item
    ensures "id" in item && item["id"] == Oid(record.fields["_id"])
    ensures forall k :: k != "id" && k != "_id" ==> (k in item <==> k in record.fields)
    ensures forall k :: k in item && k != "id" ==> item[k] == record.fields[k]
  {
    (record.fields - {"_id"})["id" := Oid(record.fields["_id"])]
  }

  /** Index of the first record that would throw, or `|records|` if none does. */
  function FirstMalformed(records: seq<Value>): (i: nat)
    ensures i <= |records|
    ensures forall j :: 0 <= j < i ==> HasId(records[j])
    ensures i < |records| ==> !HasId(records[i])
  {
    if records == [] then 0
    else if !HasId(records[0]) then 0
    else 1 + FirstMalformed(records[1..])
  }

  /** What normalising a fetched body produces: the normalised records in
      their original order, or the failure the first bad record raises. */
  function NormalizeBody(body: Value): (r: Result<seq<Fields>>)
    ensures r.Ok? <==> body.List? && forall i :: 0 <= i < |body.elems| ==> HasId(body.elems[i])
    ensures !body.List? ==> r == Err(NotAnArray)
    ensures body.List? && r.Err? ==> r.failure.MalformedRecord?
    ensures r.Err? && r.failure.MalformedRecord? ==>
              && body.List?
              && r.failure.index < |body.elems|
              && !HasId(body.elems[r.failure.index])
              && forall j :: 0 <= j < r.failure.index ==> HasId(body.elems[j])
    ensures r.Ok? ==>
              && |r.value| == |body.elems|
              && forall i :: 0 <= i < |r.value| ==>
                   && "_id" !in r.value[i]
                   && "id" in r.value[i]
                   && r.value[i]["id"] == Oid(body.elems[i].fields["_id"])
                   && forall k :: k != "id" && k != "_id" ==>
                        (k in r.value[i] <==> k in body.elems[i].fields)
                        && (k in r.value[i] ==> r.value[i][k] == body.elems[i].fields[k])
  {
    if !body.List? then Err(NotAnArray)
    else
      var bad := FirstMalformed(body.elems);
      if bad < |body.elems| then Err(MalformedRecord(bad))
      else Ok(seq(|body.elems|, i requires 0 <= i < |body.elems| => NormalizeRecord(body.elems[i])))
  }

  /** The `forEach` loop over the fetched items, stopping at the first
      record whose `_id` cannot be read. */
  method NormalizeItems(body: Value) returns (r: Result<seq<Fields>>)
    ensures r == NormalizeBody(body)
  {
    if !body.List? {
      return Err(NotAnArray);
    }
    var records := body.elems;
    var items: seq<Fields> := [];
    var i := 0;
    while i < |records|
      invariant 0 <= i <= |records|
      invariant |items| == i
      invariant forall j :: 0 <= j < i ==> HasId(records[j]) && items[j] == NormalizeRecord(records[j])
    {
      if !HasId(records[i]) {
        return Err(MalformedRecord(i));
      }
      items := items + [NormalizeRecord(records[i])];
      i := i + 1;
    }
    assert FirstMalformed(records) == |records|;
    assert items == NormalizeBody(body).value;
    return Ok(items);
  }

  /** The properties of an item that `JSON.stringify` keeps, as
      `JSON.parse` gives them back. */
  function SerializeItem(item: Fields): (r: Fields)
    ensures r.Keys == set k | k in item && !item[k].Undefined?
    ensures forall k :: k in r ==> IsJson(r[k])
  {
    map k | k in item && !item[k].Undefined? :: Jsonify(item[k])
  }

  /** Every property of an item that JSON can denote reads back unchanged
      after persisting. */
  lemma SerializeItemKeepsJson(item: Fields)
    ensures forall k :: k in item && IsJson(item[k]) ==> k in SerializeItem(item) && SerializeItem(item)[k] == item[k]
  {
    forall k | k in item && IsJson(item[k]) ensures SerializeItem(item)[k] == item[k] {
      JsonifyKeepsJson(item[k]);
    }
  }

  /** A collection as it reads back after `JSON.stringify` and `JSON.parse`. */
  function SerializeItems(items: seq<Fields>): (r: seq<Fields>)
    ensures |r| == |items|
    ensures forall i :: 0 <= i < |items| ==> r[i] == SerializeItem(items[i])
  {
    if items == [] then [] else [SerializeItem(items[0])] + SerializeItems(items[1..])
  }

  /** Every record carries `_id.$oid`, so every item gets a defined `id`. */
  predicate HasOid(record: Value) {
    HasId(record) && record.fields["_id"].Object? && "$oid" in record.fields["_id"].fields
  }

  /** When the body is JSON and every record carries `_id.$oid`, the
      normalised collection survives persisting and reloading unchanged. */
  lemma NormalizedSurvivesPersisting(body: Value)
    requires IsJson(body)
    requires body.List? && forall i :: 0 <= i < |body.elems| ==> HasOid(body.elems[i])
    ensures NormalizeBody(body).Ok?
    ensures SerializeItems(NormalizeBody(body).value) == NormalizeBody(body).value
  {
    var items := NormalizeBody(body).value;
    forall i | 0 <= i < |items| ensures SerializeItem(items[i]) == items[i] {
      var record := body.elems[i].fields;
      assert IsJson(body.elems[i]);
      forall k | k in items[i] ensures !items[i][k].Undefined? && Jsonify(items[i][k]) == items[i][k] {
        if k == "id" {
          assert IsJson(record["_id"]);
          JsonifyKeepsJson(record["_id"].fields["$oid"]);
        } else {
          JsonifyKeepsJson(record[k]);
        }
      }
    }
  }

  /** A record whose `_id` lacks `$oid` yields an item whose `id` is
      `undefined`, and persisting drops that `id` altogether. */
  lemma MissingOidIsNotPersisted(body: Value, i: nat)
    requires NormalizeBody(body).Ok? && i < |body.elems|
    requires !HasOid(body.elems[i])
    ensures NormalizeBody(body).value[i]["id"] == Undefined
    ensures "id" !in SerializeItems(NormalizeBody(body).value)[i]
  {
  }

  /** For a JSON body, persisting the item of a record without `$oid`
      loses exactly its `id`: every other property reads back unchanged. */
  lemma MissingOidLosesOnlyId(body: Value, i: nat)
    requires IsJson(body)
    requires NormalizeBody(body).Ok? && i < |body.elems|
    requires !HasOid(body.elems[i])
    ensures SerializeItems(NormalizeBody(body).value)[i] == NormalizeBody(body).value[i] - {"id"}
  {
    var item := NormalizeBody(body).value[i];
    var record := body.elems[i].fields;
    assert IsJson(body.elems[i]);
    forall k | k in item && k != "id" ensures IsJson(item[k]) {
      assert item[k] == record[k];
    }
    SerializeItemKeepsJson(item);
  }
}
