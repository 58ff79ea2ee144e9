/** The `--query` condition list: a flat list read three elements at a time as
    (field, operator, value) filters, applied in order to a growing query. */
module Conditions {
  import opened Wrappers

  /** One `where(field, operator, value)` restriction; the operator set is the store's. */
  datatype Filter = Filter(field: string, op: string, value: string)

  /** A query as the client library builds it: a collection and the filters applied
      to it so far, in application order. */
  datatype Query = Query(collection: string, filters: seq<Filter>)

  /** `db.collection(name)`: a query with no filter yet. */
  function Collection(name: string): Query
  {
    Query(name, [])
  }

  /** `query.where(field, operator, value)`: a new query with one more filter. */
  function Where(q: Query, f: Filter): Query
  {
    q.(filters := q.filters + [f])
  }

  /** The filters a condition list denotes: triple k is conditions[3k .. 3k+3]. A
      remainder of one or two elements makes the unpacking fail. */
  function Triples(conditions: seq<string>): (r: Result<seq<Filter>, Error>)
    ensures r.Ok? <==> |conditions| % 3 == 0
    ensures r.Ok? ==> |r.value| == |conditions| / 3
    ensures r.Ok? ==> forall k :: 0 <= k < |r.value| ==>
              r.value[k] == Filter(conditions[3 * k], conditions[3 * k + 1], conditions[3 * k + 2])
    ensures r.Err? ==> r.error == UnpackError(3, |conditions| % 3)
  {
    if |conditions| == 0 then Ok([])
    else if |conditions| < 3 then Err(UnpackError(3, |conditions|))
    else
      match Triples(conditions[3..])
      case Ok(rest) => Ok([Filter(conditions[0], conditions[1], conditions[2])] + rest)
      case Err(e) => Err(e)
  }

  /** The loop of `query_collection`: for i in 0, 3, 6, ... take the slice
      conditions[i:i+3] (clamped at the end), unpack it into three names, and
      narrow the query. Nothing is sent to the store here. */
  method BuildQuery(collection: string, conditions: seq<string>) returns (r: Result<Query, Error>)
    ensures r.Ok? <==> |conditions| % 3 == 0
    ensures r.Ok? ==> r.value.collection == collection && |r.value.filters| == |conditions| / 3
    ensures r.Ok? ==> forall k :: 0 <= k < |r.value.filters| ==>
              r.value.filters[k] == Filter(conditions[3 * k], conditions[3 * k + 1], conditions[3 * k + 2])
    ensures r.Err? ==> r.error == UnpackError(3, |conditions| % 3)
    ensures Triples(conditions).Ok? ==> r == Ok(Query(collection, Triples(conditions).value))
  {
    var query := Collection(collection);
    var i := 0;
    while i < |conditions|
      invariant i == 3 * |query.filters| && i <= |conditions|
      invariant query.collection == collection
      invariant forall k :: 0 <= k < |query.filters| ==>
                  query.filters[k] == Filter(conditions[3 * k], conditions[3 * k + 1], conditions[3 * k + 2])
    {
      var end := if i + 3 <= |conditions| then i + 3 else |conditions|;
      var chunk := conditions[i..end];
      if |chunk| != 3 {
        return Err(UnpackError(3, |chunk|));
      }
      query := Where(query, Filter(chunk[0], chunk[1], chunk[2]));
      i := i + 3;
    }
    assert query.filters == Triples(conditions).value;
    return Ok(query);
  }

  /** `--query orders status == shipped` narrows `orders` by the one filter
      `status == shipped`. */
  lemma QueryScenarioFilters()
    ensures Triples(["status", "==", "shipped"]) == Ok([Filter("status", "==", "shipped")])
  {
    var conditions := ["status", "==", "shipped"];
    assert conditions[3..] == [];
    var r := Triples(conditions);
    assert r.Ok? && |r.value| == 1;
    assert r.value[0] == Filter("status", "==", "shipped");
    assert r.value == [Filter("status", "==", "shipped")];
  }
}
