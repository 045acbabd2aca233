/**
 * The GraphQL envelope `{"data": {"viewer": {"vehicles": [...]}}}` that the
 * vehicle-list query returns, that the aggregator rebuilds (api.py:264), and
 * that every entity platform reads back with the same `.get` chain.
 */
module Envelope {
  import opened Wrappers
  import opened Errors
  import opened PyJson

  /** `j.get("data", {}).get("viewer", {}).get("vehicles", [])`. */
  function VehiclesField(j: Json): Result<Json, Error> {
    var data :- Get(j, "data", EmptyObj);
    var viewer :- Get(data, "viewer", EmptyObj);
    Get(viewer, "vehicles", Arr([]))
  }

  /** The entries that `for v in (coordinator.data or {}).get(...)...` visits. */
  function ListedVehicles(coordinatorData: Json): Result<seq<Json>, Error> {
    var vehicles :- VehiclesField(OrEmpty(coordinatorData));
    Iter(vehicles)
  }

  /** `{"data": {"viewer": {"vehicles": entries}}}`. */
  function Wrap(entries: seq<Json>): Json {
    Obj(map["data" := Obj(map["viewer" := Obj(map["vehicles" := Arr(entries)])])])
  }

  /** Reading the envelope back gives exactly the entries it was built from. */
  lemma ListedVehiclesOfWrap(entries: seq<Json>)
    ensures ListedVehicles(Wrap(entries)) == Success(entries)
  {
  }

  /** A dict missing any step of the path reads as an empty vehicle list. */
  lemma MissingPathIsEmpty(j: Json)
    requires j.Obj?
    requires "data" !in j.fields
             || (j.fields["data"].Obj? && "viewer" !in j.fields["data"].fields)
             || (j.fields["data"].Obj? && j.fields["data"].fields["viewer"].Obj?
                 && "vehicles" !in j.fields["data"].fields["viewer"].fields)
    ensures VehiclesField(j) == Success(Arr([]))
  {
  }
}
