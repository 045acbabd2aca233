/**
 * What every entity platform shares: the identity a listed entry gives an
 * entity (the base-class constructor, entity.py:19-44, together with each
 * platform's `vehicle["vehicle"]["id"] if vehicle else None`), and the scan
 * by which sensors and binary sensors find their vehicle's value for a key
 * (sensor.py:224-231, binary_sensor.py:95-102).
 */
module Entity {
  import opened Wrappers
  import opened Errors
  import opened PyJson

  /**
   * The vehicle id, the licence plate, and the unique id the base class
   * sets; `baseUniqueId` is None where the base class uses the config entry's
   * id instead.
   */
  datatype Identity = Identity(vehicleId: Json, plate: Json, baseUniqueId: Option<string>)

  /**
   * Whether Python can hash the value: the device identifiers are a set of
   * `(DOMAIN, id)` pairs (entity.py:33), so a list or dict id raises TypeError.
   */
  predicate Hashable(j: Json) {
    !j.Arr? && !j.Obj?
  }

  /** The identity an entity built from the listed entry `vehicle` gets. */
  function IdentityOf(vehicle: Json): (r: Result<Identity, Error>)
    ensures !Truthy(vehicle) ==> r == Success(Identity(Null, Null, None))
    ensures Truthy(vehicle) ==>
      (r.Success? <==> vehicle.Obj? && "vehicle" in vehicle.fields && vehicle.fields["vehicle"].Obj?
                       && "id" in vehicle.fields["vehicle"].fields
                       && Hashable(vehicle.fields["vehicle"].fields["id"]))
    ensures r.Failure? ==> r.error == Runtime
    ensures Truthy(vehicle) && r.Success? ==>
      var record := vehicle.fields["vehicle"].fields;
      && r.value.vehicleId == record["id"]
      && r.value.plate == (if "licensePlate" in record && Truthy(record["licensePlate"]) then record["licensePlate"]
                           else record["id"])
      && r.value.baseUniqueId == Some(PyStr(record["id"]))
  {
    if !Truthy(vehicle) then Success(Identity(Null, Null, None))
    else
      var record :- Index(vehicle, "vehicle");
      var licensePlate :- Get(record, "licensePlate", Null);
      var vehicleId :- Index(record, "id");
      if !Hashable(vehicleId) then Failure(Runtime)
      else Success(Identity(vehicleId, if Truthy(licensePlate) then licensePlate else vehicleId, Some(PyStr(vehicleId))))
  }

  /** `if not v or not v.get("vehicle"): continue`: the vehicle record of an entry the scan looks at. */
  function Scanned(entry: Json): Result<Option<Json>, Error> {
    if !Truthy(entry) then Success(None)
    else
      var record :- Get(entry, "vehicle", Null);
      if Truthy(record) then Success(Some(record)) else Success(None)
  }

  /**
   * The value under `key` in the first scanned vehicle, from entry `i` on,
   * whose id equals `vehicleId` and that has the key; None when there is
   * none.  Subscripting a record that is not a dict, or one without "id",
   * raises.
   */
  function KeyedValue(entries: seq<Json>, i: nat, vehicleId: Json, key: string): Result<Option<Json>, Error>
    requires i <= |entries|
    decreases |entries| - i
  {
    if i == |entries| then Success(None)
    else
      var scanned :- Scanned(entries[i]);
      if scanned.None? then KeyedValue(entries, i + 1, vehicleId, key)
      else
        var id :- Index(scanned.value, "id");
        if PyEq(id, vehicleId) && key in scanned.value.fields then Success(Some(scanned.value.fields[key]))
        else KeyedValue(entries, i + 1, vehicleId, key)
  }

  /** The entry's vehicle has id `vehicleId` and holds `key`. */
  predicate Holds(entry: Json, vehicleId: Json, key: string) {
    && entry.Obj? && "vehicle" in entry.fields
    && var record := entry.fields["vehicle"];
    && record.Obj? && "id" in record.fields && PyEq(record.fields["id"], vehicleId) && key in record.fields
  }

  /** The scan moves past the entry without raising: skipped, or a well-formed record that does not hold. */
  predicate Passes(entry: Json, vehicleId: Json, key: string) {
    || !Truthy(entry)
    || (&& entry.Obj?
        && ("vehicle" !in entry.fields || !Truthy(entry.fields["vehicle"])
            || (entry.fields["vehicle"].Obj? && "id" in entry.fields["vehicle"].fields
                && !Holds(entry, vehicleId, key))))
  }

  /** The scan returns the value held by the first entry that holds, when every entry before it passes. */
  lemma {:induction false} KeyedValueFirst(entries: seq<Json>, i: nat, j: nat, vehicleId: Json, key: string)
    requires i <= j < |entries|
    requires forall k :: i <= k < j ==> Passes(entries[k], vehicleId, key)
    requires Holds(entries[j], vehicleId, key)
    ensures KeyedValue(entries, i, vehicleId, key) == Success(Some(entries[j].fields["vehicle"].fields[key]))
    decreases j - i
  {
    if i < j {
      assert Passes(entries[i], vehicleId, key);
      KeyedValueFirst(entries, i + 1, j, vehicleId, key);
    } else {
      assert Truthy(entries[j]) && Truthy(entries[j].fields["vehicle"]);
    }
  }

  /** When every entry passes, there is no value. */
  lemma {:induction false} KeyedValueAbsent(entries: seq<Json>, i: nat, vehicleId: Json, key: string)
    requires i <= |entries|
    requires forall k :: i <= k < |entries| ==> Passes(entries[k], vehicleId, key)
    ensures KeyedValue(entries, i, vehicleId, key) == Success(None)
    decreases |entries| - i
  {
    if i < |entries| {
      assert Passes(entries[i], vehicleId, key);
      KeyedValueAbsent(entries, i + 1, vehicleId, key);
    }
  }

  /**
   * An entry the setup filter `vehicle and vehicle.get("vehicle")` keeps
   * (sensor.py:131, binary_sensor.py:60).
   */
  predicate Kept(entry: Json) {
    entry.Obj? && "vehicle" in entry.fields && Truthy(entry.fields["vehicle"])
  }

  /** The kept entries, in order. */
  function KeptEntries(entries: seq<Json>): seq<Json>
    decreases |entries|
  {
    if entries == [] then []
    else (if Kept(entries[0]) then [entries[0]] else []) + KeptEntries(entries[1..])
  }
}
