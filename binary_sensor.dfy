/**
 * The binary-sensor platform (binary_sensor.py): three binary sensors per
 * listed vehicle, their ids, and `is_on`, the truthiness of the vehicle's
 * value for the sensor's key.
 */
module BinarySensor {
  import opened Wrappers
  import opened Errors
  import opened PyJson
  import opened Entity
  import Envelope

  /** The keys of ENTITY_DESCRIPTIONS, in order. */
  const DescriptionKeys: seq<string> := ["isCharging", "isBlocked", "activated"]

  /** A binary sensor as setup creates it: its description's key and its identity. */
  datatype BinarySensorEntity = BinarySensorEntity(key: string, identity: Identity)

  /** The binary sensors created for one listed entry (lines 54-61). */
  function EntitiesOf(vehicle: Json): Result<seq<BinarySensorEntity>, Error> {
    if !Truthy(vehicle) then Success([])
    else
      var record :- Get(vehicle, "vehicle", Null);
      if !Truthy(record) then Success([])
      else
        var identity :- IdentityOf(vehicle);
        Success(ForVehicle(identity))
  }

  /** One binary sensor per description, for one vehicle. */
  function ForVehicle(identity: Identity): seq<BinarySensorEntity> {
    seq(|DescriptionKeys|, d requires 0 <= d < |DescriptionKeys| => BinarySensorEntity(DescriptionKeys[d], identity))
  }

  /** The comprehension of `async_setup_entry` over the listed entries. */
  function SetupFrom(entries: seq<Json>): Result<seq<BinarySensorEntity>, Error>
    decreases |entries|
  {
    if entries == [] then Success([])
    else
      var first :- EntitiesOf(entries[0]);
      var rest :- SetupFrom(entries[1..]);
      Success(first + rest)
  }

  /** `async_setup_entry` (lines 42-63). */
  function Setup(coordinatorData: Json): Result<seq<BinarySensorEntity>, Error> {
    var entries :- Envelope.ListedVehicles(coordinatorData);
    SetupFrom(entries)
  }

  /** The vehicle-major layout of binary sensors over the kept entries `kept`. */
  predicate Laid(r: seq<BinarySensorEntity>, kept: seq<Json>) {
    && |r| == 3 * |kept|
    && forall k :: 0 <= k < |r| ==>
         r[k].key == DescriptionKeys[k % 3] && IdentityOf(kept[k / 3]) == Success(r[k].identity)
  }

  /** Prepending one vehicle's binary sensors keeps the layout. */
  lemma LaidCons(entry: Json, identity: Identity, rest: seq<BinarySensorEntity>, keptRest: seq<Json>)
    requires IdentityOf(entry) == Success(identity)
    requires Laid(rest, keptRest)
    ensures Laid(ForVehicle(identity) + rest, [entry] + keptRest)
  {
    var r := ForVehicle(identity) + rest;
    var kept := [entry] + keptRest;
    forall k | 0 <= k < |r|
      ensures r[k].key == DescriptionKeys[k % 3] && IdentityOf(kept[k / 3]) == Success(r[k].identity)
    {
      if k >= 3 {
        assert r[k] == rest[k - 3];
        assert (k - 3) % 3 == k % 3 && (k - 3) / 3 == k / 3 - 1;
        assert kept[k / 3] == keptRest[(k - 3) / 3];
      }
    }
  }

  /**
   * Setup creates exactly three binary sensors per kept entry, vehicle by
   * vehicle, each vehicle's in description order, each with that entry's
   * identity.
   */
  lemma {:induction false} SetupShape(entries: seq<Json>)
    requires SetupFrom(entries).Success?
    ensures Laid(SetupFrom(entries).value, KeptEntries(entries))
    decreases |entries|
  {
    if entries != [] {
      SetupShape(entries[1..]);
      var rest := SetupFrom(entries[1..]).value;
      if Kept(entries[0]) {
        LaidCons(entries[0], IdentityOf(entries[0]).value, rest, KeptEntries(entries[1..]));
      } else {
        assert SetupFrom(entries).value == rest;
      }
    }
  }

  /** `_attr_unique_id` (lines 82-84, or the base class's when the vehicle id is falsy). */
  function UniqueId(e: BinarySensorEntity): Option<string> {
    if Truthy(e.identity.vehicleId) then Some("vwgc_" + PyStr(e.identity.plate) + "_" + e.key)
    else e.identity.baseUniqueId
  }

  /** `_attr_suggested_object_id` (line 87); None when it is not set. */
  function SuggestedObjectId(e: BinarySensorEntity): Option<string> {
    if Truthy(e.identity.vehicleId) then Some("vwgc_" + PyStr(e.identity.plate) + "_" + e.key) else None
  }

  /**
   * For a vehicle with a truthy id, both ids are `vwgc_<plate>_<key>`, with
   * the licence plate when it is truthy and the id otherwise.
   */
  lemma IdsFromPlate(vehicle: Json, key: string)
    requires IdentityOf(vehicle).Success?
    requires var id := IdentityOf(vehicle).value.vehicleId; Truthy(id)
    ensures var e := BinarySensorEntity(key, IdentityOf(vehicle).value);
      var record := vehicle.fields["vehicle"].fields;
      var plate := if "licensePlate" in record && Truthy(record["licensePlate"]) then record["licensePlate"] else record["id"];
      && UniqueId(e) == Some("vwgc_" + PyStr(plate) + "_" + key)
      && SuggestedObjectId(e) == UniqueId(e)
  {
  }

  /** `is_on` (lines 89-105). */
  function IsOn(vehicleId: Json, key: string, coordinatorData: Json): Result<bool, Error> {
    if !Truthy(vehicleId) then Success(false)
    else
      var entries :- Envelope.ListedVehicles(coordinatorData);
      var found :- KeyedValue(entries, 0, vehicleId, key);
      Success(found.Some? && Truthy(found.value))
  }

  /** `is_on` is the truthiness of the value in the first vehicle with the id that holds the key. */
  lemma IsOnOfFirstHolder(vehicleId: Json, key: string, coordinatorData: Json, j: nat)
    requires Truthy(vehicleId)
    requires var entries := Envelope.ListedVehicles(coordinatorData);
      && entries.Success? && j < |entries.value|
      && (forall k :: 0 <= k < j ==> Passes(entries.value[k], vehicleId, key))
      && Holds(entries.value[j], vehicleId, key)
    ensures var holder := Envelope.ListedVehicles(coordinatorData).value[j].fields["vehicle"].fields;
      IsOn(vehicleId, key, coordinatorData) == Success(Truthy(holder[key]))
  {
    KeyedValueFirst(Envelope.ListedVehicles(coordinatorData).value, 0, j, vehicleId, key);
  }

  /** With no vehicle holding the key, and no malformed entry on the way, `is_on` is False. */
  lemma IsOnFalseWhenAbsent(vehicleId: Json, key: string, coordinatorData: Json)
    requires var entries := Envelope.ListedVehicles(coordinatorData);
      && entries.Success?
      && forall k :: 0 <= k < |entries.value| ==> Passes(entries.value[k], vehicleId, key)
    ensures IsOn(vehicleId, key, coordinatorData) == Success(false)
  {
    if Truthy(vehicleId) {
      KeyedValueAbsent(Envelope.ListedVehicles(coordinatorData).value, 0, vehicleId, key);
    }
  }
}
