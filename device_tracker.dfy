/**
 * The device-tracker platform (device_tracker.py): one GPS tracker per
 * listed vehicle that reports a position, its ids, and the latitude,
 * longitude and extra attributes it reads from the vehicle's position.
 */
module DeviceTracker {
  import opened Wrappers
  import opened Errors
  import opened PyJson
  import opened Entity
  import Envelope

  /** The filter of line 37: the entry is truthy and its vehicle has a truthy position. */
  function Tracked(entry: Json): Result<bool, Error> {
    if !Truthy(entry) then Success(false)
    else
      var record :- Get(entry, "vehicle", EmptyObj);
      var position :- Get(record, "position", Null);
      Success(Truthy(position))
  }

  /** A tracker as setup creates it. */
  datatype Tracker = Tracker(identity: Identity)

  /** The comprehension of `async_setup_entry` over the listed entries. */
  function SetupFrom(entries: seq<Json>): Result<seq<Tracker>, Error>
    decreases |entries|
  {
    if entries == [] then Success([])
    else
      var tracked :- Tracked(entries[0]);
      var first :- if tracked then (var identity :- IdentityOf(entries[0]); Success([Tracker(identity)]))
                   else Success([]);
      var rest :- SetupFrom(entries[1..]);
      Success(first + rest)
  }

  /** `async_setup_entry` (lines 20-39). */
  function Setup(coordinatorData: Json): Result<seq<Tracker>, Error> {
    var entries :- Envelope.ListedVehicles(coordinatorData);
    SetupFrom(entries)
  }

  /** The entry's vehicle record is a dict with a truthy position. */
  predicate HasPosition(entry: Json) {
    && entry.Obj? && "vehicle" in entry.fields
    && entry.fields["vehicle"].Obj? && "position" in entry.fields["vehicle"].fields
    && Truthy(entry.fields["vehicle"].fields["position"])
  }

  /** The entries with a position, in order. */
  function Positioned(entries: seq<Json>): seq<Json>
    decreases |entries|
  {
    if entries == [] then []
    else (if HasPosition(entries[0]) then [entries[0]] else []) + Positioned(entries[1..])
  }

  /**
   * When setup succeeds there is exactly one tracker per entry with a
   * position, in the order listed, each with that entry's identity.
   */
  lemma {:induction false} SetupShape(entries: seq<Json>)
    requires SetupFrom(entries).Success?
    ensures var r := SetupFrom(entries).value;
      && |r| == |Positioned(entries)|
      && forall k :: 0 <= k < |r| ==> IdentityOf(Positioned(entries)[k]) == Success(r[k].identity)
    decreases |entries|
  {
    if entries != [] {
      SetupShape(entries[1..]);
      assert Tracked(entries[0]) == Success(HasPosition(entries[0]));
      var r := SetupFrom(entries).value;
      var rest := SetupFrom(entries[1..]).value;
      if HasPosition(entries[0]) {
        forall k | 0 <= k < |r|
          ensures IdentityOf(Positioned(entries)[k]) == Success(r[k].identity)
        {
          if k > 0 {
            assert r[k] == rest[k - 1];
            assert Positioned(entries)[k] == Positioned(entries[1..])[k - 1];
          }
        }
      } else {
        assert r == rest;
      }
    }
  }

  /** A dict entry whose vehicle is not a dict, or is None, makes setup raise. */
  lemma {:induction false} NonDictVehicleFailsSetup(entries: seq<Json>, j: nat)
    requires j < |entries| && entries[j].Obj? && "vehicle" in entries[j].fields
    requires !entries[j].fields["vehicle"].Obj?
    ensures SetupFrom(entries) == Failure(Runtime)
    decreases j
  {
    if j > 0 {
      assert entries[1..][j - 1] == entries[j];
      NonDictVehicleFailsSetup(entries[1..], j - 1);
    }
  }

  /** `_attr_unique_id` (line 58, or the base class's when the vehicle id is falsy). */
  function UniqueId(t: Tracker): Option<string> {
    if Truthy(t.identity.vehicleId) then Some("vwgc_" + PyStr(t.identity.plate) + "_tracker")
    else t.identity.baseUniqueId
  }

  /** `_attr_name` (line 59); None when it is not set. */
  function Name(t: Tracker): Option<string> {
    if Truthy(t.identity.vehicleId) then Some("Location") else None
  }

  /** `_attr_suggested_object_id` (line 60); None when it is not set. */
  function SuggestedObjectId(t: Tracker): Option<string> {
    if Truthy(t.identity.vehicleId) then Some("vwgc_" + PyStr(t.identity.plate) + "_location") else None
  }

  /**
   * For a vehicle with a truthy id the tracker is named "Location" and its
   * ids are built from the licence plate when that is truthy, from the id
   * otherwise.
   */
  lemma IdsFromPlate(vehicle: Json)
    requires IdentityOf(vehicle).Success?
    requires Truthy(IdentityOf(vehicle).value.vehicleId)
    ensures var t := Tracker(IdentityOf(vehicle).value);
      var record := vehicle.fields["vehicle"].fields;
      var plate := if "licensePlate" in record && Truthy(record["licensePlate"]) then record["licensePlate"] else record["id"];
      && UniqueId(t) == Some("vwgc_" + PyStr(plate) + "_tracker")
      && SuggestedObjectId(t) == Some("vwgc_" + PyStr(plate) + "_location")
      && Name(t) == Some("Location")
  {
  }

  /** The scan of `_get_vehicle_data` (lines 71-75), from entry `i` on. */
  function FirstVehicle(entries: seq<Json>, i: nat, vehicleId: Json): Result<Option<Json>, Error>
    requires i <= |entries|
    decreases |entries| - i
  {
    if i == |entries| then Success(None)
    else
      var record :- if Truthy(entries[i]) then Get(entries[i], "vehicle", Null) else Success(Null);
      if Truthy(record) then
        var id :- Get(record, "id", Null);
        if PyEq(id, vehicleId) then Success(Some(record)) else FirstVehicle(entries, i + 1, vehicleId)
      else FirstVehicle(entries, i + 1, vehicleId)
  }

  /** `_get_vehicle_data` (lines 62-75). */
  function VehicleData(vehicleId: Json, coordinatorData: Json): Result<Option<Json>, Error> {
    if !Truthy(vehicleId) then Success(None)
    else
      var entries :- Envelope.ListedVehicles(coordinatorData);
      FirstVehicle(entries, 0, vehicleId)
  }

  /** The entry's vehicle is a non-empty dict whose id equals `vehicleId`. */
  predicate IsVehicle(entry: Json, vehicleId: Json) {
    && entry.Obj? && "vehicle" in entry.fields && entry.fields["vehicle"].Obj? && Truthy(entry.fields["vehicle"])
    && PyEq(Field(entry.fields["vehicle"].fields, "id"), vehicleId)
  }

  /** The scan moves past the entry without raising. */
  predicate PassedOver(entry: Json, vehicleId: Json) {
    || !Truthy(entry)
    || (&& entry.Obj?
        && ("vehicle" !in entry.fields || !Truthy(entry.fields["vehicle"])
            || (entry.fields["vehicle"].Obj? && !IsVehicle(entry, vehicleId))))
  }

  /** The scan returns the vehicle of the first entry that matches, when every entry before it is passed over. */
  lemma {:induction false} FirstVehicleFound(entries: seq<Json>, i: nat, j: nat, vehicleId: Json)
    requires i <= j < |entries|
    requires forall k :: i <= k < j ==> PassedOver(entries[k], vehicleId)
    requires IsVehicle(entries[j], vehicleId)
    ensures FirstVehicle(entries, i, vehicleId) == Success(Some(entries[j].fields["vehicle"]))
    decreases j - i
  {
    if i < j {
      assert PassedOver(entries[i], vehicleId);
      FirstVehicleFound(entries, i + 1, j, vehicleId);
    } else {
      assert Truthy(entries[j]);
    }
  }

  /** When every entry is passed over, there is no vehicle data. */
  lemma {:induction false} FirstVehicleAbsent(entries: seq<Json>, i: nat, vehicleId: Json)
    requires i <= |entries|
    requires forall k :: i <= k < |entries| ==> PassedOver(entries[k], vehicleId)
    ensures FirstVehicle(entries, i, vehicleId) == Success(None)
    decreases |entries| - i
  {
    if i < |entries| {
      assert PassedOver(entries[i], vehicleId);
      FirstVehicleAbsent(entries, i + 1, vehicleId);
    }
  }

  /** `vehicle_data.get("position") if vehicle_data else None` (lines 81, 88, 95). */
  function Position(vehicleId: Json, coordinatorData: Json): Result<Json, Error> {
    var data :- VehicleData(vehicleId, coordinatorData);
    if data.Some? && Truthy(data.value) then Get(data.value, "position", Null) else Success(Null)
  }

  /** `latitude` (lines 77-82). */
  function Latitude(vehicleId: Json, coordinatorData: Json): Result<Json, Error> {
    var position :- Position(vehicleId, coordinatorData);
    Success(if position.Obj? then Field(position.fields, "latitude") else Null)
  }

  /** `longitude` (lines 84-89). */
  function Longitude(vehicleId: Json, coordinatorData: Json): Result<Json, Error> {
    var position :- Position(vehicleId, coordinatorData);
    Success(if position.Obj? then Field(position.fields, "longitude") else Null)
  }

  /** `extra_state_attributes` (lines 91-103). */
  function ExtraStateAttributes(vehicleId: Json, coordinatorData: Json): Result<Option<map<string, Json>>, Error> {
    var position :- Position(vehicleId, coordinatorData);
    if !position.Obj? then Success(None)
    else
      var attributes := map["position_id" := Field(position.fields, "id")];
      Success(Some(map k | k in attributes && attributes[k] != Null :: attributes[k]))
  }

  /** Without a vehicle id the tracker has no vehicle data, no coordinates and no attributes. */
  lemma NoIdNoPosition(vehicleId: Json, coordinatorData: Json)
    requires !Truthy(vehicleId)
    ensures VehicleData(vehicleId, coordinatorData) == Success(None)
    ensures Latitude(vehicleId, coordinatorData) == Success(Null)
    ensures Longitude(vehicleId, coordinatorData) == Success(Null)
    ensures ExtraStateAttributes(vehicleId, coordinatorData) == Success(None)
  {
  }

  /**
   * For the first listed vehicle with the tracker's id, the coordinates are
   * those of its position when the position is a dict, None otherwise, and
   * the attributes hold exactly the position's id unless it is absent or None.
   */
  lemma ReadsFirstVehicle(vehicleId: Json, coordinatorData: Json, j: nat)
    requires Truthy(vehicleId)
    requires var entries := Envelope.ListedVehicles(coordinatorData);
      && entries.Success? && j < |entries.value|
      && (forall k :: 0 <= k < j ==> PassedOver(entries.value[k], vehicleId))
      && IsVehicle(entries.value[j], vehicleId)
    ensures var record := Envelope.ListedVehicles(coordinatorData).value[j].fields["vehicle"].fields;
      var position := Field(record, "position");
      && VehicleData(vehicleId, coordinatorData) == Success(Some(Envelope.ListedVehicles(coordinatorData).value[j].fields["vehicle"]))
      && Latitude(vehicleId, coordinatorData) == Success(if position.Obj? then Field(position.fields, "latitude") else Null)
      && Longitude(vehicleId, coordinatorData) == Success(if position.Obj? then Field(position.fields, "longitude") else Null)
      && ExtraStateAttributes(vehicleId, coordinatorData) ==
         Success(if !position.Obj? then None
                 else if Field(position.fields, "id") == Null then Some(map[])
                 else Some(map["position_id" := position.fields["id"]]))
  {
    var entries := Envelope.ListedVehicles(coordinatorData).value;
    FirstVehicleFound(entries, 0, j, vehicleId);
    var record := entries[j].fields["vehicle"];
    var position := Field(record.fields, "position");
    assert Position(vehicleId, coordinatorData) == Success(position);
    if position.Obj? {
      var attributes := map["position_id" := Field(position.fields, "id")];
      var kept := map k | k in attributes && attributes[k] != Null :: attributes[k];
      if Field(position.fields, "id") == Null {
        assert kept == map[];
      } else {
        assert kept == map["position_id" := position.fields["id"]];
      }
    }
  }
}
