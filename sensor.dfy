/**
 * The sensor platform (sensor.py): which sensors setup creates for each
 * listed vehicle, their unique ids, the state each sensor reads from the
 * coordinator's data (flattening nested readings and summarising the
 * charging session, the workshop and the brand contact), and the extra
 * attributes of the three summary sensors, which prefer the dict cached by
 * the last state read.
 */
module Sensor {
  import opened Wrappers
  import opened Errors
  import opened PyJson
  import opened Entity
  import Envelope

  /** The descriptions before the fuel and charge readings. */
  const LeadingKeys: seq<string> := ["id", "fuelType", "licensePlate", "make", "model", "year", "vin", "odometer"]

  /** The fuel and charge readings, whose sensors depend on the fuel type. */
  const ReadingKeys: seq<string> := ["fuelPercentage", "fuelLevel", "chargePercentage"]

  /** The descriptions after the fuel and charge readings. */
  const TrailingKeys: seq<string> := [
    "ignition", "rangeTotalKm", "chargingStatus", "highVoltageBatteryUsableCapacityKwh", "workshop", "brandContactInfo"]

  /** The keys of ENTITY_DESCRIPTIONS, in declaration order (lines 18-116). */
  const DescriptionKeys: seq<string> := LeadingKeys + ReadingKeys + TrailingKeys

  /** The sensors every kept vehicle gets, in the order they are added. */
  const BaseKeys: seq<string> := [
    "id", "fuelType", "licensePlate", "make", "model", "year", "vin", "odometer",
    "ignition", "rangeTotalKm", "chargingStatus", "highVoltageBatteryUsableCapacityKwh",
    "workshop", "brandContactInfo"]

  // ---------------------------------------------------------------------------
  // Setup
  // ---------------------------------------------------------------------------

  /** The keys of `descriptions` that lie in `wanted`, in order: a scan over ENTITY_DESCRIPTIONS. */
  function Matching(descriptions: seq<string>, wanted: set<string>): seq<string>
    decreases |descriptions|
  {
    if descriptions == [] then []
    else (if descriptions[0] in wanted then [descriptions[0]] else []) + Matching(descriptions[1..], wanted)
  }

  /** The fuel or charge sensors (lines 169-191): charge percentage for an electric car, fuel readings otherwise. */
  function FuelKeys(isElectric: bool): seq<string> {
    if isElectric then Matching(DescriptionKeys, {"chargePercentage"})
    else Matching(DescriptionKeys, {"fuelPercentage", "fuelLevel"})
  }

  /**
   * The keys of the sensors created for a kept vehicle record (lines
   * 134-191); the fuel type must be a string, or `.lower()` raises.
   */
  function KeysFor(record: Json): Result<seq<string>, Error> {
    var fuelType :- Get(record, "fuelType", Str(""));
    if !fuelType.Str? then Failure(Runtime)
    else Success(BaseKeys + FuelKeys(Lower(fuelType.s) == "electric"))
  }

  /** An electric vehicle gets the base sensors and charge percentage; any other gets fuel percentage and fuel level. */
  lemma FuelKeysChosen()
    ensures FuelKeys(true) == ["chargePercentage"]
    ensures FuelKeys(false) == ["fuelPercentage", "fuelLevel"]
  {
    MatchingReadings({"chargePercentage"});
    MatchingReadings({"fuelPercentage", "fuelLevel"});
    assert ReadingKeys[1..][1..][1..] == [];
  }

  /** Scanning the descriptions for reading keys finds them among the readings only. */
  lemma MatchingReadings(wanted: set<string>)
    requires wanted <= {"fuelPercentage", "fuelLevel", "chargePercentage"}
    ensures Matching(DescriptionKeys, wanted) == Matching(ReadingKeys, wanted)
  {
    ReadingsOnlyAmongReadingKeys();
    MatchingMiddle(LeadingKeys, ReadingKeys, TrailingKeys, wanted);
  }

  /** When nothing wanted lies in `a` or `c`, scanning `a + b + c` finds what scanning `b` finds. */
  lemma MatchingMiddle(a: seq<string>, b: seq<string>, c: seq<string>, wanted: set<string>)
    requires forall i :: 0 <= i < |a| ==> a[i] !in wanted
    requires forall i :: 0 <= i < |c| ==> c[i] !in wanted
    ensures Matching(a + b + c, wanted) == Matching(b, wanted)
  {
    MatchingAppend(a + b, c, wanted);
    MatchingAppend(a, b, wanted);
    MatchingNone(a, wanted);
    MatchingNone(c, wanted);
    assert [] + Matching(b, wanted) + [] == Matching(b, wanted);
  }

  /** No description outside the readings is a reading key. */
  lemma ReadingsOnlyAmongReadingKeys()
    ensures forall i :: 0 <= i < |LeadingKeys| ==> LeadingKeys[i] !in {"fuelPercentage", "fuelLevel", "chargePercentage"}
    ensures forall i :: 0 <= i < |TrailingKeys| ==> TrailingKeys[i] !in {"fuelPercentage", "fuelLevel", "chargePercentage"}
  {
  }

  lemma {:induction false} MatchingAppend(a: seq<string>, b: seq<string>, wanted: set<string>)
    ensures Matching(a + b, wanted) == Matching(a, wanted) + Matching(b, wanted)
    decreases |a|
  {
    if a != [] {
      assert (a + b)[1..] == a[1..] + b;
      MatchingAppend(a[1..], b, wanted);
    } else {
      assert a + b == b;
    }
  }

  lemma {:induction false} MatchingNone(a: seq<string>, wanted: set<string>)
    requires forall i :: 0 <= i < |a| ==> a[i] !in wanted
    ensures Matching(a, wanted) == []
    decreases |a|
  {
    if a != [] {
      MatchingNone(a[1..], wanted);
    }
  }

  /** No key repeats in `keys`. */
  predicate Distinct(keys: seq<string>) {
    forall i, j :: 0 <= i < j < |keys| ==> keys[i] != keys[j]
  }

  /** Both key lists setup can choose are free of repeats and name descriptions only. */
  lemma ChosenKeysDescribed()
    ensures Distinct(BaseKeys + ["chargePercentage"]) && Distinct(BaseKeys + ["fuelPercentage", "fuelLevel"])
    ensures forall k :: k in BaseKeys + ["fuelPercentage", "fuelLevel", "chargePercentage"] ==> k in DescriptionKeys
  {
  }

  /**
   * A vehicle gets 15 sensors when its fuel type reads "electric" in any
   * case, 16 otherwise; every key names a description and no key repeats.
   */
  lemma KeysShape(record: Json)
    requires KeysFor(record).Success?
    ensures var keys := KeysFor(record).value;
      var electric := Lower(Get(record, "fuelType", Str("")).value.s) == "electric";
      && keys == BaseKeys + (if electric then ["chargePercentage"] else ["fuelPercentage", "fuelLevel"])
      && |keys| == (if electric then 15 else 16)
      && (forall i :: 0 <= i < |keys| ==> keys[i] in DescriptionKeys)
      && Distinct(keys)
  {
    FuelKeysChosen();
    ChosenKeysDescribed();
    var keys := KeysFor(record).value;
    forall i | 0 <= i < |keys|
      ensures keys[i] in DescriptionKeys
    {
      assert keys[i] in BaseKeys + ["fuelPercentage", "fuelLevel", "chargePercentage"];
    }
  }

  /** A sensor as setup creates it: its description's key and the identity of its vehicle. */
  datatype NewSensor = NewSensor(key: string, identity: Identity)

  /** One sensor per key, all for the same vehicle. */
  function SensorsFor(keys: seq<string>, identity: Identity): seq<NewSensor> {
    seq(|keys|, i requires 0 <= i < |keys| => NewSensor(keys[i], identity))
  }

  /** The sensors created for one listed entry (lines 131-191). */
  function EntitiesOf(entry: Json): Result<seq<NewSensor>, Error> {
    if !Truthy(entry) then Success([])
    else
      var record :- Get(entry, "vehicle", Null);
      if !Truthy(record) then Success([])
      else
        var keys :- KeysFor(record);
        var identity :- IdentityOf(entry);
        Success(SensorsFor(keys, identity))
  }

  /** The sensors created for the listed entries, in order; the first entry that raises decides the error. */
  function SetupFrom(entries: seq<Json>): Result<seq<NewSensor>, Error>
    decreases |entries|
  {
    if entries == [] then Success([])
    else
      var before :- SetupFrom(entries[..|entries| - 1]);
      var last :- EntitiesOf(entries[|entries| - 1]);
      Success(before + last)
  }

  /** The sensors `async_setup_entry` adds for the coordinator's data. */
  function SetupOf(coordinatorData: Json): Result<seq<NewSensor>, Error> {
    var entries :- Envelope.ListedVehicles(coordinatorData);
    SetupFrom(entries)
  }

  /** `async_setup_entry` (lines 119-193): the loop over the listed entries. */
  method Setup(coordinatorData: Json) returns (r: Result<seq<NewSensor>, Error>)
    ensures r == SetupOf(coordinatorData)
  {
    var listed := Envelope.ListedVehicles(coordinatorData);
    if listed.Failure? {
      return Failure(listed.error);
    }
    var entries := listed.value;
    var entities: seq<NewSensor> := [];
    var i := 0;
    while i < |entries|
      invariant i <= |entries|
      invariant SetupFrom(entries[..i]) == Success(entities)
    {
      SetupStep(entries, i);
      var added := AddVehicle(entities, entries[i]);
      if added.Failure? {
        SetupFailsAfter(entries, i + 1);
        return Failure(added.error);
      }
      entities := added.value;
      i := i + 1;
    }
    assert entries[..i] == entries;
    return Success(entities);
  }

  /** One pass of the setup loop (lines 131-191): appends the entry's sensors to `entities`. */
  method AddVehicle(entities: seq<NewSensor>, vehicle: Json) returns (r: Result<seq<NewSensor>, Error>)
    ensures r == (var added :- EntitiesOf(vehicle); Success(entities + added))
  {
    if !Truthy(vehicle) {
      assert entities + [] == entities;
      return Success(entities);
    }
    var record := Get(vehicle, "vehicle", Null);
    if record.Failure? {
      return Failure(record.error);
    }
    if !Truthy(record.value) {
      assert entities + [] == entities;
      return Success(entities);
    }
    var keys := KeysFor(record.value);
    if keys.Failure? {
      return Failure(keys.error);
    }
    var identity := IdentityOf(vehicle);
    if identity.Failure? {
      return Failure(identity.error);
    }
    var current := entities;
    var j := 0;
    while j < |keys.value|
      invariant j <= |keys.value|
      invariant current == entities + SensorsFor(keys.value[..j], identity.value)
    {
      assert keys.value[..j + 1] == keys.value[..j] + [keys.value[j]];
      current := current + [NewSensor(keys.value[j], identity.value)];
      j := j + 1;
    }
    assert keys.value[..j] == keys.value;
    return Success(current);
  }

  /** Setup over one more entry: the sensors so far, then that entry's. */
  lemma SetupStep(entries: seq<Json>, i: nat)
    requires i < |entries|
    ensures SetupFrom(entries[..i + 1]) ==
      (var before :- SetupFrom(entries[..i]);
       var last :- EntitiesOf(entries[i]);
       Success(before + last))
  {
    assert entries[..i + 1][..i] == entries[..i];
  }

  /** Once a prefix of the entries fails, so does every longer prefix. */
  lemma {:induction false} SetupFailsAfter(entries: seq<Json>, n: nat)
    requires 0 < n <= |entries|
    requires SetupFrom(entries[..n]).Failure?
    ensures SetupFrom(entries) == SetupFrom(entries[..n])
    decreases |entries| - n
  {
    if n < |entries| {
      assert entries[..n + 1][..n] == entries[..n];
      SetupFailsAfter(entries, n + 1);
    } else {
      assert entries[..n] == entries;
    }
  }

  /** One entry gives 15 or 16 described sensors when it is kept, none otherwise. */
  lemma EntitiesCount(entry: Json)
    requires EntitiesOf(entry).Success?
    ensures var r := EntitiesOf(entry).value;
      && (if Kept(entry) then 15 <= |r| <= 16 else r == [])
      && forall k :: 0 <= k < |r| ==> r[k].key in DescriptionKeys
  {
    if Kept(entry) {
      KeysShape(entry.fields["vehicle"]);
    }
  }

  /**
   * Setup creates between 15 and 16 sensors per kept entry and none for any
   * other entry; every sensor's key names a description.
   */
  lemma {:induction false} SetupCount(entries: seq<Json>)
    requires SetupFrom(entries).Success?
    ensures var r := SetupFrom(entries).value;
      && 15 * |KeptEntries(entries)| <= |r| <= 16 * |KeptEntries(entries)|
      && forall k :: 0 <= k < |r| ==> r[k].key in DescriptionKeys
    decreases |entries|
  {
    if entries != [] {
      var n := |entries| - 1;
      var init := entries[..n];
      var e := entries[n];
      assert SetupFrom(init).Success? && EntitiesOf(e).Success?;
      var before := SetupFrom(init).value;
      var last := EntitiesOf(e).value;
      assert SetupFrom(entries).value == before + last;
      SetupCount(init);
      EntitiesCount(e);
      assert init + [e] == entries;
      KeptEntriesSnoc(init, e);
      assert |KeptEntries(entries)| == |KeptEntries(init)| + (if Kept(e) then 1 else 0);
      DescribedConcat(before, last);
    }
  }

  /** The sensors of one kept entry: one per key chosen for its record, all with the entry's identity. */
  function SensorsOfKept(entry: Json): seq<NewSensor> {
    if !Kept(entry) then []
    else
      var keys := KeysFor(entry.fields["vehicle"]);
      var identity := IdentityOf(entry);
      if keys.Success? && identity.Success? then SensorsFor(keys.value, identity.value) else []
  }

  /** The sensors of the kept entries, entry after entry. */
  function SensorsOfAll(kept: seq<Json>): seq<NewSensor>
    decreases |kept|
  {
    if kept == [] then [] else SensorsOfAll(kept[..|kept| - 1]) + SensorsOfKept(kept[|kept| - 1])
  }

  /** A successful entry gives exactly the sensors of its record when it is kept, and none otherwise. */
  lemma EntitiesOfShape(entry: Json)
    requires EntitiesOf(entry).Success?
    ensures EntitiesOf(entry).value == SensorsOfKept(entry)
    ensures Kept(entry) ==> KeysFor(entry.fields["vehicle"]).Success? && IdentityOf(entry).Success?
  {
  }

  /** The sensors of one more kept entry come after those of the entries before it. */
  lemma SensorsOfAllSnoc(kept: seq<Json>, e: Json)
    ensures SensorsOfAll(kept + [e]) == SensorsOfAll(kept) + SensorsOfKept(e)
  {
    assert (kept + [e])[..|kept|] == kept;
  }

  /**
   * Setup adds, for each kept entry in order, one sensor per key chosen for
   * its record, carrying that entry's identity, and nothing for any other entry.
   */
  lemma {:induction false} SetupShape(entries: seq<Json>)
    requires SetupFrom(entries).Success?
    ensures SetupFrom(entries).value == SensorsOfAll(KeptEntries(entries))
    decreases |entries|
  {
    if entries != [] {
      var n := |entries| - 1;
      var init := entries[..n];
      var e := entries[n];
      assert init + [e] == entries;
      assert SetupFrom(init).Success? && EntitiesOf(e).Success?;
      var before := SetupFrom(init).value;
      var last := EntitiesOf(e).value;
      assert SetupFrom(entries).value == before + last;
      SetupShape(init);
      EntitiesOfShape(e);
      KeptEntriesSnoc(init, e);
      if Kept(e) {
        SensorsOfAllSnoc(KeptEntries(init), e);
      } else {
        assert KeptEntries(entries) == KeptEntries(init) + [] == KeptEntries(init);
        assert last == [];
        assert before + last == before;
      }
    }
  }

  lemma DescribedConcat(before: seq<NewSensor>, last: seq<NewSensor>)
    requires forall k :: 0 <= k < |before| ==> before[k].key in DescriptionKeys
    requires forall k :: 0 <= k < |last| ==> last[k].key in DescriptionKeys
    ensures forall k :: 0 <= k < |before + last| ==> (before + last)[k].key in DescriptionKeys
  {
  }

  lemma {:induction false} KeptEntriesSnoc(entries: seq<Json>, e: Json)
    ensures KeptEntries(entries + [e]) == KeptEntries(entries) + (if Kept(e) then [e] else [])
    decreases |entries|
  {
    if entries != [] {
      assert (entries + [e])[1..] == entries[1..] + [e];
      KeptEntriesSnoc(entries[1..], e);
    } else {
      assert [e][1..] == [];
    }
  }

  /** `_attr_unique_id` (line 216, or the base class's when the vehicle id is falsy). */
  function UniqueId(s: NewSensor): Option<string> {
    if Truthy(s.identity.vehicleId) then Some(PyStr(s.identity.vehicleId) + "_" + s.key)
    else s.identity.baseUniqueId
  }

  /** Two sensors of one vehicle with a truthy id and different keys have different unique ids. */
  lemma UniqueIdsDistinct(identity: Identity, key1: string, key2: string)
    requires Truthy(identity.vehicleId) && key1 != key2
    ensures UniqueId(NewSensor(key1, identity)) != UniqueId(NewSensor(key2, identity))
  {
    var prefix := PyStr(identity.vehicleId) + "_";
    assert (prefix + key1)[|prefix|..] == key1;
    assert (prefix + key2)[|prefix|..] == key2;
  }

  // ---------------------------------------------------------------------------
  // State
  // ---------------------------------------------------------------------------

  /** The field holding the reading of a nested value, for the keys whose value is a dict of one reading. */
  function SubField(key: string): Option<string> {
    if key == "fuelPercentage" then Some("percent")
    else if key == "fuelLevel" then Some("liter")
    else if key == "chargePercentage" then Some("pct")
    else if key == "odometer" then Some("odometer")
    else if key == "ignition" then Some("on")
    else if key == "rangeTotalKm" then Some("km")
    else if key == "highVoltageBatteryUsableCapacityKwh" then Some("kwh")
    else None
  }

  /** The keys whose dict value native_value caches for the attributes. */
  predicate IsSummary(key: string) {
    key == "chargingStatus" || key == "workshop" || key == "brandContactInfo"
  }

  /** `value.get(field, "Available") if value else "Not Available"`. */
  function Summary(m: map<string, Json>, field: string): Json {
    if m == map[] then Str("Not Available")
    else if field in m then m[field] else Str("Available")
  }

  /** The state a vehicle's value for `key` gives (lines 231-276). */
  function Reading(key: string, value: Json): Json {
    if !value.Obj? then value
    else if SubField(key).Some? && SubField(key).value in value.fields then value.fields[SubField(key).value]
    else if key == "chargingStatus" then
      Str(if Truthy(Field(value.fields, "startTime")) && !Truthy(Field(value.fields, "endedAt")) then "Charging"
          else "Not Charging")
    else if key == "workshop" then Summary(value.fields, "name")
    else if key == "brandContactInfo" then Summary(value.fields, "roadsideAssistanceName")
    else value
  }

  /** A value that is not a dict is the state as it is. */
  lemma ReadingOfPlainValue(key: string, value: Json)
    requires !value.Obj?
    ensures Reading(key, value) == value
  {
  }

  /**
   * A dict is flattened to its reading field when it has one; a dict without
   * it, under any key other than the three summaries, is the state as it is.
   */
  lemma ReadingOfNested(key: string, m: map<string, Json>)
    ensures SubField(key).Some? && SubField(key).value in m ==> Reading(key, Obj(m)) == m[SubField(key).value]
    ensures !IsSummary(key) && (SubField(key).None? || SubField(key).value !in m) ==> Reading(key, Obj(m)) == Obj(m)
  {
  }

  /**
   * The charging status reads "Charging" exactly when the session has a
   * truthy start and no truthy end, and "Not Charging" otherwise.
   */
  lemma ChargingIff(m: map<string, Json>)
    ensures Reading("chargingStatus", Obj(m)) == Str("Charging")
            <==> Truthy(Field(m, "startTime")) && !Truthy(Field(m, "endedAt"))
    ensures Reading("chargingStatus", Obj(m)) in {Str("Charging"), Str("Not Charging")}
  {
  }

  /**
   * An empty workshop or brand contact reads "Not Available"; a non-empty
   * one reads its name, or "Available" when it has none.
   */
  lemma SummaryReadings(m: map<string, Json>)
    ensures m == map[] ==> Reading("workshop", Obj(m)) == Str("Not Available")
                           && Reading("brandContactInfo", Obj(m)) == Str("Not Available")
    ensures m != map[] ==> Reading("workshop", Obj(m)) == (if "name" in m then m["name"] else Str("Available"))
    ensures m != map[] ==> Reading("brandContactInfo", Obj(m)) ==
                           (if "roadsideAssistanceName" in m then m["roadsideAssistanceName"] else Str("Available"))
  {
  }

  /** `native_value` (lines 218-278), without its caching. */
  function NativeValueOf(vehicleId: Json, key: string, coordinatorData: Json): Result<Json, Error> {
    if Truthy(vehicleId) then
      var entries :- Envelope.ListedVehicles(coordinatorData);
      var found :- KeyedValue(entries, 0, vehicleId, key);
      Success(if found.Some? then Reading(key, found.value) else Null)
    else Get(coordinatorData, "body", Null)
  }

  /** The dict that `native_value` caches for a summary sensor, if it finds one. */
  function Stored(vehicleId: Json, key: string, coordinatorData: Json): Option<Json> {
    if !Truthy(vehicleId) || !IsSummary(key) then None
    else
      var entries := Envelope.ListedVehicles(coordinatorData);
      if entries.Failure? then None
      else
        var found := KeyedValue(entries.value, 0, vehicleId, key);
        if found.Success? && found.value.Some? && found.value.value.Obj? then Some(found.value.value) else None
  }

  /** The state is the reading of the value in the first vehicle with the sensor's id that holds the key. */
  lemma NativeValueOfFirstHolder(vehicleId: Json, key: string, coordinatorData: Json, j: nat)
    requires Truthy(vehicleId)
    requires var entries := Envelope.ListedVehicles(coordinatorData);
      && entries.Success? && j < |entries.value|
      && (forall k :: 0 <= k < j ==> Passes(entries.value[k], vehicleId, key))
      && Holds(entries.value[j], vehicleId, key)
    ensures var holder := Envelope.ListedVehicles(coordinatorData).value[j].fields["vehicle"].fields;
      && NativeValueOf(vehicleId, key, coordinatorData) == Success(Reading(key, holder[key]))
      && (IsSummary(key) && holder[key].Obj? ==> Stored(vehicleId, key, coordinatorData) == Some(holder[key]))
  {
    KeyedValueFirst(Envelope.ListedVehicles(coordinatorData).value, 0, j, vehicleId, key);
  }

  /** With no vehicle holding the key, and no malformed entry on the way, the state is None and nothing is cached. */
  lemma NativeValueAbsent(vehicleId: Json, key: string, coordinatorData: Json)
    requires Truthy(vehicleId)
    requires var entries := Envelope.ListedVehicles(coordinatorData);
      && entries.Success?
      && forall k :: 0 <= k < |entries.value| ==> Passes(entries.value[k], vehicleId, key)
    ensures NativeValueOf(vehicleId, key, coordinatorData) == Success(Null)
    ensures Stored(vehicleId, key, coordinatorData) == None
  {
    KeyedValueAbsent(Envelope.ListedVehicles(coordinatorData).value, 0, vehicleId, key);
  }

  // ---------------------------------------------------------------------------
  // Extra state attributes
  // ---------------------------------------------------------------------------

  /** The workshop attributes copied from the workshop dict: attribute name to source field (lines 304-315). */
  const WorkshopSources: map<string, string> := map[
    "id" := "id", "number" := "number", "name" := "name", "address" := "address",
    "zip" := "zip", "city" := "city", "phone" := "phone",
    "emergency_contact_phone" := "emergencyContactPhoneNumber",
    "latitude" := "latitude", "longitude" := "longitude", "brand" := "brand",
    "mobile_booking_url" := "mobileBookingUrl"]

  /** The brand contact attributes (lines 350-362). */
  const BrandSources: map<string, string> := map[
    "webshop_url" := "webshopUrl", "webshop_name" := "webshopName",
    "roadside_assistance_phone" := "roadsideAssistancePhoneNumber",
    "roadside_assistance_name" := "roadsideAssistanceName",
    "roadside_assistance_url" := "roadsideAssistanceUrl",
    "roadside_emergency_assistance_url" := "roadsideEmergencyAssistanceUrl",
    "roadside_assistance_paid" := "roadsideAssistancePaid"]

  /** The charging session attributes before filtering (lines 382-396). */
  const ChargingSources: map<string, string> := map[
    "start_charge_percentage" := "startChargePercentage", "start_time" := "startTime",
    "ended_at" := "endedAt", "charged_percentage" := "chargedPercentage",
    "average_charge_speed" := "averageChargeSpeed", "charge_in_kwh_increase" := "chargeInKwhIncrease",
    "range_increase" := "rangeIncrease", "time_until_80_percent_charge" := "timeUntil80PercentCharge",
    "show_summary_for_charge_ended" := "showSummaryForChargeEnded"]

  /** Each attribute of `sources` with `data.get` of its source field. */
  function Renamed(m: map<string, Json>, sources: map<string, string>): map<string, Json> {
    map k | k in sources :: Field(m, sources[k])
  }

  /** `data.get("timeZone", {}).get("offset") if data.get("timeZone") else None` (lines 316-320). */
  function TimezoneOffset(m: map<string, Json>): Result<Json, Error> {
    var timeZone := Field(m, "timeZone");
    if Truthy(timeZone) then Get(timeZone, "offset", Null) else Success(Null)
  }

  const HoursPrefix: string := "opening_hours_"

  /** The attribute for the opening time of a day. */
  function FromKey(day: string): string {
    HoursPrefix + day + "_from"
  }

  /** The attribute for the closing time of a day. */
  function ToKey(day: string): string {
    HoursPrefix + day + "_to"
  }

  /** An attribute name the opening-hours loop may write. */
  predicate IsHoursKey(k: string) {
    |k| >= |HoursPrefix| && k[..|HoursPrefix|] == HoursPrefix
  }

  /** One pass of the opening-hours loop (lines 326-329); a day that is not a string cannot be lowered. */
  function OpeningHours(attributes: map<string, Json>, hours: Json): Result<map<string, Json>, Error> {
    if !hours.Obj? then Success(attributes)
    else
      var day :- Get(hours, "day", Str(""));
      if !day.Str? then Failure(Runtime)
      else
        var d := Lower(day.s);
        Success(attributes[FromKey(d) := Field(hours.fields, "from")][ToKey(d) := Field(hours.fields, "to")])
  }

  /** The opening-hours loop over `hours`, in order (lines 325-329). */
  function WithOpeningHours(attributes: map<string, Json>, hours: seq<Json>): Result<map<string, Json>, Error>
    decreases |hours|
  {
    if hours == [] then Success(attributes)
    else
      var before :- WithOpeningHours(attributes, hours[..|hours| - 1]);
      OpeningHours(before, hours[|hours| - 1])
  }

  /** The workshop attributes (lines 303-330). */
  function WorkshopAttributes(m: map<string, Json>): Result<map<string, Json>, Error> {
    var offset :- TimezoneOffset(m);
    var attributes := Renamed(m, WorkshopSources)["timezone_offset" := offset];
    var openingHours := Field(m, "openingHours");
    if Truthy(openingHours) && openingHours.Arr? then WithOpeningHours(attributes, openingHours.items)
    else Success(attributes)
  }

  /** The charging attributes that are not None, or None when none is left (lines 381-401). */
  function ChargingAttributes(m: map<string, Json>): Option<map<string, Json>> {
    var attributes := Renamed(m, ChargingSources);
    var present := map k | k in attributes && attributes[k] != Null :: attributes[k];
    if present == map[] then None else Some(present)
  }

  /**
   * The first vehicle, from entry `i` on, whose id equals `vehicleId`, as
   * `v and v.get("vehicle", {}).get("id") == vehicle_id` finds it; its
   * `field`, or None when no vehicle matches (lines 297-300).
   */
  function Located(entries: seq<Json>, i: nat, vehicleId: Json, field: string): Result<Option<Json>, Error>
    requires i <= |entries|
    decreases |entries| - i
  {
    if i == |entries| then Success(None)
    else if !Truthy(entries[i]) then Located(entries, i + 1, vehicleId, field)
    else
      var record :- Get(entries[i], "vehicle", EmptyObj);
      var id :- Get(record, "id", Null);
      if PyEq(id, vehicleId) then
        var data :- Get(record, field, Null);
        Success(Some(data))
      else Located(entries, i + 1, vehicleId, field)
  }

  /** The dict the attributes come from: the cached one when truthy, else the one looked up (lines 287-300). */
  function AttributeData(cached: Json, vehicleId: Json, field: string, coordinatorData: Json): Result<Json, Error> {
    if !Truthy(cached) && Truthy(vehicleId) then
      var entries :- Envelope.ListedVehicles(coordinatorData);
      var located :- Located(entries, 0, vehicleId, field);
      Success(if located.Some? then located.value else cached)
    else Success(cached)
  }

  /** `extra_state_attributes` (lines 280-403), given the cache slot of the sensor's key. */
  function ExtraStateAttributesOf(key: string, cached: Json, vehicleId: Json, coordinatorData: Json)
    : Result<Option<map<string, Json>>, Error>
  {
    if !IsSummary(key) then Success(None)
    else
      var data :- AttributeData(cached, vehicleId, key, coordinatorData);
      if !Truthy(data) || !data.Obj? then Success(None)
      else if key == "workshop" then
        var attributes :- WorkshopAttributes(data.fields);
        Success(Some(attributes))
      else if key == "brandContactInfo" then Success(Some(Renamed(data.fields, BrandSources)))
      else Success(ChargingAttributes(data.fields))
  }

  /**
   * A sensor without a vehicle id reads the state from the coordinator's
   * `body`, and without a cached dict it has no attributes either.
   */
  lemma NoVehicleIdState(key: string, cached: Json, vehicleId: Json, coordinatorData: Json)
    requires !Truthy(vehicleId)
    ensures NativeValueOf(vehicleId, key, coordinatorData) == Get(coordinatorData, "body", Null)
    ensures Stored(vehicleId, key, coordinatorData) == None
    ensures !Truthy(cached) ==> ExtraStateAttributesOf(key, cached, vehicleId, coordinatorData) == Success(None)
  {
  }

  /**
   * A summary sensor whose data (cached or looked up) is None, empty or not
   * a dict has no attributes; a failed lookup fails them with its error.
   */
  lemma NoDataNoAttributes(key: string, cached: Json, vehicleId: Json, coordinatorData: Json)
    ensures var d := AttributeData(cached, vehicleId, key, coordinatorData);
      && (d.Success? && (!Truthy(d.value) || !d.value.Obj?) ==>
            ExtraStateAttributesOf(key, cached, vehicleId, coordinatorData) == Success(None))
      && (IsSummary(key) && d.Failure? ==>
            ExtraStateAttributesOf(key, cached, vehicleId, coordinatorData) == Failure(d.error))
  {
  }

  /** Only the three summary sensors have attributes. */
  lemma OnlySummariesHaveAttributes(key: string, cached: Json, vehicleId: Json, coordinatorData: Json)
    requires !IsSummary(key)
    ensures ExtraStateAttributesOf(key, cached, vehicleId, coordinatorData) == Success(None)
  {
  }

  /** A truthy cached dict decides the attributes, whatever the coordinator holds now. */
  lemma CacheTakesPrecedence(key: string, cached: Json, vehicleId: Json, data1: Json, data2: Json)
    requires Truthy(cached)
    ensures ExtraStateAttributesOf(key, cached, vehicleId, data1) == ExtraStateAttributesOf(key, cached, vehicleId, data2)
  {
  }

  /** The lookup finds the first vehicle with the id, when every truthy entry before it is a dict whose vehicle is a dict with another id. */
  lemma {:induction false} LocatedFirst(entries: seq<Json>, i: nat, j: nat, vehicleId: Json, field: string)
    requires i <= j < |entries|
    requires forall k :: i <= k < j ==> LookedPast(entries[k], vehicleId)
    requires LookedUp(entries[j], vehicleId)
    ensures Located(entries, i, vehicleId, field) == Success(Some(Field(RecordOf(entries[j]), field)))
    decreases j - i
  {
    if i < j {
      assert LookedPast(entries[i], vehicleId);
      LocatedFirst(entries, i + 1, j, vehicleId, field);
    }
  }

  /** The entry's `.get("vehicle", {})`, for a dict entry. */
  function RecordOf(entry: Json): map<string, Json>
    requires entry.Obj?
  {
    var record := Field(entry.fields, "vehicle");
    if "vehicle" !in entry.fields then map[] else if record.Obj? then record.fields else map[]
  }

  /** The lookup matches the entry: a dict whose vehicle is a dict (or missing) with the id. */
  predicate LookedUp(entry: Json, vehicleId: Json) {
    && entry.Obj? && entry.fields != map[]
    && ("vehicle" !in entry.fields || entry.fields["vehicle"].Obj?)
    && PyEq(Field(RecordOf(entry), "id"), vehicleId)
  }

  /** The lookup moves past the entry without raising. */
  predicate LookedPast(entry: Json, vehicleId: Json) {
    || !Truthy(entry)
    || (&& entry.Obj?
        && ("vehicle" !in entry.fields || entry.fields["vehicle"].Obj?)
        && !PyEq(Field(RecordOf(entry), "id"), vehicleId))
  }

  /**
   * The workshop attributes always hold the twelve copied fields and the
   * time-zone offset; every other attribute is an opening-hours one.
   */
  lemma WorkshopAttributesShape(m: map<string, Json>)
    requires WorkshopAttributes(m).Success?
    ensures var r := WorkshopAttributes(m).value;
      && (forall k :: k in WorkshopSources ==> k in r && r[k] == Field(m, WorkshopSources[k]))
      && "timezone_offset" in r && r["timezone_offset"] == TimezoneOffset(m).value
      && forall k :: k in r ==> k in WorkshopSources || k == "timezone_offset" || IsHoursKey(k)
  {
    var offset := TimezoneOffset(m).value;
    var openingHours := Field(m, "openingHours");
    WorkshopKeysAreNotHours();
    if Truthy(openingHours) && openingHours.Arr? {
      CopiedThenHours(m, WorkshopSources, offset, openingHours.items);
    }
  }

  /** The copied fields and the offset survive the opening-hours loop, which adds only opening-hours attributes. */
  lemma CopiedThenHours(m: map<string, Json>, sources: map<string, string>, offset: Json, hours: seq<Json>)
    requires forall k :: k in sources ==> !IsHoursKey(k)
    requires !IsHoursKey("timezone_offset") && "timezone_offset" !in sources
    requires WithOpeningHours(Renamed(m, sources)["timezone_offset" := offset], hours).Success?
    ensures var r := WithOpeningHours(Renamed(m, sources)["timezone_offset" := offset], hours).value;
      && (forall k :: k in sources ==> k in r && r[k] == Field(m, sources[k]))
      && "timezone_offset" in r && r["timezone_offset"] == offset
      && forall k :: k in r ==> k in sources || k == "timezone_offset" || IsHoursKey(k)
  {
    var attributes := Renamed(m, sources)["timezone_offset" := offset];
    assert forall k :: k in sources ==> k in attributes && attributes[k] == Field(m, sources[k]);
    WithOpeningHoursKeeps(attributes, hours);
  }

  /** No copied workshop attribute is an opening-hours attribute. */
  lemma WorkshopKeysAreNotHours()
    ensures forall k :: k in WorkshopSources ==> !IsHoursKey(k)
    ensures !IsHoursKey("timezone_offset")
  {
    forall k | k in WorkshopSources
      ensures !IsHoursKey(k)
    {
      if |k| >= |HoursPrefix| {
        assert k[0] != 'o' by {
          assert k in {"id", "number", "name", "address", "zip", "city", "phone", "emergency_contact_phone",
                       "latitude", "longitude", "brand", "mobile_booking_url"};
        }
        assert k[..|HoursPrefix|][0] == k[0];
      }
    }
    assert "timezone_offset"[..|HoursPrefix|][0] == 't';
  }

  /** The opening-hours loop keeps every attribute that is not an opening-hours one and adds only opening-hours ones. */
  lemma {:induction false} WithOpeningHoursKeeps(attributes: map<string, Json>, hours: seq<Json>)
    requires WithOpeningHours(attributes, hours).Success?
    ensures var r := WithOpeningHours(attributes, hours).value;
      && (forall k :: k in attributes && !IsHoursKey(k) ==> k in r && r[k] == attributes[k])
      && forall k :: k in r ==> k in attributes || IsHoursKey(k)
    decreases |hours|
  {
    if hours != [] {
      WithOpeningHoursKeeps(attributes, hours[..|hours| - 1]);
      var h := hours[|hours| - 1];
      if h.Obj? {
        var d := Lower(Get(h, "day", Str("")).value.s);
        HoursKeys(d);
      }
    }
  }

  /** Both keys written for a day are opening-hours attributes. */
  lemma HoursKeys(day: string)
    ensures IsHoursKey(FromKey(day)) && IsHoursKey(ToKey(day))
  {
    assert FromKey(day)[..|HoursPrefix|] == HoursPrefix;
    assert ToKey(day)[..|HoursPrefix|] == HoursPrefix;
  }

  /** The lowered day an opening-hours entry names, when it is a dict whose day is a string. */
  function DayOf(hours: Json): Option<string> {
    if hours.Obj? && Get(hours, "day", Str("")).value.Str? then Some(Lower(Get(hours, "day", Str("")).value.s))
    else None
  }

  /** The opening and closing times of a day are those of the last entry for that day. */
  lemma {:induction false} LastEntryForDayWins(attributes: map<string, Json>, hours: seq<Json>, j: nat)
    requires WithOpeningHours(attributes, hours).Success?
    requires j < |hours| && DayOf(hours[j]).Some?
    requires forall k :: j < k < |hours| ==> DayOf(hours[k]) != DayOf(hours[j])
    ensures var r := WithOpeningHours(attributes, hours).value;
      var day := DayOf(hours[j]).value;
      && FromKey(day) in r && r[FromKey(day)] == Field(hours[j].fields, "from")
      && ToKey(day) in r && r[ToKey(day)] == Field(hours[j].fields, "to")
    decreases |hours|
  {
    var n := |hours| - 1;
    var day := DayOf(hours[j]).value;
    if j < n {
      assert hours[..n][j] == hours[j];
      LastEntryForDayWins(attributes, hours[..n], j);
      var h := hours[n];
      if h.Obj? {
        var d := DayOf(h).value;
        assert d != day;
        HoursKeysDistinct(day, d);
      }
    } else {
      HoursKeysDistinct(day, day);
    }
  }

  /** Different days write different attributes, and a day's two attributes differ. */
  lemma HoursKeysDistinct(day1: string, day2: string)
    ensures FromKey(day1) != ToKey(day2)
    ensures day1 != day2 ==> FromKey(day1) != FromKey(day2) && ToKey(day1) != ToKey(day2) && ToKey(day1) != FromKey(day2)
  {
    var f1, t2 := FromKey(day1), ToKey(day2);
    assert f1[|f1| - 1] == 'm' && t2[|t2| - 1] == 'o';
    var t1, f2 := ToKey(day1), FromKey(day2);
    assert t1[|t1| - 1] == 'o' && f2[|f2| - 1] == 'm';
    if day1 != day2 {
      assert f1[|HoursPrefix|..|HoursPrefix| + |day1|] == day1;
      assert f2[|HoursPrefix|..|HoursPrefix| + |day2|] == day2;
      assert t1[|HoursPrefix|..|HoursPrefix| + |day1|] == day1;
      assert t2[|HoursPrefix|..|HoursPrefix| + |day2|] == day2;
    }
  }

  /** The brand attributes are exactly the seven copied fields. */
  lemma BrandAttributesShape(m: map<string, Json>)
    ensures var r := Renamed(m, BrandSources);
      && r.Keys == BrandSources.Keys
      && forall k :: k in BrandSources ==> r[k] == Field(m, BrandSources[k])
  {
  }

  /**
   * The charging attributes keep exactly the fields that are not None (so a
   * zero or False reading is kept), and there are none when every field is
   * None.
   */
  lemma ChargingAttributesShape(m: map<string, Json>)
    ensures ChargingAttributes(m).None? <==> forall k :: k in ChargingSources ==> Field(m, ChargingSources[k]) == Null
    ensures ChargingAttributes(m).Some? ==>
      var r := ChargingAttributes(m).value;
      && (forall k :: k in r <==> k in ChargingSources && Field(m, ChargingSources[k]) != Null)
      && forall k :: k in r ==> r[k] == Field(m, ChargingSources[k])
  {
    var attributes := Renamed(m, ChargingSources);
    var present := map k | k in attributes && attributes[k] != Null :: attributes[k];
    if present == map[] {
      forall k | k in ChargingSources
        ensures Field(m, ChargingSources[k]) == Null
      {
        assert k !in present;
      }
    } else {
      var k :| k in present;
      assert Field(m, ChargingSources[k]) != Null;
    }
  }

  // ---------------------------------------------------------------------------
  // The sensor entity
  // ---------------------------------------------------------------------------

  /** A sensor with the dicts it caches from its state reads for its attributes (lines 196-216). */
  class SensorEntity {
    const key: string
    const identity: Identity
    var workshopData: Json
    var brandData: Json
    var chargingStatusData: Json

    /** A sensor for the description `key` of the vehicle with `identity`; nothing cached yet. */
    constructor (s: NewSensor)
      ensures key == s.key && identity == s.identity
      ensures workshopData == Null && brandData == Null && chargingStatusData == Null
    {
      key := s.key;
      identity := s.identity;
      workshopData := Null;
      brandData := Null;
      chargingStatusData := Null;
    }

    /** The cache slot the sensor's attributes read. */
    function Cached(): Json
      reads this
    {
      if key == "workshop" then workshopData
      else if key == "brandContactInfo" then brandData
      else if key == "chargingStatus" then chargingStatusData
      else Null
    }

    /** `native_value` (lines 218-278): the state, caching a summary dict on the way. */
    method NativeValue(coordinatorData: Json) returns (r: Result<Json, Error>)
      modifies this
      ensures r == NativeValueOf(identity.vehicleId, key, coordinatorData)
      ensures var stored := Stored(identity.vehicleId, key, coordinatorData);
        && workshopData == (if key == "workshop" && stored.Some? then stored.value else old(workshopData))
        && brandData == (if key == "brandContactInfo" && stored.Some? then stored.value else old(brandData))
        && chargingStatusData == (if key == "chargingStatus" && stored.Some? then stored.value else old(chargingStatusData))
    {
      var vehicleId := identity.vehicleId;
      if !Truthy(vehicleId) {
        return Get(coordinatorData, "body", Null);
      }
      var listed := Envelope.ListedVehicles(coordinatorData);
      if listed.Failure? {
        return Failure(listed.error);
      }
      var entries := listed.value;
      var i := 0;
      while i < |entries|
        invariant i <= |entries|
        invariant KeyedValue(entries, i, vehicleId, key) == KeyedValue(entries, 0, vehicleId, key)
        invariant unchanged(this)
      {
        var v := entries[i];
        if !Truthy(v) {
          i := i + 1;
          continue;
        }
        var record := Get(v, "vehicle", Null);
        if record.Failure? {
          return Failure(record.error);
        }
        if !Truthy(record.value) {
          i := i + 1;
          continue;
        }
        var id := Index(record.value, "id");
        if id.Failure? {
          return Failure(id.error);
        }
        if PyEq(id.value, vehicleId) && key in record.value.fields {
          var value := record.value.fields[key];
          if value.Obj? {
            if key == "chargingStatus" {
              chargingStatusData := value;
            } else if key == "workshop" {
              workshopData := value;
            } else if key == "brandContactInfo" {
              brandData := value;
            }
          }
          return Success(Reading(key, value));
        }
        i := i + 1;
      }
      return Success(Null);
    }

    /** `extra_state_attributes` (lines 280-403). */
    method ExtraStateAttributes(coordinatorData: Json) returns (r: Result<Option<map<string, Json>>, Error>)
      ensures r == ExtraStateAttributesOf(key, Cached(), identity.vehicleId, coordinatorData)
    {
      if !IsSummary(key) {
        return Success(None);
      }
      var data := Cached();
      if !Truthy(data) && Truthy(identity.vehicleId) {
        var listed := Envelope.ListedVehicles(coordinatorData);
        if listed.Failure? {
          return Failure(listed.error);
        }
        var located := Locate(listed.value, identity.vehicleId, key);
        if located.Failure? {
          return Failure(located.error);
        }
        if located.value.Some? {
          data := located.value.value;
        }
      }
      if !Truthy(data) || !data.Obj? {
        return Success(None);
      }
      if key == "workshop" {
        var offset := TimezoneOffset(data.fields);
        if offset.Failure? {
          return Failure(offset.error);
        }
        var attributes := Renamed(data.fields, WorkshopSources)["timezone_offset" := offset.value];
        var openingHours := Field(data.fields, "openingHours");
        if Truthy(openingHours) && openingHours.Arr? {
          var withHours := AddOpeningHours(attributes, openingHours.items);
          if withHours.Failure? {
            return Failure(withHours.error);
          }
          return Success(Some(withHours.value));
        }
        return Success(Some(attributes));
      } else if key == "brandContactInfo" {
        return Success(Some(Renamed(data.fields, BrandSources)));
      }
      return Success(ChargingAttributes(data.fields));
    }
  }

  /** The lookup loop of `extra_state_attributes` (lines 297-300). */
  method Locate(entries: seq<Json>, vehicleId: Json, field: string) returns (r: Result<Option<Json>, Error>)
    ensures r == Located(entries, 0, vehicleId, field)
  {
    var i := 0;
    while i < |entries|
      invariant i <= |entries|
      invariant Located(entries, i, vehicleId, field) == Located(entries, 0, vehicleId, field)
    {
      var v := entries[i];
      if Truthy(v) {
        var record := Get(v, "vehicle", EmptyObj);
        if record.Failure? {
          return Failure(record.error);
        }
        var id := Get(record.value, "id", Null);
        if id.Failure? {
          return Failure(id.error);
        }
        if PyEq(id.value, vehicleId) {
          return Success(Some(Get(record.value, field, Null).value));
        }
      }
      i := i + 1;
    }
    return Success(None);
  }

  /** The opening-hours loop (lines 323-329), writing into `attributes`. */
  method AddOpeningHours(attributes: map<string, Json>, hours: seq<Json>) returns (r: Result<map<string, Json>, Error>)
    ensures r == WithOpeningHours(attributes, hours)
  {
    var current := attributes;
    var i := 0;
    while i < |hours|
      invariant i <= |hours|
      invariant WithOpeningHours(attributes, hours[..i]) == Success(current)
    {
      assert hours[..i + 1][..i] == hours[..i];
      var h := hours[i];
      if h.Obj? {
        var day := Get(h, "day", Str("")).value;
        if !day.Str? {
          OpeningHoursFailsAfter(attributes, hours, i + 1);
          return Failure(Runtime);
        }
        var d := Lower(day.s);
        current := current[FromKey(d) := Field(h.fields, "from")];
        current := current[ToKey(d) := Field(h.fields, "to")];
      }
      i := i + 1;
    }
    assert hours[..i] == hours;
    return Success(current);
  }

  /** Once a prefix of the opening hours fails, so does every longer prefix. */
  lemma {:induction false} OpeningHoursFailsAfter(attributes: map<string, Json>, hours: seq<Json>, n: nat)
    requires 0 < n <= |hours|
    requires WithOpeningHours(attributes, hours[..n]).Failure?
    ensures WithOpeningHours(attributes, hours) == WithOpeningHours(attributes, hours[..n])
    decreases |hours| - n
  {
    if n < |hours| {
      assert hours[..n + 1][..n] == hours[..n];
      OpeningHoursFailsAfter(attributes, hours, n + 1);
    } else {
      assert hours[..n] == hours;
    }
  }
}
