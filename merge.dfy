/**
 * How the aggregator combines the "vehicle details" and "vehicle system
 * overview" answers for one vehicle (api.py:228-257): the details record is
 * the base, and every top-level key of the overview record except
 * `brandContactInfo` is written over it.
 */
module Merge {
  import opened Wrappers
  import opened Errors
  import opened PyJson

  /** The one key the overview never overwrites. */
  const BrandContactInfo: string := "brandContactInfo"

  /** The details record after the overview's keys have been written into it. */
  function Overlay(base: map<string, Json>, over: map<string, Json>): (r: map<string, Json>)
    ensures r.Keys == base.Keys + (over.Keys - {BrandContactInfo})
    ensures forall k :: k in over && k != BrandContactInfo ==> r[k] == over[k]
    ensures forall k :: k in base && (k !in over || k == BrandContactInfo) ==> r[k] == base[k]
  {
    map k | k in base.Keys + (over.Keys - {BrandContactInfo}) ::
      if k in over && k != BrandContactInfo then over[k] else base[k]
  }

  /** The part of `m` whose keys are in `keys`. */
  function Only(m: map<string, Json>, keys: set<string>): (r: map<string, Json>)
    ensures r.Keys == m.Keys * keys
  {
    map k | k in m && k in keys :: m[k]
  }

  /** Overwriting one more overview key extends the overlay by that key. */
  lemma OverlayStep(base: map<string, Json>, over: map<string, Json>, done: set<string>, key: string)
    requires key in over && key !in done
    ensures Overlay(base, Only(over, done + {key}))
            == if key == BrandContactInfo then Overlay(base, Only(over, done))
               else Overlay(base, Only(over, done))[key := over[key]]
  {
    var after := Overlay(base, Only(over, done + {key}));
    var before := Overlay(base, Only(over, done));
    if key == BrandContactInfo {
      assert after.Keys == before.Keys;
      assert after == before;
    } else {
      assert after.Keys == before.Keys + {key};
      assert after == before[key := over[key]];
    }
  }

  /**
   * The loop at api.py:241-247: write each overview key into the details
   * record, skipping `brandContactInfo`.
   */
  method OverlayInPlace(vehicleData: map<string, Json>, systemData: map<string, Json>)
    returns (merged: map<string, Json>)
    ensures merged == Overlay(vehicleData, systemData)
  {
    merged := vehicleData;
    var todo := systemData.Keys;
    assert Overlay(vehicleData, Only(systemData, {})) == vehicleData;
    while todo != {}
      invariant todo <= systemData.Keys
      invariant merged == Overlay(vehicleData, Only(systemData, systemData.Keys - todo))
      decreases todo
    {
      var key :| key in todo;
      OverlayStep(vehicleData, systemData, systemData.Keys - todo, key);
      assert (systemData.Keys - todo) + {key} == systemData.Keys - (todo - {key});
      if key != BrandContactInfo {
        merged := merged[key := systemData[key]];
      }
      todo := todo - {key};
    }
    assert Only(systemData, systemData.Keys) == systemData;
  }

  /**
   * Lines 232-247, given the details record `vehicleData`: merge the
   * overview's `data.vehicle` when there is one.  `.items()` on something
   * that is not a dict, and an item assignment into a details record that is
   * not a dict, raise.
   */
  function MergeOverview(vehicleData: Json, overview: Json): (r: Result<Json, Error>)
    ensures r.Failure? ==> r.error == Runtime
  {
    if !Truthy(overview) then Success(vehicleData)
    else
      var hasData :- Contains(overview, "data");
      if !hasData then Success(vehicleData)
      else
        var data :- Index(overview, "data");
        var hasVehicle :- Contains(data, "vehicle");
        if !hasVehicle then Success(vehicleData)
        else
          var systemData :- Index(data, "vehicle");
          if !systemData.Obj? then Failure(Runtime)
          else if vehicleData.Obj? then Success(Obj(Overlay(vehicleData.fields, systemData.fields)))
          else if systemData.fields.Keys <= {BrandContactInfo} then Success(vehicleData)
          else Failure(Runtime)
  }

  /**
   * Lines 228-257 once both answers are in: `Some(record)` when the details
   * carry `data.vehicle` (the entry appended is `{"vehicle": record}`), `None`
   * for the else branch; an exception here also ends in the fallback.
   */
  function Enriched(details: Json, overview: Json): (r: Result<Option<Json>, Error>)
    ensures r.Failure? ==> r.error == Runtime
  {
    if !Truthy(details) then Success(None)
    else
      var hasData :- Contains(details, "data");
      if !hasData then Success(None)
      else
        var data :- Index(details, "data");
        var hasVehicle :- Contains(data, "vehicle");
        if !hasVehicle then Success(None)
        else
          var vehicleData :- Index(data, "vehicle");
          var merged :- MergeOverview(vehicleData, overview);
          Success(Some(merged))
  }

  /**
   * Lines 228-257 as the code runs them: the membership tests, then the
   * key-by-key overwrite of the details record.
   */
  method MergeAnswers(details: Json, systemOverview: Json) returns (r: Result<Option<Json>, Error>)
    ensures r == Enriched(details, systemOverview)
  {
    if !Truthy(details) { return Success(None); }
    var hasData := Contains(details, "data");
    if hasData.Failure? { return Failure(hasData.error); }
    if !hasData.value { return Success(None); }
    var data := Index(details, "data");
    if data.Failure? { return Failure(data.error); }
    var hasVehicle := Contains(data.value, "vehicle");
    if hasVehicle.Failure? { return Failure(hasVehicle.error); }
    if !hasVehicle.value { return Success(None); }
    var vehicleData := Index(data.value, "vehicle");
    if vehicleData.Failure? { return Failure(vehicleData.error); }
    if Truthy(systemOverview) {
      var overviewHasData := Contains(systemOverview, "data");
      if overviewHasData.Failure? { return Failure(overviewHasData.error); }
      if overviewHasData.value {
        var overviewData := Index(systemOverview, "data");
        if overviewData.Failure? { return Failure(overviewData.error); }
        var overviewHasVehicle := Contains(overviewData.value, "vehicle");
        if overviewHasVehicle.Failure? { return Failure(overviewHasVehicle.error); }
        if overviewHasVehicle.value {
          var systemData := Index(overviewData.value, "vehicle");
          if systemData.Failure? { return Failure(systemData.error); }
          if !systemData.value.Obj? { return Failure(Runtime); }  // `.items()`
          if vehicleData.value.Obj? {
            var merged := OverlayInPlace(vehicleData.value.fields, systemData.value.fields);
            return Success(Some(Obj(merged)));
          }
          // item assignment into a details record that is not a dict
          if !(systemData.value.fields.Keys <= {BrandContactInfo}) { return Failure(Runtime); }
        }
      }
    }
    return Success(Some(vehicleData.value));
  }

  /** `{"data": {"vehicle": v}}`, the shape of both detail answers. */
  function VehicleAnswer(v: Json): Json {
    Obj(map["data" := Obj(map["vehicle" := v])])
  }

  /** Two well-formed answers merge into the details record overwritten by the overview. */
  lemma MergedRecord(details: map<string, Json>, overview: map<string, Json>)
    ensures Enriched(VehicleAnswer(Obj(details)), VehicleAnswer(Obj(overview)))
            == Success(Some(Obj(Overlay(details, overview))))
  {
    var d := VehicleAnswer(Obj(details));
    var o := VehicleAnswer(Obj(overview));
    assert "data" in d.fields && "data" in o.fields;
    assert Truthy(d) && Truthy(o);
  }

  /** An overview answer without `data.vehicle` leaves the details record as it is. */
  lemma OverviewWithoutVehicle(details: Json, overview: Json)
    requires overview.Obj? && ("data" !in overview.fields
             || (overview.fields["data"].Obj? && "vehicle" !in overview.fields["data"].fields))
    ensures Enriched(VehicleAnswer(details), overview) == Success(Some(details))
  {
    var d := VehicleAnswer(details);
    assert "data" in d.fields && Truthy(d);
    assert MergeOverview(details, overview) == Success(details);
  }

  /** A details answer without `data.vehicle` falls back, whatever the overview says. */
  lemma DetailsWithoutVehicle(details: Json, overview: Json)
    requires details.Obj? && ("data" !in details.fields
             || (details.fields["data"].Obj? && "vehicle" !in details.fields["data"].fields))
    ensures Enriched(details, overview) == Success(None)
  {
  }

  /** Details `brandContactInfo: {name: "A"}` survives an overview `brandContactInfo: {name: "B"}`. */
  lemma BrandContactInfoFromDetails(details: map<string, Json>, overview: map<string, Json>)
    requires BrandContactInfo in details
    ensures var r := Enriched(VehicleAnswer(Obj(details)), VehicleAnswer(Obj(overview)));
      && r.Success? && r.value.Some? && r.value.value.Obj?
      && r.value.value.fields[BrandContactInfo] == details[BrandContactInfo]
      && forall k :: k in overview && k != BrandContactInfo ==> r.value.value.fields[k] == overview[k]
  {
    MergedRecord(details, overview);
  }
}
