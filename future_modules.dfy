/** Stateless validators for planned features: each checks a request body
    in a fixed order, answers 400 at the first failing check, and otherwise
    echoes the accepted fields back without storing anything. */
module FutureModules {
  import opened Json
  import opened Http

  const PricingFields: seq<string> := ["base_price", "surge_multiplier", "time_based_rules"]
  const ZoneFields: seq<string> := ["zone_name", "coordinates", "rules"]

  /** `{k: data[k] for k in keys}` */
  function Pick(m: map<string, Value>, keys: seq<string>): (r: map<string, Value>)
    requires HasAll(m, keys)
    ensures r.Keys == set k | k in keys
    ensures forall k :: k in r ==> r[k] == m[k]
  {
    map k | k in keys :: m[k]
  }

  /** Every check `set_dynamic_pricing` makes, as one condition. */
  predicate PricingAccepted(data: Value) {
    && IsNonEmptyObject(data)
    && HasAll(data.fields, PricingFields)
    && IsNumber(data.fields["base_price"])
    && IsNumber(data.fields["surge_multiplier"])
    && data.fields["time_based_rules"].Obj?
  }

  function SetDynamicPricing(data: Value): (r: Response)
    ensures !IsNonEmptyObject(data) ==> r == Fail(400, "Invalid request data")
    ensures IsNonEmptyObject(data) && !HasAll(data.fields, PricingFields) ==> r == Fail(400, "Missing required fields")
    ensures IsNonEmptyObject(data) && HasAll(data.fields, PricingFields) ==>
      var m := data.fields;
      && (!IsNumber(m["base_price"]) || !IsNumber(m["surge_multiplier"]) ==>
            r == Fail(400, "Invalid base_price or surge_multiplier"))
      && (IsNumber(m["base_price"]) && IsNumber(m["surge_multiplier"]) && !m["time_based_rules"].Obj? ==>
            r == Fail(400, "Invalid time_based_rules format"))
    ensures r.status == 200 <==> PricingAccepted(data)
    ensures r.status != 200 ==> r.status == 400
    ensures r.status == 200 ==>
      r.body == Obj(map[
        "message" := Str("Dynamic pricing rules set successfully"),
        "rules" := Obj(Pick(data.fields, PricingFields))])
  {
    if !(Truthy(data) && data.Obj?) then
      TruthyObject(data);
      Fail(400, "Invalid request data")
    else
      TruthyObject(data);
      var m := data.fields;
      if !HasAll(m, PricingFields) then Fail(400, "Missing required fields")
      else if !IsNumber(m["base_price"]) || !IsNumber(m["surge_multiplier"]) then
        Fail(400, "Invalid base_price or surge_multiplier")
      else if !m["time_based_rules"].Obj? then Fail(400, "Invalid time_based_rules format")
      else
        var rules := map[
          "base_price" := m["base_price"],
          "surge_multiplier" := m["surge_multiplier"],
          "time_based_rules" := m["time_based_rules"]];
        assert rules.Keys == (set k | k in PricingFields);
        assert rules == Pick(m, PricingFields);
        Response(200, Obj(map["message" := Str("Dynamic pricing rules set successfully"), "rules" := Obj(rules)]))
  }

  /** The echoed rules are themselves an accepted request with the same answer. */
  lemma PricingEchoAccepted(data: Value)
    requires PricingAccepted(data)
    ensures var echoed := SetDynamicPricing(data).body.fields["rules"];
      SetDynamicPricing(echoed) == SetDynamicPricing(data)
  {
    var echoed := Obj(Pick(data.fields, PricingFields));
    assert "base_price" in echoed.fields;
    assert Pick(echoed.fields, PricingFields) == Pick(data.fields, PricingFields);
  }

  /** `isinstance(coord, dict) and 'lat' in coord and 'lon' in coord` */
  predicate IsPoint(v: Value) {
    v.Obj? && "lat" in v.fields && "lon" in v.fields
  }

  /** `isinstance(c, list) and all(<IsPoint> for coord in c)`: an empty list
      passes, and the types of lat and lon are not looked at. */
  predicate IsPointList(c: Value) {
    c.Arr? && forall i :: 0 <= i < |c.items| ==> IsPoint(c.items[i])
  }

  predicate ZoneAccepted(data: Value) {
    && IsNonEmptyObject(data)
    && HasAll(data.fields, ZoneFields)
    && data.fields["zone_name"].Str?
    && IsPointList(data.fields["coordinates"])
    && data.fields["rules"].Obj?
  }

  function DefineGeofence(data: Value): (r: Response)
    ensures !IsNonEmptyObject(data) ==> r == Fail(400, "Invalid request data")
    ensures IsNonEmptyObject(data) && !HasAll(data.fields, ZoneFields) ==> r == Fail(400, "Missing required fields")
    ensures IsNonEmptyObject(data) && HasAll(data.fields, ZoneFields) ==>
      var m := data.fields;
      && (!m["zone_name"].Str? ==> r == Fail(400, "Invalid zone_name format"))
      && (m["zone_name"].Str? && !IsPointList(m["coordinates"]) ==> r == Fail(400, "Invalid coordinates format"))
      && (m["zone_name"].Str? && IsPointList(m["coordinates"]) && !m["rules"].Obj? ==>
            r == Fail(400, "Invalid rules format"))
    ensures r.status == 200 <==> ZoneAccepted(data)
    ensures r.status != 200 ==> r.status == 400
    ensures r.status == 200 ==>
      r.body == Obj(map[
        "message" := Str("Geofence zone defined successfully"),
        "geofence" := Obj(Pick(data.fields, ZoneFields))])
  {
    TruthyObject(data);
    if !(Truthy(data) && data.Obj?) then Fail(400, "Invalid request data")
    else
      var m := data.fields;
      if !HasAll(m, ZoneFields) then Fail(400, "Missing required fields")
      else if !m["zone_name"].Str? then Fail(400, "Invalid zone_name format")
      else if !IsPointList(m["coordinates"]) then Fail(400, "Invalid coordinates format")
      else if !m["rules"].Obj? then Fail(400, "Invalid rules format")
      else
        var zone := map[
          "zone_name" := m["zone_name"],
          "coordinates" := m["coordinates"],
          "rules" := m["rules"]];
        assert zone.Keys == (set k | k in ZoneFields);
        assert zone == Pick(m, ZoneFields);
        Response(200, Obj(map["message" := Str("Geofence zone defined successfully"), "geofence" := Obj(zone)]))
  }

  /** A zone with no points at all is accepted. */
  lemma EmptyZoneAccepted(name: string, rules: map<string, Value>)
    ensures DefineGeofence(Obj(map["zone_name" := Str(name), "coordinates" := Arr([]), "rules" := Obj(rules)])).status == 200
  {
    var data := Obj(map["zone_name" := Str(name), "coordinates" := Arr([]), "rules" := Obj(rules)]);
    assert "zone_name" in data.fields;
    assert HasAll(data.fields, ZoneFields);
  }

  /** The echoed zone is itself an accepted request with the same answer. */
  lemma ZoneEchoAccepted(data: Value)
    requires ZoneAccepted(data)
    ensures var echoed := DefineGeofence(data).body.fields["geofence"];
      DefineGeofence(echoed) == DefineGeofence(data)
  {
    var echoed := Obj(Pick(data.fields, ZoneFields));
    assert "zone_name" in echoed.fields;
    assert Pick(echoed.fields, ZoneFields) == Pick(data.fields, ZoneFields);
  }
}
