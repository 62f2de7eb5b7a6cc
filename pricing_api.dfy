/** Pricing rules: one 'base' rule and one 'surge' rule, each created on
    first use and updated in place afterwards. */
module PricingApi {
  import opened Json
  import opened Http
  import opened Tables
  import opened Database

  /** `BasePriceSchema`: the one field `base_price`. */
  datatype BasePriceInput = BasePriceInput(basePrice: real)

  /** `SurgePricingSchema`: `multiplier` and the `conditions` dict
      (`fields.Dict` loads only a JSON object). */
  datatype SurgeInput = SurgeInput(multiplier: real, conditions: map<string, Value>)

  predicate IsBase(r: PricingRule) {
    r.ruleType == "base"
  }

  predicate IsSurge(r: PricingRule) {
    r.ruleType == "surge"
  }

  /** The rule table after `set_base_price`: the first base rule takes the
      new price, or a new base rule without conditions is added. */
  function BaseUpserted(t: Table<PricingRule>, price: real, now: int): (u: Table<PricingRule>)
    requires t.Valid()
    ensures u.Valid()
    ensures t.rows.Keys <= u.rows.Keys
    ensures t.FirstWhere(IsBase).Some? ==> u.rows.Keys == t.rows.Keys
    ensures t.FirstWhere(IsBase).None? ==> |u.rows| == |t.rows| + 1
  {
    match t.FirstWhere(IsBase)
    case Some(id) => t.Put(id, t.rows[id].(priceModifier := price))
    case None => t.Insert(PricingRule("Base Price", "base", price, None, now))
  }

  /** The rule table after `set_surge_pricing`: the first surge rule takes
      the new multiplier and conditions, or a new surge rule is added. */
  function SurgeUpserted(t: Table<PricingRule>, multiplier: real, conditions: map<string, Value>, now: int): (u: Table<PricingRule>)
    requires t.Valid()
    ensures u.Valid()
    ensures t.rows.Keys <= u.rows.Keys
    ensures t.FirstWhere(IsSurge).Some? ==> u.rows.Keys == t.rows.Keys
    ensures t.FirstWhere(IsSurge).None? ==> |u.rows| == |t.rows| + 1
  {
    match t.FirstWhere(IsSurge)
    case Some(id) => t.Put(id, t.rows[id].(priceModifier := multiplier, conditions := Some(Obj(conditions))))
    case None => t.Insert(PricingRule("Surge Pricing", "surge", multiplier, Some(Obj(conditions)), now))
  }

  method SetBasePrice(db: Db, body: Parsed<BasePriceInput>, now: int) returns (resp: Response)
    requires db.pricingRules.Valid()
    modifies db`pricingRules
    ensures db.pricingRules.Valid()
    ensures body.Invalid? ==> resp == InvalidInput(body.details) && db.pricingRules == old(db.pricingRules)
    ensures body.Loaded? ==>
      && resp == Done(200, "Base price set successfully")
      && db.pricingRules == BaseUpserted(old(db.pricingRules), body.data.basePrice, now)
  {
    if body.Invalid? {
      return InvalidInput(body.details);
    }
    var found := db.pricingRules.FirstWhere(IsBase);
    if found.Some? {
      var rule := db.pricingRules.rows[found.value];
      db.pricingRules := db.pricingRules.Put(found.value, rule.(priceModifier := body.data.basePrice));
    } else {
      db.pricingRules := db.pricingRules.Insert(PricingRule("Base Price", "base", body.data.basePrice, None, now));
    }
    resp := Done(200, "Base price set successfully");
  }

  method SetSurgePricing(db: Db, body: Parsed<SurgeInput>, now: int) returns (resp: Response)
    requires db.pricingRules.Valid()
    modifies db`pricingRules
    ensures db.pricingRules.Valid()
    ensures body.Invalid? ==> resp == InvalidInput(body.details) && db.pricingRules == old(db.pricingRules)
    ensures body.Loaded? ==>
      && resp == Done(200, "Surge pricing rules set successfully")
      && db.pricingRules == SurgeUpserted(old(db.pricingRules), body.data.multiplier, body.data.conditions, now)
  {
    if body.Invalid? {
      return InvalidInput(body.details);
    }
    var found := db.pricingRules.FirstWhere(IsSurge);
    if found.Some? {
      var rule := db.pricingRules.rows[found.value];
      db.pricingRules := db.pricingRules.Put(found.value,
        rule.(priceModifier := body.data.multiplier, conditions := Some(Obj(body.data.conditions))));
    } else {
      db.pricingRules := db.pricingRules.Insert(
        PricingRule("Surge Pricing", "surge", body.data.multiplier, Some(Obj(body.data.conditions)), now));
    }
    resp := Done(200, "Surge pricing rules set successfully");
  }

  /** After `set_base_price` the first base rule carries the new price, and
      the rules of every other type are exactly as before. */
  lemma BaseUpsertEffect(t: Table<PricingRule>, price: real, now: int)
    requires t.Valid()
    ensures var u := BaseUpserted(t, price, now);
      && u.FirstWhere(IsBase).Some?
      && u.rows[u.FirstWhere(IsBase).value].priceModifier == price
      && (forall k :: k in t.rows && !IsBase(t.rows[k]) ==> k in u.rows && u.rows[k] == t.rows[k])
      && (forall k :: k in u.rows && !IsBase(u.rows[k]) ==> k in t.rows && t.rows[k] == u.rows[k])
  {
    match t.FirstWhere(IsBase)
    case Some(id) =>
      FirstWhereAfterPut(t, IsBase, id, t.rows[id].(priceModifier := price));
    case None =>
      FirstWhereAfterInsert(t, IsBase, PricingRule("Base Price", "base", price, None, now));
  }

  /** `set_base_price` adds a base rule only when there was none, so the
      number of base rules becomes one or stays what it was; in particular
      at most one before means exactly one after. */
  lemma BaseUpsertCount(t: Table<PricingRule>, price: real, now: int)
    requires t.Valid()
    ensures var n := CountWhere(t.rows, IsBase);
      CountWhere(BaseUpserted(t, price, now).rows, IsBase) == if n == 0 then 1 else n
  {
    CountZero(t, IsBase);
    match t.FirstWhere(IsBase)
    case Some(id) =>
      CountAfterPut(t, IsBase, id, t.rows[id].(priceModifier := price));
    case None =>
      CountAfterInsert(t, IsBase, PricingRule("Base Price", "base", price, None, now));
  }

  /** Setting the same base price twice leaves the rules as setting it once. */
  lemma BaseUpsertIdempotent(t: Table<PricingRule>, price: real, now1: int, now2: int)
    requires t.Valid()
    ensures BaseUpserted(BaseUpserted(t, price, now1), price, now2) == BaseUpserted(t, price, now1)
  {
    var u := BaseUpserted(t, price, now1);
    BaseUpsertEffect(t, price, now1);
    PutSame(u, u.FirstWhere(IsBase).value);
  }

  /** After `set_surge_pricing` the first surge rule carries the new multiplier
      and conditions, and the rules of every other type are exactly as before. */
  lemma SurgeUpsertEffect(t: Table<PricingRule>, multiplier: real, conditions: map<string, Value>, now: int)
    requires t.Valid()
    ensures var u := SurgeUpserted(t, multiplier, conditions, now);
      && u.FirstWhere(IsSurge).Some?
      && u.rows[u.FirstWhere(IsSurge).value].priceModifier == multiplier
      && u.rows[u.FirstWhere(IsSurge).value].conditions == Some(Obj(conditions))
      && (forall k :: k in t.rows && !IsSurge(t.rows[k]) ==> k in u.rows && u.rows[k] == t.rows[k])
      && (forall k :: k in u.rows && !IsSurge(u.rows[k]) ==> k in t.rows && t.rows[k] == u.rows[k])
  {
    match t.FirstWhere(IsSurge)
    case Some(id) =>
      FirstWhereAfterPut(t, IsSurge, id, t.rows[id].(priceModifier := multiplier, conditions := Some(Obj(conditions))));
    case None =>
      FirstWhereAfterInsert(t, IsSurge, PricingRule("Surge Pricing", "surge", multiplier, Some(Obj(conditions)), now));
  }

  /** The number of surge rules becomes one or stays what it was. */
  lemma SurgeUpsertCount(t: Table<PricingRule>, multiplier: real, conditions: map<string, Value>, now: int)
    requires t.Valid()
    ensures var n := CountWhere(t.rows, IsSurge);
      CountWhere(SurgeUpserted(t, multiplier, conditions, now).rows, IsSurge) == if n == 0 then 1 else n
  {
    CountZero(t, IsSurge);
    match t.FirstWhere(IsSurge)
    case Some(id) =>
      CountAfterPut(t, IsSurge, id, t.rows[id].(priceModifier := multiplier, conditions := Some(Obj(conditions))));
    case None =>
      CountAfterInsert(t, IsSurge, PricingRule("Surge Pricing", "surge", multiplier, Some(Obj(conditions)), now));
  }

  /** Setting the same surge pricing twice leaves the rules as setting it once. */
  lemma SurgeUpsertIdempotent(t: Table<PricingRule>, multiplier: real, conditions: map<string, Value>, now1: int, now2: int)
    requires t.Valid()
    ensures SurgeUpserted(SurgeUpserted(t, multiplier, conditions, now1), multiplier, conditions, now2)
         == SurgeUpserted(t, multiplier, conditions, now1)
  {
    var u := SurgeUpserted(t, multiplier, conditions, now1);
    SurgeUpsertEffect(t, multiplier, conditions, now1);
    PutSame(u, u.FirstWhere(IsSurge).value);
  }

  /** `json.loads(rule.conditions) if rule.conditions else None`: the stored
      text of a dict is never empty, so a stored dict reads back, and a rule
      without conditions shows null. */
  function RuleJson(id: int, r: PricingRule): (v: Value)
    ensures v.Obj? && "conditions" in v.fields
    ensures v.fields["conditions"] == Null <==> r.conditions.None? || r.conditions.value == Null
  {
    Obj(map[
      "id" := Int(id),
      "name" := Str(r.name),
      "rule_type" := Str(r.ruleType),
      "price_modifier" := Float(r.priceModifier),
      "conditions" := if r.conditions.Some? then r.conditions.value else Null,
      "created_at" := IsoFormat(r.createdAt)])
  }

  function GetPricingRules(db: Db): (r: Response)
    reads db
    requires db.pricingRules.Valid()
    ensures r.status == 200 && r.body.Arr? && |r.body.items| == |db.pricingRules.rows|
    ensures forall id :: id in db.pricingRules.rows ==> RuleJson(id, db.pricingRules.rows[id]) in r.body.items
  {
    Response(200, Arr(Project(db.pricingRules.All(), RuleJson)))
  }
}
