/** The BinarySensor component of minihass/binary_sensor.py. Its initialiser
    forwards all seven keyword arguments to `Entity.__init__` (under the names
    of its own parameters) and then stores `expire_after` coerced to a bool.
    Inheritance is modelled by composition: a BinarySensor holds the Entity
    object whose attributes `Entity.__init__` set. */
module BinarySensors {
  import opened PyValues
  import opened Validators
  import opened Entities

  /** The parameters of `BinarySensor.__init__`. */
  datatype SensorArgs = SensorArgs(
    name: Value,
    category: Value,
    objectId: Value,
    uniqueIdPrefix: Value,
    icon: Value,
    forceUpdate: Value,
    enabledByDefault: Value,
    expireAfter: Value)

  /** The defaults of `BinarySensor.__init__`'s signature: `BinarySensor()`. */
  const DefaultArgs: SensorArgs :=
    SensorArgs(None, None, None, None, None, Bool(false), Bool(false), None)

  /** The keyword map `BinarySensor.__init__` passes to `Entity.__init__`. */
  function ForwardedKwargs(a: SensorArgs): (kw: map<string, Value>)
    ensures kw.Keys == {"name", "category", "object_id", "unique_id_prefix", "icon", "force_update", "enabled_by_default"}
    ensures "unique_id" !in kw
  {
    map[
      "name" := a.name,
      "category" := a.category,
      "object_id" := a.objectId,
      "unique_id_prefix" := a.uniqueIdPrefix,
      "icon" := a.icon,
      "force_update" := a.forceUpdate,
      "enabled_by_default" := a.enabledByDefault]
  }

  /** The attributes of a BinarySensor. */
  datatype SensorFields = SensorFields(entity: EntityFields, expireAfter: bool)

  /** What `BinarySensor(...)` builds, or the exception it raises. */
  function ConstructSensor(a: SensorArgs): Result<SensorFields> {
    var f :- Construct(ForwardedKwargs(a));
    Ok(SensorFields(f, ValidateBool(a.expireAfter, false).value))
  }

  /** A BinarySensor succeeds exactly when the name, object id and icon are
      strings or `None` and the category is allowed; the unique-id prefix and
      the three flags are never checked. */
  lemma SensorSucceedsIff(a: SensorArgs)
    ensures ConstructSensor(a).Ok? <==>
      StringOrNone(a.name) && AllowedCategory(a.category) && StringOrNone(a.objectId) && StringOrNone(a.icon)
  {
    ConstructSucceedsIff(ForwardedKwargs(a));
  }

  /** What a successful BinarySensor holds: the unique-id prefix is always
      `None`, force-update, availability and expire-after are the truthiness of
      their arguments, and the category is stored unchanged. */
  lemma SensorFieldsMeaning(a: SensorArgs)
    requires ConstructSensor(a).Ok?
    ensures var f := ConstructSensor(a).value;
      && f.entity.name == FalsyToNone(a.name)
      && f.entity.category == a.category
      && f.entity.objectId == FalsyToNone(a.objectId)
      && f.entity.uniqueIdPrefix == None
      && f.entity.icon == FalsyToNone(a.icon)
      && f.entity.forceUpdate == Bool(Truthy(a.forceUpdate))
      && f.entity.availability == Truthy(a.enabledByDefault)
      && f.expireAfter == Truthy(a.expireAfter)
  {
    ConstructedFields(ForwardedKwargs(a));
  }

  /** The `unique_id_prefix` argument has no effect on the outcome, whatever
      its value, because `Entity.__init__` reads the key "unique_id". */
  lemma UniqueIdPrefixHasNoEffect(a: SensorArgs, prefix: Value)
    ensures ConstructSensor(a.(uniqueIdPrefix := prefix)) == ConstructSensor(a)
  {
    var kw, kw' := ForwardedKwargs(a), ForwardedKwargs(a.(uniqueIdPrefix := prefix));
    assert forall k :: k != "unique_id_prefix" ==> (k in kw <==> k in kw');
    assert Construct(kw) == Construct(kw');
  }

  /** `BinarySensor()` with no arguments succeeds, with every string attribute
      `None` and every flag false. */
  lemma NoArgumentsSucceeds()
    ensures ConstructSensor(DefaultArgs) ==
      Ok(SensorFields(EntityFields(None, None, None, None, None, Bool(false), false), false))
  {
  }

  /** Once the name has passed, a category string outside the allowed set is a
      ValueError and a category that is not a string or `None` is a TypeError. */
  lemma SensorCategoryErrors(a: SensorArgs)
    requires StringOrNone(a.name)
    ensures a.category.Str? && a.category.s !in ValidEntityCategories ==> ConstructSensor(a) == Err(ValueError)
    ensures !StringOrNone(a.category) ==> ConstructSensor(a) == Err(TypeError)
  {
  }

  /** `BinarySensor(name="test", category="config", object_id="foo")`: the
      strings are stored as given, with no chip-id suffix. */
  lemma SensorExample()
    ensures ConstructSensor(DefaultArgs.(name := Str("test"), category := Str("config"), objectId := Str("foo")))
      == Ok(SensorFields(EntityFields(Str("test"), Str("config"), Str("foo"), None, None, Bool(false), false), false))
  {
  }

  /** A Home Assistant binary sensor. */
  class BinarySensor {
    /** The attributes set by `Entity.__init__`. */
    const entity: Entity
    var expireAfter: bool

    /** The sensor's attributes as one value. */
    function Fields(): SensorFields
      reads this, entity
    {
      SensorFields(entity.Fields(), expireAfter)
    }

    /** Joins the initialised Entity part and the coerced expire-after flag. */
    constructor Assemble(entity: Entity, expireAfter: bool)
      requires entity.cls == BinarySensorClass
      ensures this.entity == entity && this.expireAfter == expireAfter
    {
      this.entity := entity;
      this.expireAfter := expireAfter;
    }

    /** `BinarySensor(...)`: the `__new__` guard passes, `Entity.__init__` runs
        on the forwarded keywords, and `expire_after` is coerced to a bool. */
    static method New(a: SensorArgs) returns (r: Result<BinarySensor>)
      ensures r.Err? <==> ConstructSensor(a).Err?
      ensures r.Err? ==> r.exc == ConstructSensor(a).exc
      ensures r.Ok? ==> fresh(r.value) && fresh(r.value.entity) && r.value.entity.cls == BinarySensorClass
      ensures r.Ok? ==> r.value.Fields() == ConstructSensor(a).value
    {
      assert NewGuard(BinarySensorClass) == Done;
      var e := new Entity.Allocate(BinarySensorClass);
      var outcome := e.Init(ForwardedKwargs(a));
      if outcome.Raised? {
        return Err(outcome.exc);
      }
      var expire := ValidateBool(a.expireAfter, false);
      var s := new BinarySensor.Assemble(e, expire.value);
      return Ok(s);
    }

    /** The inherited `availability` setter. */
    method SetAvailability(value: Value)
      modifies entity`availability
      ensures Fields() == old(Fields()).(entity := AvailabilitySet(old(entity.Fields()), value))
      ensures entity.availability == Truthy(value)
    {
      entity.SetAvailability(value);
    }
  }
}
