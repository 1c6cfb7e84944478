/** The Entity base class of minihass/entity.py: the guard that refuses to build
    the base class itself, the keyword-driven set-up of its seven attributes, and
    the availability property. */
module Entities {
  import opened PyValues
  import opened Validators

  /** The classes of the entity hierarchy shown in the source. */
  datatype Class = EntityBase | CommandEntity | BinarySensorClass

  /** The classes whose `__init__` is `Entity.__init__` itself, so that calling
      the class passes the keyword map straight through. BinarySensor has an
      `__init__` of its own, modelled in BinarySensors. */
  type KeywordClass = c: Class | c != BinarySensorClass witness EntityBase

  /** `Entity.__new__`: only strict subclasses of Entity may be instantiated. */
  function NewGuard(cls: Class): (r: Outcome)
    ensures r.Raised? <==> cls == EntityBase
    ensures r.Raised? ==> r.exc == TypeError
  {
    if cls == EntityBase then Raised(TypeError) else Done
  }

  /** The attributes `Entity.__init__` sets, as one value. */
  datatype EntityFields = EntityFields(
    name: Value,
    category: Value,
    objectId: Value,
    uniqueIdPrefix: Value,
    icon: Value,
    forceUpdate: Value,
    availability: bool)

  /** A string attribute validated with `none_ok=True`, or `None` when its key
      is absent. */
  function OptionalString(kwargs: map<string, Value>, key: string): Result<Value> {
    if key in kwargs then ValidateString(kwargs[key], true) else Ok(None)
  }

  /** The category attribute, or `None` when its key is absent. */
  function OptionalCategory(kwargs: map<string, Value>): Result<Value> {
    if "category" in kwargs then ValidateEntityCategory(kwargs["category"]) else Ok(None)
  }

  /** What `Entity.__init__(**kwargs)` leaves in the object, or the exception of
      the first assignment that raises. The two bool attributes never raise. */
  function Construct(kwargs: map<string, Value>): Result<EntityFields> {
    var name :- OptionalString(kwargs, "name");
    var category :- OptionalCategory(kwargs);
    var objectId :- OptionalString(kwargs, "object_id");
    var uniqueIdPrefix :- OptionalString(kwargs, "unique_id");
    var icon :- OptionalString(kwargs, "icon");
    var forceUpdate :=
      if "force_update" in kwargs then Bool(ValidateBool(kwargs["force_update"], false).value) else None;
    var availability :=
      if "enabled_by_default" in kwargs then ValidateBool(kwargs["enabled_by_default"], false).value else false;
    Ok(EntityFields(name, category, objectId, uniqueIdPrefix, icon, forceUpdate, availability))
  }

  /** The keys `Entity.__init__` validates in a way that can raise, in the
      order it validates them. */
  const CheckedKeys: seq<string> := ["name", "category", "object_id", "unique_id", "icon"]

  /** The validation `Entity.__init__` applies to one key of `CheckedKeys`. */
  function CheckKey(kwargs: map<string, Value>, key: string): Result<Value> {
    if key == "category" then OptionalCategory(kwargs) else OptionalString(kwargs, key)
  }

  /** Construction raises exactly when some checked key fails its validator,
      and then it raises the exception of the first such key. */
  lemma {:induction false} FirstFailingKeyDecides(kwargs: map<string, Value>)
    ensures Construct(kwargs).Err? <==>
      exists i :: 0 <= i < |CheckedKeys| && CheckKey(kwargs, CheckedKeys[i]).Err?
    ensures Construct(kwargs).Err? ==>
      exists i :: 0 <= i < |CheckedKeys| && CheckKey(kwargs, CheckedKeys[i]) == Err(Construct(kwargs).exc)
        && forall j :: 0 <= j < i ==> CheckKey(kwargs, CheckedKeys[j]).Ok?
  {
    var k0, k1, k2, k3, k4 := CheckKey(kwargs, CheckedKeys[0]), CheckKey(kwargs, CheckedKeys[1]),
      CheckKey(kwargs, CheckedKeys[2]), CheckKey(kwargs, CheckedKeys[3]), CheckKey(kwargs, CheckedKeys[4]);
    assert k0 == OptionalString(kwargs, "name");
    assert k1 == OptionalCategory(kwargs);
    assert k2 == OptionalString(kwargs, "object_id");
    assert k3 == OptionalString(kwargs, "unique_id");
    assert k4 == OptionalString(kwargs, "icon");
    if k0.Err? {
      assert Construct(kwargs) == Err(k0.exc);
    } else if k1.Err? {
      assert Construct(kwargs) == Err(k1.exc);
    } else if k2.Err? {
      assert Construct(kwargs) == Err(k2.exc);
    } else if k3.Err? {
      assert Construct(kwargs) == Err(k3.exc);
    } else if k4.Err? {
      assert Construct(kwargs) == Err(k4.exc);
    } else {
      assert Construct(kwargs).Ok?;
      forall i | 0 <= i < |CheckedKeys| ensures CheckKey(kwargs, CheckedKeys[i]).Ok? {
      }
    }
  }

  /** Construction succeeds exactly when every present checked key holds an
      acceptable value; any value at all is accepted for the two bool keys. */
  lemma ConstructSucceedsIff(kwargs: map<string, Value>)
    ensures Construct(kwargs).Ok? <==>
      && ("name" in kwargs ==> StringOrNone(kwargs["name"]))
      && ("category" in kwargs ==> AllowedCategory(kwargs["category"]))
      && ("object_id" in kwargs ==> StringOrNone(kwargs["object_id"]))
      && ("unique_id" in kwargs ==> StringOrNone(kwargs["unique_id"]))
      && ("icon" in kwargs ==> StringOrNone(kwargs["icon"]))
  {
  }

  /** What each attribute holds after a successful construction: an absent key
      gives `None` (or `False` for availability); a string attribute holds its
      argument when that is a non-empty string and `None` otherwise; the category
      is stored unchanged; the bools are the truthiness of their arguments. */
  lemma ConstructedFields(kwargs: map<string, Value>)
    requires Construct(kwargs).Ok?
    ensures var f := Construct(kwargs).value;
      && f.name == (if "name" in kwargs then FalsyToNone(kwargs["name"]) else None)
      && f.category == (if "category" in kwargs then kwargs["category"] else None)
      && f.objectId == (if "object_id" in kwargs then FalsyToNone(kwargs["object_id"]) else None)
      && f.uniqueIdPrefix == (if "unique_id" in kwargs then FalsyToNone(kwargs["unique_id"]) else None)
      && f.icon == (if "icon" in kwargs then FalsyToNone(kwargs["icon"]) else None)
      && f.forceUpdate == (if "force_update" in kwargs then Bool(Truthy(kwargs["force_update"])) else None)
      && f.availability == ("enabled_by_default" in kwargs && Truthy(kwargs["enabled_by_default"]))
  {
  }

  /** After a successful construction every string attribute is `None` or a
      non-empty string, and the category is an allowed one. */
  lemma ConstructedFieldsNormalized(kwargs: map<string, Value>)
    requires Construct(kwargs).Ok?
    ensures var f := Construct(kwargs).value;
      && (f.name.None? || (f.name.Str? && f.name.s != ""))
      && AllowedCategory(f.category)
      && (f.objectId.None? || (f.objectId.Str? && f.objectId.s != ""))
      && (f.uniqueIdPrefix.None? || (f.uniqueIdPrefix.Str? && f.uniqueIdPrefix.s != ""))
      && (f.icon.None? || (f.icon.Str? && f.icon.s != ""))
      && (f.forceUpdate.None? || f.forceUpdate.Bool?)
  {
  }

  /** The unique-id prefix is read from the key "unique_id" and no other: if
      that key is absent, nothing else in the map can set it. */
  lemma UniqueIdOnlyFromItsKey(kwargs: map<string, Value>)
    requires "unique_id" !in kwargs
    ensures Construct(kwargs).Ok? ==> Construct(kwargs).value.uniqueIdPrefix == None
  {
  }

  /** The state the availability setter leaves: availability is the truthiness
      of the value, and every other attribute is as before. */
  function AvailabilitySet(f: EntityFields, value: Value): (g: EntityFields)
    ensures g.availability == Truthy(value)
    ensures g.(availability := f.availability) == f
  {
    f.(availability := ValidateBool(value, false).value)
  }

  /** Setting the same availability twice is the same as setting it once. */
  lemma AvailabilitySetIdempotent(f: EntityFields, value: Value)
    ensures AvailabilitySet(AvailabilitySet(f, value), value) == AvailabilitySet(f, value)
  {
  }

  /** Of two successive availability settings only the last one is seen. */
  lemma AvailabilitySetLastWins(f: EntityFields, v: Value, w: Value)
    ensures AvailabilitySet(AvailabilitySet(f, v), w) == AvailabilitySet(f, w)
  {
  }

  /** Home Assistant entity state held by one object. */
  class Entity {
    const cls: Class
    var name: Value
    var category: Value
    var objectId: Value
    var uniqueIdPrefix: Value
    var icon: Value
    var forceUpdate: Value
    /** `_availability`, read through the `availability` property. */
    var availability: bool

    /** The object's attributes as one value. */
    function Fields(): EntityFields
      reads this
    {
      EntityFields(name, category, objectId, uniqueIdPrefix, icon, forceUpdate, availability)
    }

    /** `object.__new__(cls)`, reached only once `Entity.__new__`'s guard has
        passed: a fresh object whose attributes `__init__` has yet to set. */
    constructor Allocate(cls: Class)
      requires NewGuard(cls).Done?
      ensures this.cls == cls
      ensures Fields() == EntityFields(None, None, None, None, None, None, false)
    {
      this.cls := cls;
      name, category, objectId, uniqueIdPrefix, icon, forceUpdate := None, None, None, None, None, None;
      availability := false;
    }

    /** `Entity.__init__(**kwargs)`: sets the seven attributes one after
        another; the first validator that raises ends the initialisation. */
    method Init(kwargs: map<string, Value>) returns (outcome: Outcome)
      modifies this
      ensures outcome.Raised? <==> Construct(kwargs).Err?
      ensures outcome.Raised? ==> outcome.exc == Construct(kwargs).exc
      ensures outcome.Done? ==> Fields() == Construct(kwargs).value
    {
      var n := OptionalString(kwargs, "name");
      if n.Err? { return Raised(n.exc); }
      name := n.value;

      var c := OptionalCategory(kwargs);
      if c.Err? { return Raised(c.exc); }
      category := c.value;

      var o := OptionalString(kwargs, "object_id");
      if o.Err? { return Raised(o.exc); }
      objectId := o.value;

      var u := OptionalString(kwargs, "unique_id");
      if u.Err? { return Raised(u.exc); }
      uniqueIdPrefix := u.value;

      var i := OptionalString(kwargs, "icon");
      if i.Err? { return Raised(i.exc); }
      icon := i.value;

      if "force_update" in kwargs {
        var b := ValidateBool(kwargs["force_update"], false);
        forceUpdate := Bool(b.value);
      } else {
        forceUpdate := None;
      }

      if "enabled_by_default" in kwargs {
        var b := ValidateBool(kwargs["enabled_by_default"], false);
        availability := b.value;
      } else {
        availability := false;
      }
      return Done;
    }

    /** The `availability` setter: coerces the value to a bool, stores it and
        publishes it; it never raises. */
    method SetAvailability(value: Value)
      modifies this`availability
      ensures Fields() == AvailabilitySet(old(Fields()), value)
      ensures availability == Truthy(value)
    {
      var b := ValidateBool(value, false);
      availability := b.value;
      var _ := PublishAvailability();
    }

    /** `publish_availability`: not yet implemented; it reports success and
        changes nothing. */
    method PublishAvailability() returns (published: bool)
      ensures published
    {
      published := true;
    }
  }

  /** `cls(**kwargs)` for a class whose initialiser is `Entity.__init__`: the
      base class is refused before any attribute is set; otherwise the result
      is a fresh object holding what `Construct` describes. */
  method Instantiate(cls: KeywordClass, kwargs: map<string, Value>) returns (r: Result<Entity>)
    ensures cls == EntityBase ==> r == Err(TypeError)
    ensures cls != EntityBase ==> (r.Err? <==> Construct(kwargs).Err?)
    ensures cls != EntityBase && r.Err? ==> r.exc == Construct(kwargs).exc
    ensures r.Ok? ==> fresh(r.value) && r.value.cls == cls && r.value.Fields() == Construct(kwargs).value
  {
    var guard := NewGuard(cls);
    if guard.Raised? {
      return Err(guard.exc);
    }
    var e := new Entity.Allocate(cls);
    var outcome := e.Init(kwargs);
    if outcome.Raised? {
      return Err(outcome.exc);
    }
    return Ok(e);
  }

  /** A corollary of `NewGuard`: the guard refuses the base class and lets
      every subclass through. */
  lemma OnlySubclassesPassGuard(cls: Class)
    ensures NewGuard(cls) == Done <==> cls in {CommandEntity, BinarySensorClass}
  {
  }
}
