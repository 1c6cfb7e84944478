# minihass entity core, modelled in Dafny

minihass is a small CircuitPython library that describes Home Assistant
devices and entities (sensors, switches) and announces them over MQTT. At the
revision modelled here, three pieces carry logic, and this project models
all three:

- **Parameter validators** (`minihass/_validators.py`). `validate_entity_category`,
  `validate_string` and `validate_bool` take a dynamically typed Python value and
  either return a value or raise `TypeError` or `ValueError`. The order of the
  checks decides which exception is raised.
- **Entity** (`minihass/entity.py`). `__new__` refuses to build the base class.
  `__init__` sets seven attributes from a keyword map. A key that is present is
  validated. A key that is absent gives `None`, or `False` for availability. The
  `availability` setter coerces its value to a bool and then calls a publisher
  that is still a stub.
- **BinarySensor** (`minihass/binary_sensor.py`). Its initialiser always
  forwards all seven of its keyword arguments to `Entity.__init__`. It then
  stores `expire_after` coerced to a bool.

Files and modules:

| file | module | models |
|---|---|---|
| `values.dfy` | `PyValues` | Python values (`None`, `str`, `int`, `bool`, any other object), `bool(x)` as `Truthy`, the two exceptions, `Result`/`Outcome` |
| `validators.dfy` | `Validators` | the three validators and `VALID_ENTITY_CATEGORIES` |
| `entity.dfy` | `Entities` | the `__new__` guard, the `Entity` class, `Construct` (the state `__init__` leaves), the availability setter |
| `binary_sensor.dfy` | `BinarySensors` | the `BinarySensor` class, the keyword map it forwards, `ConstructSensor` |

Each state-changing operation is a method of a class: `Entity.Init`,
`Entity.SetAvailability`, `BinarySensor.New` and `BinarySensor.SetAvailability`.
Each of these methods is proved against a pure function: `Construct`,
`AvailabilitySet` or `ConstructSensor`. The properties are then proved as
lemmas about those functions.

Where the code and its tests disagree, the model follows the code:

- Building the base `Entity` raises `TypeError`. tests/test_entity.py expects `RuntimeError`.
- `BinarySensor()` with no arguments succeeds. tests/test_entity.py expects `ValueError`.
- `validate_string` has no `strict` parameter. The call `validate_string(1, strict=True)` at
  tests/test_validators.py:16 raises `TypeError` only because `strict` is an unknown keyword.
- `validate_string(1)` raises `TypeError`. tests/test_validators.py:17 expects it to return `"1"`.
- `publish_availability()` returns `True`. tests/test_entity.py:27-28 expects `NotImplementedError`.
- The signature annotates `expire_after` as `int`, and the docstring describes it as a number of
  seconds while labelling it `(bool, optional)`. The code stores `bool(expire_after)`.
- `BinarySensor` forwards its `unique_id_prefix` argument under the key
  `"unique_id_prefix"`. `Entity.__init__` reads the key `"unique_id"`. So the
  argument is never validated and the attribute is always `None`.
- No chip-id suffix is applied to `object_id` at this revision. The string is
  stored as given.

## Model

| member | source | states |
|---|---|---|
| `PyValues.Truthy` | minihass/_validators.py:47 | Python's `bool(x)`: exactly `None`, `""`, `0`, `False` and falsy objects are falsy |
| `Validators.ValidEntityCategories` | minihass/_validators.py:4 | the allowed categories are exactly `"diagnostic"` and `"config"` |
| `Validators.ValidateEntityCategory` | minihass/_validators.py:4-23 | returns its argument unchanged exactly when it is `"diagnostic"`, `"config"` or `None`; raises TypeError exactly for a non-string non-`None` value (so an int is a TypeError, not a ValueError); raises ValueError exactly for any other string, including `""` |
| `Validators.ValidateString` | minihass/_validators.py:26-47 | a non-empty string is returned unchanged whatever `none_ok` is; `None` is a TypeError without `none_ok` and `None` with it; `""` is a ValueError without `none_ok` and `None` with it; any non-string is a TypeError; it succeeds exactly for a string or `None` that is truthy or allowed by `none_ok`, and the result is then `None` or a non-empty string |
| `Validators.ValidateBool` | minihass/_validators.py:50-63 | a successful result is the truthiness of the argument; it raises exactly when `strict` is set and the argument is neither a bool nor `None`, and then raises TypeError; `None` gives false |
| `Validators.ValidateBoolIdempotent` | minihass/_validators.py:60-63 | validating the bool that `validate_bool` returned gives the same result again, in either mode |
| `Validators.ValidateStringIdempotent` | minihass/_validators.py:36-47 | validating an accepted string's result again with `none_ok` returns it unchanged |
| `Validators.ValidatorExamples` | tests/test_validators.py:6-71 | the outcomes of the calls in the validator tests: each matches the test's assertion except `validate_string(1)`, where the code raises TypeError and line 17 expects `"1"`; the empty category `""`, which no test calls, is added as a ValueError |
| `Entities.NewGuard` | minihass/entity.py:32-35 | instantiation is refused exactly for the base class `Entity`, and the refusal is a TypeError |
| `Entities.OnlySubclassesPassGuard` | minihass/entity.py:32-35 | a corollary of `NewGuard`: `_CommandEntity` and `BinarySensor` pass the guard, and the base class does not |
| `Entities.Construct` | minihass/entity.py:37-79 | the attributes `Entity.__init__` sets, or the exception of the first assignment that raises; its meaning is stated by the lemmas below and its relation to the imperative `__init__` by `Entity.Init` |
| `Entities.FirstFailingKeyDecides` | minihass/entity.py:37-67 | construction raises exactly when one of `name`, `category`, `object_id`, `unique_id` or `icon` fails its validator, and then it raises the exception of the first such key in that order |
| `Entities.ConstructSucceedsIff` | minihass/entity.py:37-79 | construction succeeds exactly when every present string key holds a string or `None` and a present category is allowed; the two bool keys accept any value |
| `Entities.ConstructedFields` | minihass/entity.py:37-79 | after construction an absent key gives `None` and an absent `enabled_by_default` gives false; a string attribute holds its argument if that is a non-empty string and `None` otherwise; the category is stored unchanged; `force_update` is the truthiness of its argument; the initial availability is the truthiness of `enabled_by_default` |
| `Entities.ConstructedFieldsNormalized` | minihass/entity.py:39-73 | after construction every string attribute is `None` or a non-empty string, the category is allowed, and `force_update` is `None` or a bool |
| `Entities.UniqueIdOnlyFromItsKey` | minihass/entity.py:57-61 | without the exact key `"unique_id"` the unique-id prefix is `None`, whatever else the map holds |
| `Entities.AvailabilitySet` | minihass/entity.py:86-89 | after the setter the availability is the truthiness of the value, and every other attribute is as before |
| `Entities.AvailabilitySetIdempotent` | minihass/entity.py:86-89 | setting the same availability twice leaves the same state as setting it once |
| `Entities.AvailabilitySetLastWins` | minihass/entity.py:81-89 | after two settings the getter sees only the second value |
| `Entities.Entity.Allocate` | minihass/entity.py:32-35 | an object is allocated only for a class that passed the guard; its attributes hold `None`/false placeholders, where Python leaves them nonexistent, and no caller observes them before `Init` sets them |
| `Entities.Entity.Init` | minihass/entity.py:37-79 | `__init__` raises exactly the exception that `Construct` gives; when it completes, the seven attributes are those of `Construct` |
| `Entities.Entity.SetAvailability` | minihass/entity.py:86-89 | the setter never raises; the availability becomes the truthiness of the value, and nothing else changes |
| `Entities.Entity.PublishAvailability` | minihass/entity.py:91-97 | always returns true and changes no state |
| `Entities.Instantiate` | minihass/entity.py:32-79 | `cls(**kwargs)` raises TypeError for the base class; for a subclass it raises exactly what `Construct` raises, or it returns a fresh object holding `Construct`'s attributes |
| `BinarySensors.ForwardedKwargs` | minihass/binary_sensor.py:45-53 | all seven keys are always passed, the prefix under `"unique_id_prefix"`, and never the key `"unique_id"` |
| `BinarySensors.DefaultArgs` | minihass/binary_sensor.py:35-42 | the signature's defaults: every string parameter and `expire_after` are `None`, `force_update` and `enabled_by_default` are `False` |
| `BinarySensors.ConstructSensor` | minihass/binary_sensor.py:33-55 | what `BinarySensor(...)` builds: `Entity.__init__` on the forwarded keywords (its exception if it raises), then `expire_after` coerced to a bool; stated by the lemmas below and tied to `BinarySensor.New` |
| `BinarySensors.SensorSucceedsIff` | minihass/binary_sensor.py:33-53 | a BinarySensor is built exactly when the name, object id and icon are strings or `None` and the category is allowed |
| `BinarySensors.SensorFieldsMeaning` | minihass/binary_sensor.py:33-55 | a built BinarySensor's unique-id prefix is `None`; `force_update`, availability and `expire_after` are the truthiness of their arguments; the category is stored unchanged; the strings collapse to `None` when empty |
| `BinarySensors.UniqueIdPrefixHasNoEffect` | minihass/binary_sensor.py:49 | changing the `unique_id_prefix` argument, to any value, does not change the outcome |
| `BinarySensors.NoArgumentsSucceeds` | minihass/binary_sensor.py:33-43 | `BinarySensor()` succeeds, with every string attribute `None`, `force_update` false, availability false and `expire_after` false |
| `BinarySensors.SensorCategoryErrors` | minihass/binary_sensor.py:46 | once the name has passed, a category string outside the allowed set raises ValueError, and a category that is neither a string nor `None` raises TypeError |
| `BinarySensors.SensorExample` | minihass/binary_sensor.py:33-55 | `BinarySensor(name="test", category="config", object_id="foo")` stores `"test"`, `"config"` and `"foo"` unchanged |
| `BinarySensors.BinarySensor.Assemble` | minihass/binary_sensor.py:55 | joins the initialised Entity part with the coerced `expire_after` flag |
| `BinarySensors.BinarySensor.New` | minihass/binary_sensor.py:33-55 | `BinarySensor(...)` raises exactly what `ConstructSensor` raises; otherwise it returns a fresh sensor whose attributes are those of `ConstructSensor` |
| `BinarySensors.BinarySensor.SetAvailability` | minihass/entity.py:86-89 | the inherited setter changes the availability to the truthiness of the value and nothing else |

## Left out

- `minihass/device.py`: the constructor only stores its four arguments, and `announce` always raises `NotImplementedError`. There is no logic to model.
- `minihass/const.py`: a prefix string and an unused `QueueMode` enum with no behaviour.
- `minihass/__init__.py` and `minihass/minihass.py` only import names. `__init__.py` imports `Device` and `BinarySensor` from a module that defines neither.
- MQTT publishing, topics, discovery payloads, state queueing, the on-connect handling and chip-id suffixing are not in the modelled revision. `publish_availability` is a stub, and it is modelled as one.
- The hardware-id monkeypatching of `conftest.py`, and the Sphinx configuration under `docs/`.
- Tests written for later revisions: `validate_id_string`, `validate_hostname_string`, `announce`, `state`, the `mqtt_client`, `device_class` and `entity_category` keywords, and the `1337d00d` suffix.
- Python's rejection of unexpected keyword arguments to `BinarySensor(...)` is not modelled. `SensorArgs` has exactly the eight parameters of the signature, so no other keyword can be written. The `_CommandEntity` path takes any keyword map.
- `Object` values stand for every other Python type. They are taken never to compare equal to `None`, so a custom `__eq__` is not modelled. Each one also has a defined truthiness, so a `__bool__` that raises is not modelled, although `validate_bool` and `validate_string` would then raise when they take `bool` of it.
- The partial state an object holds after `__init__` raises midway is not stated. The caller never receives that object.
- Inheritance is modelled by composition: `BinarySensor` holds its `Entity` part as a field. Python's subclass relation and method resolution are not modelled.
