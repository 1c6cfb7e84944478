/** Python values as the minihass validators receive them, Python's truthiness,
    and the two exception kinds the core raises. */
module PyValues {

  /** A dynamically typed Python value. `Object` stands for a value of any other
      type (a float, a list, an arbitrary object); it carries its own truthiness,
      and it is taken never to compare equal to `None`. */
  datatype Value = None | Str(s: string) | Int(i: int) | Bool(b: bool) | Object(truth: bool)

  /** Python's `bool(v)`: `None`, `""`, `0` and `False` are falsy. */
  predicate Truthy(v: Value)
    ensures !Truthy(v) <==> v in {None, Str(""), Int(0), Bool(false), Object(false)}
  {
    match v
    case None => false
    case Str(s) => s != ""
    case Int(i) => i != 0
    case Bool(b) => b
    case Object(t) => t
  }

  /** The exceptions raised by the validators and constructors. */
  datatype Exc = TypeError | ValueError

  /** A call that either returns a value or raises. */
  datatype Result<+T> = Ok(value: T) | Err(exc: Exc) {
    predicate IsFailure() {
      Err?
    }

    function PropagateFailure<U>(): Result<U>
      requires Err?
    {
      Err(exc)
    }

    function Extract(): T
      requires Ok?
    {
      value
    }
  }

  /** A statement that either completes or raises. */
  datatype Outcome = Done | Raised(exc: Exc)
}
