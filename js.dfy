/**
 * The slice of JavaScript's value semantics that the table widget relies on:
 * loosely typed values, truthiness, the `||` default idiom, the `> 0` test,
 * plain objects as string-keyed dictionaries, and a thrown TypeError.
 */
module Js {

  datatype Option<+T> = None | Some(value: T)

  /** The table's own methods, handed out as callbacks to its collaborators. */
  datatype Handler = PageChangeHandler | PostFilterHandler

  /**
   * A JavaScript value. Numbers are integers here; a caller's functions and
   * objects (arrays included) are opaque references the model never opens.
   */
  datatype Value =
    | Undefined
    | Null
    | Bool(b: bool)
    | Num(n: int)
    | Str(s: string)
    | TableMethod(handler: Handler)
    | FunctionRef(id: nat)
    | ObjectRef(id: nat)

  /**
   * JavaScript truthiness: exactly `undefined`, `null`, `false`, `0` and `""`
   * are falsy; every object and function, even an empty array, is truthy.
   */
  predicate Truthy(v: Value)
    ensures !Truthy(v) <==> v == Undefined || v == Null || v == Bool(false) || v == Num(0) || v == Str("")
  {
    match v
    case Undefined => false
    case Null => false
    case Bool(b) => b
    case Num(n) => n != 0
    case Str(s) => s != ""
    case TableMethod(_) => true
    case FunctionRef(_) => true
    case ObjectRef(_) => true
  }

  /** Whether `v.apply(...)` can be called without a TypeError. */
  predicate Callable(v: Value)
    ensures Callable(v) ==> Truthy(v)
    ensures Callable(v) <==> !(v.Undefined? || v.Null? || v.Bool? || v.Num? || v.Str? || v.ObjectRef?)
  {
    v.TableMethod? || v.FunctionRef?
  }

  /**
   * JavaScript's `v > 0`: `true` counts as 1, `null` as 0, `undefined` and
   * functions as NaN. An opaque `ObjectRef` is taken to be a plain object,
   * whose string form `[object Object]` is NaN as well.
   */
  predicate GreaterThanZero(v: Value)
    ensures GreaterThanZero(v) ==> Truthy(v)
  {
    match v
    case Bool(b) => b
    case Num(n) => n > 0
    case _ => false
  }

  /**
   * JavaScript's `a || b`, which is also what `if (a) x = a;` leaves in a
   * variable `x` that held `b` before.
   */
  function Or(a: Value, b: Value): (r: Value)
    ensures Truthy(r) <==> Truthy(a) || Truthy(b)
  {
    if Truthy(a) then a else b
  }

  /** A plain object; a key it does not hold reads as `undefined`. */
  type Obj = map<string, Value>

  function Get(o: Obj, key: string): (r: Value)
    ensures key in o ==> r == o[key]
    ensures key !in o ==> r == Undefined && !Truthy(r)
  {
    if key in o then o[key] else Undefined
  }

  /** The outcome of a statement sequence that may throw a TypeError. */
  datatype Result<+T> = Ok(value: T) | TypeError
}
