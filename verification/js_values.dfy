/**
 * JavaScript values as the option bags of the slider initialiser see them.
 *
 * An option bag is a plain object; its properties are a `map` from key to
 * value, and a property that is `undefined` is a key that is absent.
 * Numbers are reals (the model does not round to doubles); `NaN` is kept
 * apart because `parseInt` and `parseFloat` produce it and `typeof NaN` is
 * still "number".
 */
module JsValues {

  datatype Option<T> = None | Some(value: T)

  datatype Value =
    | Null
    | Bool(b: bool)
    | Num(n: real)
    | NaN
    | Str(s: string)
    | Arr(items: seq<Value>)
    | Obj(fields: map<string, Value>)

  type Fields = map<string, Value>

  /** How a statement of the script ended: normally, or by throwing a TypeError. */
  datatype Completion<T> = Normal(value: T) | Throw

  /**
   * The parsing built-ins the script calls, taken as given functions
   * (None stands for NaN or for a SyntaxError):
   *   parseInt(s, 10), parseFloat(s), JSON.parse(s), and Number(s), the
   *   coercion `Math.max` applies to a string argument.
   */
  datatype Builtins = Builtins(
    parseInt: string -> Option<int>,
    parseFloat: string -> Option<real>,
    parseJson: string -> Option<Value>,
    stringToNumber: string -> Option<real>)

  /** JavaScript truthiness (ToBoolean). */
  predicate Truthy(v: Value) {
    match v
    case Null => false
    case Bool(b) => b
    case Num(n) => n != 0.0
    case NaN => false
    case Str(s) => s != ""
    case Arr(_) => true
    case Obj(_) => true
  }

  /** Truthiness of a property read: an absent key reads as `undefined`, which is falsy. */
  predicate TruthyOpt(o: Option<Value>) {
    o.Some? && Truthy(o.value)
  }

  /** Reading `bag[key]`: None when the key is absent (`undefined`). */
  function Lookup(bag: Fields, key: string): Option<Value> {
    if key in bag then Some(bag[key]) else None
  }

  /** Two bags that read the same at every key are the same bag. */
  lemma LookupExtensional(a: Fields, b: Fields)
    requires forall k :: Lookup(a, k) == Lookup(b, k)
    ensures a == b
  {
    forall k | k in a ensures k in b && a[k] == b[k] {
      assert Lookup(a, k) == Lookup(b, k);
    }
    forall k | k in b ensures k in a {
      assert Lookup(a, k) == Lookup(b, k);
    }
  }
}
