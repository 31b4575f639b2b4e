/** Types shared by every part of the model: optional values, error results,
    the JavaScript values that cross module boundaries, and 3-vectors. */
module Common {

  datatype Option<+T> = None | Some(value: T)

  /** An operation that either completes with a value or throws. */
  datatype Result<+T> = Ok(value: T) | Err(error: string)

  /** A JavaScript value as it reaches the modelled code.  Interpreter and
      game objects are opaque handles; only the shapes the modelled code
      inspects are spelled out. */
  datatype JsValue =
    | Undefined
    | Null
    | Num(n: int)
    | Str(s: string)
    | Opaque(handle: nat)

  /** JavaScript truthiness of the modelled values (an opaque object is truthy). */
  predicate Truthy(v: JsValue)
  {
    match v
    case Undefined => false
    case Null => false
    case Num(n) => n != 0
    case Str(s) => s != ""
    case Opaque(_) => true
  }

  /** A `vec3` of gl-matrix, with reals in place of 32-bit floats. */
  datatype Vec3 = Vec3(x: real, y: real, z: real)

  /** A non-empty set has a member to pick. */
  lemma NonEmptyHasMember(s: set<int>)
    requires s != {}
    ensures exists x :: x in s
  {
    if forall x :: x !in s {
      assert false;
    }
  }
}
