/** The optional value used for every field the source reads with `dict.get` and for
    every fetch that may fail. */
module Wrappers {

  datatype Option<+T> = None | Some(value: T) {

    /** The value, or `default` when absent (Python's `d.get(key, default)`). */
    function GetOr(default: T): T {
      match this
      case Some(v) => v
      case None => default
    }
  }

  /** Python truthiness of an optional number: absent and zero are both false. */
  predicate Truthy(x: Option<real>) {
    x.Some? && x.value != 0.0
  }

  /** Python truthiness of an optional count. */
  predicate TruthyNat(x: Option<nat>) {
    x.Some? && x.value != 0
  }

  /** Python's `a or b` on optional numbers: `a` when it is truthy, else `b`. */
  function Or(a: Option<real>, b: Option<real>): (r: Option<real>)
    ensures Truthy(r) <==> Truthy(a) || Truthy(b)
    ensures Truthy(a) ==> r == a
  {
    if Truthy(a) then a else b
  }

  /** Python's `a or b` on optional counts. */
  function OrNat(a: Option<nat>, b: Option<nat>): (r: Option<nat>)
    ensures TruthyNat(r) <==> TruthyNat(a) || TruthyNat(b)
    ensures TruthyNat(a) ==> r == a
  {
    if TruthyNat(a) then a else b
  }
}
