/**
 * A delivery type: a named price multiplier such as express or regular
 * delivery. It has no setters, so a value models it exactly; the getters
 * `getId`, `getName` and `getCoefficient` are the datatype's destructors
 * and return the constructor's arguments unchanged.
 */
module DeliveryTypes {

  /** The coefficient is 1 when the constructor is called without one. */
  datatype DeliveryType = DeliveryType(id: int, name: string, coefficient: int := 1)

  /** Omitting the coefficient gives 1; an explicit coefficient is kept as given. */
  lemma CoefficientDefault(id: int, name: string, coefficient: int)
    ensures DeliveryType(id, name).coefficient == 1
    ensures DeliveryType(id, name, coefficient).coefficient == coefficient
    ensures DeliveryType(id, name, coefficient).id == id
    ensures DeliveryType(id, name, coefficient).name == name
  {
  }
}
