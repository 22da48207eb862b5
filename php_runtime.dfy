/**
 * The few pieces of PHP runtime behaviour the carrier core depends on:
 * nullable values, thrown errors, truthiness of a nullable int and the
 * truncating remainder operator.
 */
module PhpRuntime {

  /** A nullable PHP value: `None` is `null`. */
  datatype Option<+T> = None | Some(value: T)

  /** Why a call ends with an exception instead of a return value. */
  datatype Fault =
    | TransportModelNotFound(transportModelId: int)  // the models repository cannot resolve the id
    | DeliveryTypeNotFound(deliveryTypeId: int)      // the delivery-types repository cannot resolve the id
    | ClientNotFound(clientId: int)                  // the clients repository cannot resolve the id
    | DeliveryTypesNotAnArray(returned: Option<int>) // an `: array` method returned an int or null
    | UnknownDestination(toAddress: string)          // no entry in the distance table
    | DivisionByZero                                 // the effective speed is 0
    | UnparsableDate(startDate: string)              // DateTime rejects the start date

  /** The result of a PHP call: a returned value or a thrown error. */
  datatype Outcome<+T> = Returned(value: T) | Thrown(fault: Fault)

  /** PHP truthiness of a nullable int: null and 0 are false, every other int is true. */
  predicate Truthy(v: Option<int>) {
    v.Some? && v.value != 0
  }

  /**
   * PHP's `a % 2`: the remainder takes the sign of the dividend (PHP
   * truncates toward zero), so an odd negative number leaves -1, where
   * Dafny's Euclidean `%` leaves 1.
   */
  function PhpRemainderByTwo(a: int): (r: int)
    ensures -2 < r < 2 && (a - r) % 2 == 0
    ensures a >= 0 ==> r >= 0
    ensures a < 0 ==> r <= 0
    ensures r == 0 <==> a % 2 == 0
    ensures r != 0 <==> a % 2 == 1
  {
    if a < 0 then -((-a) % 2) else a % 2
  }
}
