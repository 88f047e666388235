/** Small value types shared by the header and resize models. */
module Base {

  /** A value that may be absent (`undefined` in the source). */
  datatype Option<T> = None | Some(value: T)

  /** The result of a handler that may stop with a JavaScript TypeError
      (reading a field of `undefined`). */
  datatype Outcome<T> = Returned(value: T) | Threw

  /** The three pinned column groups, in the order the header lays them out. */
  datatype Pin = Left | Center | Right

  /** Position of a group in the left-to-right layout. */
  function Order(p: Pin): (k: nat)
    ensures k < 3
  {
    match p
    case Left => 0
    case Center => 1
    case Right => 2
  }

  /** One value per pinned group, like the header's `{left, center, right}` records. */
  datatype PerGroup<T> = PerGroup(left: T, center: T, right: T) {

    function Get(pin: Pin): T {
      match pin
      case Left => left
      case Center => center
      case Right => right
    }

    /** The record with the entry of `pin` replaced, as `record[pin] = v` does. */
    function With(pin: Pin, v: T): (r: PerGroup<T>)
      ensures r.Get(pin) == v
      ensures forall q :: q != pin ==> r.Get(q) == Get(q)
    {
      match pin
      case Left => this.(left := v)
      case Center => this.(center := v)
      case Right => this.(right := v)
    }
  }
}
