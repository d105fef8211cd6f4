/**
 * A mutable place holding a plain value. The compound-assignment operators
 * (`+=`, `-=`, `*=`, `/=`) and `IndexMut` of the library take `&mut self`;
 * they are modelled as methods that update the value stored in a `Place`.
 */
module Places {
  class Place<T> {
    var value: T

    constructor (v: T)
      ensures value == v
    {
      value := v;
    }
  }
}
