/** A std::atomic_bool, shared by reference. */
module Atomic {
  class AtomicBool {
    var value: bool

    constructor (value: bool)
      ensures this.value == value
    {
      this.value := value;
    }
  }
}
