/** A Go pointer to a struct whose fields are changed in place. */
module Heap {
  class Ref<T> {
    var v: T

    constructor (v: T)
      ensures this.v == v
    {
      this.v := v;
    }
  }
}
