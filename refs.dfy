/** React's `MutableRefObject`: a box whose `current` property components
    overwrite. */
module Refs {
  class Ref<T> {
    var current: T

    constructor(v: T)
      ensures current == v
    {
      current := v;
    }
  }
}
