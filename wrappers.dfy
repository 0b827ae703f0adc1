/** An optional value: the occlusion oracle's "hit or no hit" and a material slot
    that has not been filled yet. */
module Wrappers {

  datatype Option<+T> = None | Some(value: T)

}
