/** The absent/present value the game uses for "no area chosen yet" and for an empty result slot. */
module Wrappers {

  datatype Option<+T> = None | Some(value: T)
}
