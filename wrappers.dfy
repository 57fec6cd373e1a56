/** The Option type used for values that Python represents as "absent" or for
    computations that raise instead of returning. */
module Wrappers {

  datatype Option<+T> = None | Some(value: T)

}
