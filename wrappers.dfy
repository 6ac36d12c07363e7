/** Option, standing for a nullable pointer or an `Omittable<T>` of the
    original program. */
module Wrappers {

  datatype Option<+T> = None | Some(value: T)
}
