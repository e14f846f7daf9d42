/** Optional value used for the outcome of deserializing one sentiment record and for the
    chart layout, which does not exist for an empty score table or an empty list of legend
    names. */
module Wrappers {

  datatype Option<+T> = None | Some(value: T)
}
