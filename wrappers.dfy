/** The optional value used for the nullable `string | null` state cell and
    for the result of a camera call that may have no camera to call. */
module Wrappers {

  datatype Option<T> = None | Some(value: T)

}
