/** The optional value used wherever the source uses a nullable reference
    (a null run time, a null event, a null primary time). */
module Wrappers {

  datatype Option<+T> = None | Some(value: T)

}
