/** The optional-value datatype used throughout the model: `None` stands for
    JavaScript's `null`/`undefined` where the source distinguishes only
    "absent" from "present". */
module Wrappers {

  datatype Option<+T> = None | Some(value: T)
}
