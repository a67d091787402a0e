/** The optional value used for the dataset source: None stands for a fetch that failed. */
module Wrappers {

  datatype Option<+T> = None | Some(value: T)

}
