/** Small failure-compatible helper types shared by the models. */
module Wrappers {

  /** An optional value: the model of base::Optional / std::optional. */
  datatype Option<+T> = None | Some(value: T)
}
