/** Optional values, Python exceptions as values, and results that carry one or the other. */
module Wrappers {

  datatype Option<+T> = None | Some(value: T)

  /** The exceptions the modelled code can raise; each is the error value of a failed call. */
  datatype PyError =
    | AssertionError     // a failed `assert`
    | IndexError         // indexing past the end of a list
    | ValueError         // `max` of an empty list, a negative `np.pad` width, `np.stack` of unequal shapes
    | TypeError          // comparing `None` with an integer, slicing a string with a tuple
    | AttributeError     // reading an attribute that `__init__` never set
    | ZeroDivisionError  // dividing by a batch size of zero

  datatype Result<+T> = Ok(value: T) | Err(error: PyError)
}
