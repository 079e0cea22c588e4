/** The optional-value wrapper used across the model: a decoded frame that may be
    missing, an event an adapter may drop, a token a header may not carry. */
module Wrappers {

  datatype Option<+T> = None | Some(value: T)

}
