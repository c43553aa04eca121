/** The optional value used throughout the model: `None` stands for a
    JavaScript `undefined`/`null` or for a lookup that found nothing. */
module Wrappers {

  datatype Option<+T> = None | Some(value: T)
}
