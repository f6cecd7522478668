/** Optional values, the failures the stability core raises, and results that carry them. */
module Outcomes {

  datatype Option<T> = None | Some(value: T)

  /** Every failure the core raises: each is a ValueError (or a KeyError for a missing
      dictionary entry) in the program, here a value the caller can inspect. */
  datatype Error =
    | NotLoaded                               // a table was never loaded
    | MissingProperty(name: string)           // a hydrostatic column or result entry is absent
    | EmptyData                               // min()/max() over an empty column
    | DraftOutOfRange(draft: real)            // draft outside the tabulated drafts
    | AngleOutOfRange(angle: real)            // heel angle negative or above the largest stored one
    | DisplacementOutOfRange(displacement: real)  // displacement outside a KN curve's span
    | NoBracketingAngle(angle: real)          // max()/min() over an empty list of stored angles

  datatype Result<T> = Ok(value: T) | Err(error: Error)
}
