/** Optional values, the failures the pipeline can raise, and a result type carrying either. */
module Outcomes {

  /** Python's `None` versus a present value. */
  datatype Option<+T> = None | Some(value: T)

  /** The exceptions that escape the extraction and scoring functions.
      Each constructor names the Python failure it stands for. */
  datatype Error =
    | JsonNotFound          // no `{ ... }` substring; the source means to raise a JSON decoding error
    | IndustryNotText       // `.lower()` called on a non-string industry (AttributeError)
    | NoRecord              // `rank_companies(None)`: `.get` on None (AttributeError)
    | UnhashableIndustry    // the industry key used for the table lookup is a dict or list (TypeError)
    | MissingField(key: string)  // `company_data[key]` on an absent key (KeyError)
    | NotNumeric(key: string)    // `value / max_value` on a non-number (TypeError)

  /** Either the value computed or the exception raised. */
  datatype Result<+T> = Ok(value: T) | Fail(error: Error)
}
