/** Failures the Python code raises, as values.  `ai.py` and `train.py`
    never catch them: a `KeyError` from a dictionary lookup or an
    `IndexError` from `random.choice` on an empty list ends the reply being
    built, and in `test_model` it ends the whole loop over the docs. */
module Errors {

  datatype Error =
    | KeyError(key: string)   // `label_dict[key]` with `key` absent
    | IndexError              // `random.choice` of an empty list

  datatype Option<+T> = None | Some(value: T)

  /** A value or the error raised while computing it. */
  datatype Result<+T> = Ok(value: T) | Err(error: Error)
}
