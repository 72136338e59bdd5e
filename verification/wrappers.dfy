/** Failure-compatible wrappers shared by every module of the model. */
module Wrappers {

  /** Swift's `Optional`: `nil` is `None`. */
  datatype Option<+T> = None | Some(value: T)

  /** Swift's `Result<Success, Failure>`, as delivered to a read completion. */
  datatype Result<+T, +E> = Success(value: T) | Failure(error: E)
}

/** The persistence service's side of the app: what a read completion delivers. */
module Store {
  import opened Wrappers

  /** An error propagated by the persistence service; its content is opaque here. */
  datatype StoreError = StoreError(description: string)

  /** The value handed to a read's completion. */
  type ReadResult<T> = Result<T, StoreError>
}

/**
 * Localised text, kept symbolic: the app's strings come from
 * `NSLocalizedString`/`FOSLocalizedString` lookups whose tables are not
 * part of this model, so a string is identified by its key.
 */
module Localization {

  datatype LocalizedString =
    | Localized(key: string)                      // NSLocalizedString(key, comment: "")
    | LocalizedFormat(key: string, argument: string)  // FOSLocalizedString(format: key, argument)
    | Verbatim(text: string)                      // a literal that is not looked up
}
