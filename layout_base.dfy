/**
 * What the two JSON layouts share from the base layout they extend: the
 * result a layout returns for an event, and the base layout's own default for
 * including the timestamp.
 */
module LayoutBase {
  import opened Wrappers
  import opened Formatter

  /** What a layout returns for a non-empty map: the formatter's text, or the exception it throws. */
  function LayoutOutcome(r: Result<string, FormatError>): Result<Option<string>, FormatError> {
    match r
    case Success(text) => Success(Some(text))
    case Failure(e) => Failure(e)
  }

  /** The base layout's own default for including the timestamp; neither factory changes it. */
  const LAYOUT_INCLUDE_TIMESTAMP: bool := true
}
