/** How an awaited callback settled, as the dialogs' `try`/`catch` see it. */
module Settled {
  import opened Wrappers

  /** `Resolved`, or `Threw` with the message of the thrown `Error` (`None`
      when the thrown value is not an `Error`). */
  datatype Settled = Resolved | Threw(errorMessage: Option<string>)

  /** `err instanceof Error ? err.message : fallback` */
  function CaughtText(errorMessage: Option<string>, fallback: string): (text: string)
    ensures errorMessage.Some? ==> text == errorMessage.value
    ensures errorMessage.None? ==> text == fallback
  {
    errorMessage.GetOr(fallback)
  }
}
