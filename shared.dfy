/** Values shared by the signup wizard and the password-reset view. */
module Shared {

  datatype Option<+T> = None | Some(value: T)

  /** What an awaited request produced. `Ok` is a response body that was
      decoded (its `success` flag and `message` field); `Thrown` is an error
      caught by the handler, with the message it carries. A message that is
      absent or undefined in the source is the empty string here: both are
      falsy for JavaScript's `||`. */
  datatype Outcome =
    | Ok(success: bool, message: string)
    | Thrown(message: string)

  /** JavaScript's `message || fallback` on strings: the empty string is falsy. */
  function OrElse(message: string, fallback: string): (r: string)
    ensures r == message || r == fallback
    ensures fallback != "" ==> r != ""
    ensures message != "" ==> r == message
  {
    if message != "" then message else fallback
  }

  /** The external signup origin that every "return" and redirect leads to. */
  const SignupOrigin := "https://signup.thelivingroomloja21.com"
}
