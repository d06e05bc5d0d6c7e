/** Values shared by the pages and server actions: JavaScript's nullable values,
    the replies the server actions send back to the browser, the toasts the
    client shows, and JavaScript's `||` fallback on strings. */
module Common {

  /** A value that may be `null` or `undefined`. */
  datatype Option<+T> = None | Some(value: T)

  /** The outcome of one database call: the returned value, or the error
      message the client library reports. */
  datatype Result<+T> = Ok(value: T) | Err(message: string)

  /** What a server action hands back to the client component that awaited it.
      `ErrorReply` is `{ error: message }`, `SuccessReply` is `{ success: true }`
      and `NoReply` is the `undefined` seen when the action ended in a redirect
      or fell off its end. */
  datatype Reply = ErrorReply(message: string) | SuccessReply | NoReply

  /** A `sonner` toast. */
  datatype Toast = ErrorToast(text: string) | SuccessToast(text: string)

  /** JavaScript truthiness of a string: only the empty string is falsy. */
  predicate Truthy(s: string) {
    s != ""
  }

  /** Truthiness of `result?.error`: an error reply whose message is not empty. */
  predicate HasError(r: Reply) {
    r.ErrorReply? && Truthy(r.message)
  }

  /** `x || fallback` for a nullable string `x`: `null`, `undefined` and `""`
      all give the fallback. */
  function OrElse(x: Option<string>, fallback: string): (r: string)
    ensures x.Some? && Truthy(x.value) ==> r == x.value
    ensures !(x.Some? && Truthy(x.value)) ==> r == fallback
    ensures Truthy(fallback) ==> Truthy(r)
  {
    match x
    case Some(s) => if s != "" then s else fallback
    case None => fallback
  }

  /** The `type` of a password input with a show-password switch, as both
      auth forms render it: plain text while the password is shown. */
  function PasswordInputType(showPassword: bool): (t: string)
    ensures t == "text" <==> showPassword
    ensures t == "password" <==> !showPassword
  {
    if showPassword then "text" else "password"
  }
}
