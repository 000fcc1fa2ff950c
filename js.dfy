/** Values that the JavaScript side passes around: nullable values, thrown
    errors, and the outcome of a call into code outside the model (the
    database client, the browser's media APIs). */
module Js {

  /** `null` / `undefined` versus a present value. */
  datatype Option<+T> = None | Some(value: T) {
    function GetOr(default: T): T {
      match this
      case Some(v) => v
      case None => default
    }
  }

  /** A thrown `Error` (or `DOMException`): its `name` and its `message`. */
  datatype JsError = JsError(name: string, message: string)

  /** The outcome of one awaited foreign call: a value, or the error it rejected with. */
  datatype Attempt<+T> = Ok(value: T) | Fail(error: JsError)

  /** The outcome of a database write that returns no row (`{ error }`). */
  datatype WriteOutcome = Written | WriteFailed(error: JsError)

  /** Whether a nullable string is truthy in JavaScript: present and not "". */
  predicate Truthy(s: Option<string>) {
    s.Some? && s.value != ""
  }

  /** `s || null` for a string: the empty string becomes null. */
  function OrNull(s: string): (r: Option<string>)
    ensures r.None? <==> s == ""
    ensures r.Some? ==> r.value == s
  {
    if s == "" then None else Some(s)
  }

  /** `s || ""` for a nullable string: null becomes the empty string. */
  function OrEmpty(o: Option<string>): (r: string)
    ensures o.None? ==> r == ""
    ensures o.Some? ==> r == o.value
  {
    if o.None? then "" else o.value
  }

  /** A form field loaded with `|| ""` and saved with `|| null` gives back
      the stored value, except that a stored empty string comes back null;
      a field typed as text and round-tripped the other way is unchanged. */
  lemma NullEmptyRoundTrip(o: Option<string>, s: string)
    ensures OrNull(OrEmpty(o)) == (if o == Some("") then None else o)
    ensures OrEmpty(OrNull(s)) == s
  {
  }
}
