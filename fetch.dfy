/**
 * The outcome of a network call, as the widgets observe it. Nothing here
 * performs I/O: `fetch(...)` and `response.json()` are replaced by the
 * value they resolve to or the value they throw, supplied as inputs.
 */
module Fetch {

  datatype Option<T> = None | Some(value: T)

  /**
   * A value thrown into a `catch` block: an `Error` object (its `name` and
   * `message`; an abort is an `Error` named "AbortError") or any other value.
   */
  datatype Thrown = ErrorObject(name: string, message: string) | NonError

  /** What `await fetch(...)` does: resolve with a response status, or throw. */
  datatype FetchResult = Resolved(status: nat) | Rejected(thrown: Thrown)

  /** What `await response.json()` does: yield the decoded body, or throw. */
  datatype Parsed<T> = Parsed(value: T) | ParseFailed(thrown: Thrown)

  /** `Response.ok`: the status is one of the hundred 2xx codes. */
  function Ok(status: nat): (b: bool)
    ensures b <==> status / 100 == 2
  {
    200 <= status <= 299
  }

  /** `err instanceof Error ? err.message : "Unknown error"`. */
  function ThrownMessage(t: Thrown): (m: string)
    ensures t.ErrorObject? ==> m == t.message
    ensures t.NonError? ==> m == "Unknown error"
  {
    match t
    case ErrorObject(_, message) => message
    case NonError => "Unknown error"
  }

  /** JavaScript truthiness of an optional string field: present and non-empty. */
  function Truthy(s: Option<string>): (b: bool)
    ensures b <==> s.Some? && |s.value| > 0
  {
    s.Some? && s.value != ""
  }

  /** `s || fallback` for an optional string field. */
  function OrElse(s: Option<string>, fallback: string): (r: string)
    ensures Truthy(s) ==> r == s.value
    ensures !Truthy(s) ==> r == fallback
    ensures r == "" ==> fallback == ""
  {
    if Truthy(s) then s.value else fallback
  }
}
