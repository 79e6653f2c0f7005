/** Values shared by every module: optional values and the ways an awaited call ends. */
module Common {

  datatype Option<T> = None | Some(value: T)

  /** What a failing call throws: an `Error` object with its `message`, or a non-null value without one. */
  datatype Thrown = ErrorObject(message: string) | NonError

  /** How an awaited call that yields nothing ends: it resolves, or it rejects with a thrown value. */
  datatype Outcome = Done | Threw(thrown: Thrown)

  /** How an awaited call that yields a value ends. */
  datatype Result<T> = Success(value: T) | Failure(thrown: Thrown)

  /** `err.message || fallback`: an Error's message unless it is empty; otherwise the fallback. */
  function MessageOr(t: Thrown, fallback: string): string
  {
    if t.ErrorObject? && t.message != "" then t.message else fallback
  }

  /** `err instanceof Error ? err.message : fallback`: an Error's message even when empty. */
  function InstanceMessage(t: Thrown, fallback: string): string
  {
    if t.ErrorObject? then t.message else fallback
  }

  /** `!!o` for an optional string: present and non-empty. */
  predicate TruthyText(o: Option<string>)
  {
    o.Some? && o.value != ""
  }

  /** `o || ''` for an optional string: its text, or "" when it is missing. */
  function TextOf(o: Option<string>): string
  {
    if o.Some? then o.value else ""
  }

  /** `obj[key]` for a string dictionary whose missing entries read as the empty string. */
  function Get(m: map<string, string>, key: string): string
  {
    if key in m then m[key] else ""
  }
}
