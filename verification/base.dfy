/** Values shared by every route handler: optional request fields, JavaScript
    truthiness as the handlers use it in `input || current`, HTTP replies and
    outgoing e-mails. */
module Base {

  /** A request-body field that may be absent (`undefined`). */
  datatype Option<+T> = None | Some(value: T)

  /** A MongoDB ObjectId in its string form. */
  type Id = string

  /** What a route sends back: a status code with a JSON value, or a status
      code with a `{ message }` body. */
  datatype Reply<+T> = Ok(code: nat, value: T) | Fail(code: nat, message: string)

  /** One call of `sendEmail({ email, subject, message })`. */
  datatype Email = Email(to: string, subject: string, message: string)

  // Stand-ins for the `err.message` of errors thrown by collaborators: the
  // schema validator, a property read on `null`, and the mail transport.
  const ValidationError := "ValidationError"
  const TypeError := "TypeError"
  const MailError := "MailError"

  function Lookup<K, V>(m: map<K, V>, k: K): Option<V>
  {
    if k in m then Some(m[k]) else None
  }

  /** A string field is truthy when present and not empty. */
  predicate TruthyText(x: Option<string>)
  {
    x.Some? && x.value != ""
  }

  /** A number field is truthy when present and not 0. */
  predicate TruthyNumber(x: Option<int>)
  {
    x.Some? && x.value != 0
  }

  /** `input || current` for a string the record always has. */
  function OrText(input: Option<string>, current: string): string
  {
    if TruthyText(input) then input.value else current
  }

  /** `input || current` for an optional string. */
  function OrOptText(input: Option<string>, current: Option<string>): Option<string>
  {
    if TruthyText(input) then input else current
  }

  /** `input || current` for a number the record always has. */
  function OrNumber(input: Option<int>, current: int): int
  {
    if TruthyNumber(input) then input.value else current
  }

  /** `input || current` for an optional number. */
  function OrOptNumber(input: Option<int>, current: Option<int>): Option<int>
  {
    if TruthyNumber(input) then input else current
  }

  /** `input || current` for an array: an array is truthy even when empty. */
  function OrList<T>(input: Option<seq<T>>, current: Option<seq<T>>): Option<seq<T>>
  {
    if input.Some? then input else current
  }

  /** `part` occurs in `s`. */
  ghost predicate Mentions(s: string, part: string)
  {
    exists i :: 0 <= i <= |s| && part <= s[i..]
  }

  /** An occurrence at a known position is an occurrence. */
  lemma MentionsAt(s: string, part: string, i: nat)
    requires i <= |s| && part <= s[i..]
    ensures Mentions(s, part)
  {
  }
}
