/** Small shared vocabulary: optional values, results, and the errors the
    system raises, reduced to their message text. */
module Base {

  /** A value that may be absent; JavaScript's `undefined`/`null`. */
  datatype Option<+T> = None | Some(value: T)

  /** Either a value or a raised error. */
  datatype Result<+T, +E> = Ok(value: T) | Err(error: E)

  /** A raised JavaScript error, reduced to its `message`. */
  datatype Failure = Failure(message: string)

  /** JavaScript truthiness of an optional string: absent and "" are both falsy. */
  predicate Truthy(o: Option<string>) {
    o.Some? && o.value != ""
  }

  /** The JavaScript expression `o || fallback` on an optional string. */
  function OrElse(o: Option<string>, fallback: string): string {
    if Truthy(o) then o.value else fallback
  }

  /** How a template literal renders an optional string (`${x}`). */
  function TemplateText(o: Option<string>): string {
    match o
    case Some(s) => s
    case None => "undefined"
  }

  /** The head and tail of a concatenation whose first part is not empty. */
  lemma AppendSplits<T>(a: seq<T>, b: seq<T>)
    requires a != []
    ensures (a + b)[0] == a[0] && (a + b)[1..] == a[1..] + b
  {
  }
}
