/** Go `error` values as far as the modelled code depends on them: a message
    made by `fmt.Errorf`/`errors.New` (or the text of an opaque foreign error),
    and a message that wraps a cause with `%w`. */
module Errors {
  import opened Wrappers

  datatype Error =
    | Message(text: string)
    | Wrapped(context: string, cause: Error)
  {
    /** What `err.Error()` returns; `fmt.Errorf("ctx: %w", cause)` prints the
        context, a colon, a space and then the cause's own text. */
    function Text(): (s: string)
      ensures Message? ==> s == text
      ensures Wrapped? ==> s == context + ": " + cause.Text()
      ensures Wrapped? ==> |s| > |context| && s[..|context|] == context
    {
      match this
      case Message(t) => t
      case Wrapped(c, e) => c + ": " + e.Text()
    }

    /** `errors.Unwrap`: the wrapped cause, or nil for a plain message. */
    function Unwrap(): (r: Option<Error>)
      ensures r.Some? <==> Wrapped?
      ensures Wrapped? ==> r == Some(cause)
      ensures r.Some? ==> r.value < this
    {
      if Wrapped? then Some(cause) else None
    }
  }

  /** The text `%v` prints for an optional error: its text, or `<nil>`. */
  function OptionText(e: Option<Error>): (s: string)
    ensures e.Some? ==> s == e.value.Text()
    ensures e.None? ==> s == "<nil>"
  {
    if e.Some? then e.value.Text() else "<nil>"
  }

  /** `%q` applied to a string that needs no escapes. */
  function Quote(s: string): (q: string)
    ensures |q| == |s| + 2 && q[0] == '"' && q[|q| - 1] == '"' && q[1..|q| - 1] == s
  {
    "\"" + s + "\""
  }
}
