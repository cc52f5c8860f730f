/** Error values of the IBM Cloud client: opaque SDK errors, the client's own "Not Found" error,
    formatted messages, and errors wrapped with context (github.com/pkg/errors). */
module Errors {
  import opened Seqs

  datatype Error =
    | Sdk(detail: string)                     // an error returned by an IBM Cloud SDK call
    | NotFound                                // *VPCResourceNotFoundError
    | Errorf(text: string)                    // fmt.Errorf, errors.New, errors.Errorf
    | Wrapped(context: string, cause: Error)  // errors.Wrap(cause, context)

  /** The text `Error()` returns: a wrapped error prints its context, a colon and its cause. */
  function Message(e: Error): string
  {
    match e
    case Sdk(detail) => detail
    case NotFound => "Not Found"
    case Errorf(text) => text
    case Wrapped(context, cause) => context + ": " + Message(cause)
  }

  /** Go's %q verb, without its escaping of special characters. */
  function Quote(s: string): string
  {
    "\"" + s + "\""
  }

  /** A wrapped error's message names whatever its context quotes. */
  lemma WrappedNames(prefix: string, name: string, cause: Error)
    ensures Contains(Message(Wrapped(prefix + Quote(name), cause)), name)
  {
    assert Message(Wrapped(prefix + Quote(name), cause))
        == (prefix + "\"") + name + ("\"" + ": " + Message(cause));
    ContainsInfix(prefix + "\"", name, "\"" + ": " + Message(cause));
  }
}
