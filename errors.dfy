/**
 * The error values of errors.go. NewErr builds a fresh error from a formatted
 * text; WrapIfErr annotates an existing error with a context message, and
 * github.com/pkg/errors renders such an error as "<context>: <cause>".
 * The " (file: …, line: …)" position that getErrorPos appends when
 * AppendErrPos is set is not modelled (it depends on runtime.Caller).
 */
module Errors {
  import opened Wrappers

  /** An error as the package builds it: a leaf made by NewErr, or a cause wrapped with a context. */
  datatype Error = Leaf(text: string) | Wrapped(context: string, cause: Error)

  /** The text `err.Error()` returns. */
  function Message(e: Error): (s: string)
    ensures e.Leaf? ==> s == e.text
    ensures e.Wrapped? ==> IsPrefix(e.context + ": ", s) && IsSuffix(Message(e.cause), s)
    ensures e.Wrapped? ==> |s| == |e.context| + 2 + |Message(e.cause)|
  {
    match e
    case Leaf(t) => t
    case Wrapped(c, cause) => c + ": " + Message(cause)
  }

  /**
   * A helper of this model: the innermost error of the chain that WrapIfErr
   * builds (what pkg/errors' `Cause` would return, though the Go code never
   * calls it). Its contract only says the result is a leaf; which leaf is
   * pinned down by WrapIfErr and RootCauseEndsMessage.
   */
  function RootCause(e: Error): (r: Error)
    ensures r.Leaf?
    ensures e.Leaf? ==> r == e
  {
    match e
    case Leaf(_) => e
    case Wrapped(_, cause) => RootCause(cause)
  }

  /** The message of the root cause ends the message of every error wrapped around it. */
  lemma {:induction false} RootCauseEndsMessage(e: Error)
    ensures IsSuffix(Message(RootCause(e)), Message(e))
  {
    match e
    case Leaf(_) =>
    case Wrapped(c, cause) =>
      RootCauseEndsMessage(cause);
      var m, mc, mr := Message(e), Message(cause), Message(RootCause(e));
      assert m[|m| - |mc|..] == mc;
      assert mc[|mc| - |mr|..] == mr;
      assert m[|m| - |mr|..] == mc[|mc| - |mr|..];
  }

  /** An error wrapped twice opens with both contexts, outer first. */
  lemma TwoContextsOpenMessage(outer: string, inner: string, e: Error)
    ensures IsPrefix(outer + ": " + inner + ": ", Message(Wrapped(outer, Wrapped(inner, e))))
  {
    var p := outer + ": " + inner + ": ";
    assert Message(Wrapped(outer, Wrapped(inner, e))) == p + Message(e);
  }

  /**
   * WrapIfErr with a context message: nil in gives nil out; otherwise the
   * result reads "<context>: " followed by the cause's own message, and
   * keeps the cause's root.
   */
  function WrapIfErr(err: Option<Error>, context: string): (r: Option<Error>)
    ensures r.None? <==> err.None?
    ensures r.Some? ==> IsPrefix(context + ": ", Message(r.value))
    ensures r.Some? ==> IsSuffix(Message(err.value), Message(r.value))
    ensures r.Some? ==> RootCause(r.value) == RootCause(err.value)
    ensures r.Some? ==> r.value == Wrapped(context, err.value)
  {
    match err
    case None => None
    case Some(e) => Some(Wrapped(context, e))
  }
}
