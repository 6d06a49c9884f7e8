/** The errors `run` can end with, and Go's wrapping discipline for them. */
module Errors {
  import opened Wrappers
  import opened GoStrings

  datatype Error =
    /** `errors.New("cannot use both [ref] and --amend")` */
    | Conflict
    /** `fmt.Errorf("resolve ref %q: %w", ref, cause)` */
    | ResolveRefFailed(ref: string, cause: Error)
    /** The runtime panic of indexing `resp.Choices[0]` when a streamed
        response carries no choice. */
    | IndexOutOfRange
    /** An error produced by a collaborator outside this file (git, the
        prompt builder, the HTTP client, the commit subprocess, `os.Getwd`),
        passed on unchanged. */
    | External(detail: string)

  /** `errors.Unwrap`: only the `%w` wrapper has a cause. */
  function Unwrap(e: Error): (r: Option<Error>)
    ensures r.Some? <==> e.ResolveRefFailed?
    ensures r.Some? ==> r.value < e
  {
    match e
    case ResolveRefFailed(_, cause) => Some(cause)
    case _ => None
  }

  /** `errors.Is`: `target` is `e` or somewhere in its chain of causes. */
  predicate Is(e: Error, target: Error)
    decreases e
  {
    e == target || match Unwrap(e) { case Some(c) => Is(c, target) case None => false }
  }

  /** Wrapping with `%w` keeps every error the cause already matched. */
  lemma {:induction false} WrapKeepsChain(ref: string, cause: Error, target: Error)
    requires Is(cause, target)
    ensures Is(ResolveRefFailed(ref, cause), target)
  {
  }

  /** The text `Error()` returns; `quote` is Go's `%q` formatting. The text
      of a wrapped error is the `resolve ref %q: %w` format: the quoted ref,
      then the cause's own text. */
  function Text(e: Error, quote: string -> string): (r: string)
    ensures e.Conflict? ==> r == "cannot use both [ref] and --amend"
    ensures e.ResolveRefFailed? ==>
      r == "resolve ref " + quote(e.ref) + ": " + Text(e.cause, quote)
    ensures e.ResolveRefFailed? ==>
      HasPrefix(r, "resolve ref ") && HasSuffix(r, ": " + Text(e.cause, quote))
  {
    match e
    case Conflict => "cannot use both [ref] and --amend"
    case ResolveRefFailed(ref, cause) => "resolve ref " + quote(ref) + ": " + Text(cause, quote)
    case IndexOutOfRange => "runtime error: index out of range [0] with length 0"
    case External(detail) => detail
  }
}
