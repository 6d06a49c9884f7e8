/** Choosing the commit the message is written for: `getLastCommitHash`,
    `resolveRef` and the mode check at the start of `run`. */
module Git {
  import opened Wrappers
  import opened GoStrings
  import opened Errors
  import opened Effects

  /** What `exec.Command("git", "rev-parse", arg).Output()` gives: the raw
      standard output, or the error of a failed run. */
  type RevParse = string -> Result<string, Error>

  /** A successful answer without the white space git puts around it; a
      failure passed on unchanged. */
  function RevParsed(git: RevParse, arg: string): (r: Result<string, Error>)
    ensures r.Ok? <==> git(arg).Ok?
    ensures r.Ok? ==> r.value == TrimSpace(git(arg).value) && IsTrimmed(r.value)
    ensures r.Err? ==> r.error == git(arg).error
  {
    match git(arg)
    case Ok(out) => Ok(TrimSpace(out))
    case Err(e) => Err(e)
  }

  /** `getLastCommitHash` */
  function LastCommitHash(git: RevParse): Result<string, Error>
  {
    RevParsed(git, "HEAD")
  }

  /** `resolveRef` */
  function ResolveRef(git: RevParse, ref: string): Result<string, Error>
  {
    RevParsed(git, ref)
  }

  /** The hash handed to the prompt builder, and the git calls made to get it. */
  datatype Target = Target(hash: Result<string, Error>, calls: seq<Effect>)

  /** Lines 99-115 of `run`: a ref together with `--amend` is refused before
      any git call; `--amend` targets HEAD, whose lookup error is returned as
      it is; a ref targets that ref, whose lookup error is wrapped with the
      ref; with neither the target is "" (the staged changes). At most one
      git call is made and a resolved hash is always trimmed. */
  function ResolveTarget(ref: string, amend: bool, git: RevParse): (t: Target)
    ensures ref != "" && amend ==> t.hash == Err(Conflict) && t.calls == []
    ensures ref == "" && amend ==>
      t.calls == [GitRevParse("HEAD")] && t.hash == RevParsed(git, "HEAD")
    ensures ref != "" && !amend ==>
      t.calls == [GitRevParse(ref)] &&
      (git(ref).Ok? ==> t.hash == Ok(TrimSpace(git(ref).value))) &&
      (git(ref).Err? ==> t.hash == Err(ResolveRefFailed(ref, git(ref).error)))
    ensures ref == "" && !amend ==> t.hash == Ok("") && t.calls == []
    ensures |t.calls| <= 1
    ensures t.hash.Ok? ==> IsTrimmed(t.hash.value)
  {
    if ref != "" && amend then Target(Err(Conflict), [])
    else if amend then Target(LastCommitHash(git), [GitRevParse("HEAD")])
    else if ref != "" then
      match ResolveRef(git, ref)
      case Ok(h) => Target(Ok(h), [GitRevParse(ref)])
      case Err(e) => Target(Err(ResolveRefFailed(ref, e)), [GitRevParse(ref)])
    else Target(Ok(""), [])
  }

  /** The ref error keeps git's error as its cause, so `errors.Is` still
      finds it, and its text names the ref. */
  lemma RefFailureCarriesCause(ref: string, git: RevParse, quote: string -> string)
    requires ref != "" && git(ref).Err?
    ensures var t := ResolveTarget(ref, false, git);
      t.hash.Err? && Unwrap(t.hash.error) == Some(git(ref).error) && Is(t.hash.error, git(ref).error) &&
      HasPrefix(Text(t.hash.error, quote), "resolve ref " + quote(ref)) &&
      Text(t.hash.error, quote) == "resolve ref " + quote(ref) + ": " + Text(git(ref).error, quote)
  {
    var t := ResolveTarget(ref, false, git);
    var text := Text(t.hash.error, quote);
    assert text == "resolve ref " + quote(ref) + ": " + Text(git(ref).error, quote);
    assert text[..|"resolve ref " + quote(ref)|] == "resolve ref " + quote(ref);
  }
}
