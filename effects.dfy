/** The externally visible things one invocation of `run` does, in order. */
module Effects {
  import opened Chat

  datatype Effect =
    /** `git rev-parse <arg>` */
    | GitRevParse(arg: string)
    /** `fastcommit.BuildPrompt(os.Stdout, workdir, hash, amend, budget)` */
    | BuildPrompt(workdir: string, hash: string, amend: bool, budget: nat)
    /** `client.CreateChatCompletionStream(ctx, request)` */
    | OpenStream(request: Request)
    /** A streamed fragment written to standard output as it arrives. */
    | Echo(text: string)
    /** A line written to standard output by the dry run. */
    | Print(text: string)
    /** `cmd.Run()` of the commit command, with inherited standard streams. */
    | RunCommand(path: string, args: seq<string>)
    /** The deferred `stream.Close()`. */
    | CloseStream

  predicate IsRun(e: Effect) { e.RunCommand? }
  predicate IsClose(e: Effect) { e.CloseStream? }
  predicate IsPrint(e: Effect) { e.Print? }

  /** How many entries of `log` satisfy `p`. */
  function Count(log: seq<Effect>, p: Effect -> bool): (n: nat)
    ensures n <= |log|
    ensures n == 0 <==> forall i :: 0 <= i < |log| ==> !p(log[i])
  {
    if log == [] then 0 else (if p(log[0]) then 1 else 0) + Count(log[1..], p)
  }

  lemma {:induction false} CountAppend(a: seq<Effect>, b: seq<Effect>, p: Effect -> bool)
    ensures Count(a + b, p) == Count(a, p) + Count(b, p)
  {
    if a == [] {
      assert a + b == b;
    } else {
      assert (a + b)[1..] == a[1..] + b;
      CountAppend(a[1..], b, p);
    }
  }
}
