/** What one invocation of `run` is guaranteed to do and not to do. */
module Properties {
  import opened Wrappers
  import opened GoStrings
  import opened Errors
  import opened ArgFlags
  import opened Chat
  import opened Effects
  import opened Git
  import opened Stream
  import opened Command
  import opened Sanitize
  import opened Fastcommit

  /** A ref together with `--amend` ends the run with the conflict error
      before anything is done: no git call, no prompt, no stream. */
  lemma ConflictMakesNoCall(f: Flags, ref: string, env: Env)
    requires env.workdir.Ok? && ref != "" && f.amend
    ensures Pipeline(f, ref, env) == Outcome(Some(Conflict), [])
  {
  }

  /** A failed HEAD lookup ends an `--amend` run with git's own error; a
      failed ref lookup ends the run with git's error wrapped with the ref.
      In both cases the lookup is the only thing done. */
  lemma ResolutionFailureEndsRun(f: Flags, ref: string, env: Env)
    requires env.workdir.Ok?
    ensures f.amend && ref == "" && env.revParse("HEAD").Err? ==>
      Pipeline(f, ref, env) == Outcome(Some(env.revParse("HEAD").error), [GitRevParse("HEAD")])
    ensures !f.amend && ref != "" && env.revParse(ref).Err? ==>
      Pipeline(f, ref, env) == Outcome(Some(ResolveRefFailed(ref, env.revParse(ref).error)), [GitRevParse(ref)])
  {
  }

  /** The kinds of effect that come before the dispatch. */
  predicate Preliminary(e: Effect)
  {
    e.GitRevParse? || e.BuildPrompt? || e.OpenStream? || e.Echo?
  }

  lemma PreliminaryTakesNoAction(log: seq<Effect>)
    requires forall i :: 0 <= i < |log| ==> Preliminary(log[i])
    ensures Count(log, IsRun) == 0 && Count(log, IsPrint) == 0 && Count(log, IsClose) == 0
  {
  }

  lemma PrepareIsPreliminary(f: Flags, ref: string, env: Env)
    ensures var log := Prepare(f, ref, env).log;
      forall i :: 0 <= i < |log| ==> log[i].GitRevParse? || log[i].BuildPrompt?
  {
  }

  /** Nothing before the stream loop ends prints, commits or closes. */
  lemma GenerateTakesNoAction(f: Flags, ref: string, env: Env)
    ensures var g := Generate(f, ref, env);
      Count(g.log, IsRun) == 0 && Count(g.log, IsPrint) == 0 && Count(g.log, IsClose) == 0 &&
      (g.text.Ok? ==> g.streamOpen)
  {
    var p := Prepare(f, ref, env);
    PrepareIsPreliminary(f, ref, env);
    var g := Generate(f, ref, env);
    if p.request.Ok? {
      var sent := p.log + [OpenStream(p.request.value)];
      assert forall i :: 0 <= i < |sent| ==> Preliminary(sent[i]);
      match env.openStream(p.request.value)
      case Err(_) =>
      case Ok(events) =>
        var echoes := Echoes(Drain(events).chunks);
        assert g.log == sent + echoes;
        assert forall i :: 0 <= i < |echoes| ==> Preliminary(echoes[i]);
    }
    PreliminaryTakesNoAction(g.log);
  }

  /** Whatever generation did comes first, unchanged, in the run's log. */
  lemma GenerationIsPrefix(f: Flags, ref: string, env: Env)
    ensures var g := Generate(f, ref, env); var o := Pipeline(f, ref, env);
      |g.log| <= |o.log| && o.log[..|g.log|] == g.log
  {
    var g := Generate(f, ref, env);
    var o := Pipeline(f, ref, env);
    if g.text.Ok? {
      var d := Dispatch(f, ref, env, CleanAIMessage(g.text.value));
      assert o.log == g.log + (d.log + (if g.streamOpen then [CloseStream] else []));
    }
  }

  /** The commit subprocess runs exactly once when a message was generated,
      there is no dry run and no ref, and never otherwise. */
  lemma {:induction false} CommitRunsIffCommitMode(f: Flags, ref: string, env: Env)
    ensures var g := Generate(f, ref, env);
      Count(Pipeline(f, ref, env).log, IsRun) == if g.text.Ok? && !f.dryRun && ref == "" then 1 else 0
  {
    var g := Generate(f, ref, env);
    GenerateTakesNoAction(f, ref, env);
    var close := if g.streamOpen then [CloseStream] else [];
    assert Count(close, IsRun) == 0;
    if g.text.Ok? {
      var d := Dispatch(f, ref, env, CleanAIMessage(g.text.value));
      CountAppend(g.log, d.log, IsRun);
      CountAppend(g.log + d.log, close, IsRun);
      assert Count(d.log, IsRun) == if !f.dryRun && ref == "" then 1 else 0;
    } else {
      CountAppend(g.log, close, IsRun);
    }
  }

  /** In commit mode the command run is `git commit -m <cleaned text>`, with
      `--amend` appended when amending, and its result is the run's result;
      the stream is closed after it. */
  lemma CommitRunsCleanedMessage(f: Flags, ref: string, env: Env)
    requires Generate(f, ref, env).text.Ok? && !f.dryRun && ref == ""
    ensures var g := Generate(f, ref, env);
      var path := env.lookPath("git");
      var args := CommitArgs(CleanAIMessage(g.text.value), f.amend);
      Pipeline(f, ref, env) == Outcome(env.runCommand(path, args), g.log + [RunCommand(path, args), CloseStream])
  {
    GenerateTakesNoAction(f, ref, env);
  }

  /** A dry run prints the rendered command and the run succeeds; nothing is
      committed, whether or not a ref was given. */
  lemma DryRunPrintsCommand(f: Flags, ref: string, env: Env)
    requires Generate(f, ref, env).text.Ok? && f.dryRun
    ensures var g := Generate(f, ref, env);
      var path := env.lookPath("git");
      var line := ShellLine(env.base(path), env.quote, CommitArgs(CleanAIMessage(g.text.value), f.amend)[1..]);
      Pipeline(f, ref, env) == Outcome(None, g.log + [Print(DryRunText(line)), CloseStream])
  {
    GenerateTakesNoAction(f, ref, env);
  }

  /** With a ref the message is generated for that ref but never committed,
      with or without a dry run, and the run succeeds. */
  lemma RefInspectionSkipsCommit(f: Flags, ref: string, env: Env)
    requires Generate(f, ref, env).text.Ok? && ref != ""
    ensures !f.amend
    ensures Pipeline(f, ref, env).err == None
    ensures Count(Pipeline(f, ref, env).log, IsRun) == 0
    ensures GitRevParse(ref) in Pipeline(f, ref, env).log
  {
    CommitRunsIffCommitMode(f, ref, env);
    GenerationIsPrefix(f, ref, env);
    var g := Generate(f, ref, env);
    assert g.log[0] == GitRevParse(ref);
    assert Pipeline(f, ref, env).log[0] == g.log[0];
  }

  /** A run that fails before the dispatch returns that failure and neither
      prints a command nor commits. */
  lemma {:induction false} FailureTakesNoAction(f: Flags, ref: string, env: Env)
    requires Generate(f, ref, env).text.Err?
    ensures var o := Pipeline(f, ref, env);
      o.err == Some(Generate(f, ref, env).text.error) && Count(o.log, IsRun) == 0 && Count(o.log, IsPrint) == 0
  {
    var g := Generate(f, ref, env);
    GenerateTakesNoAction(f, ref, env);
    var close := if g.streamOpen then [CloseStream] else [];
    CountAppend(g.log, close, IsRun);
    CountAppend(g.log, close, IsPrint);
  }

  /** A stream error, or a response without choices, before any usage record
      or end of input: the run ends with it after echoing the fragments read
      so far, commits nothing, and closes the stream. */
  lemma StreamFailureEndsRun(f: Flags, ref: string, env: Env, request: Request, events: seq<Event>)
    requires Prepare(f, ref, env).request == Ok(request)
    requires env.openStream(request) == Ok(events)
    requires Drain(events).stop.Failed?
    ensures var d := Drain(events);
      Pipeline(f, ref, env) ==
        Outcome(Some(d.stop.error), Prepare(f, ref, env).log + [OpenStream(request)] + Echoes(d.chunks) + [CloseStream])
    ensures Count(Pipeline(f, ref, env).log, IsRun) == 0
  {
    FailureTakesNoAction(f, ref, env);
  }

  /** When the stream ends at a usage record or at end of input, the message
      handed on is the concatenation of the fragments before it. */
  lemma StreamTextIsBuffer(f: Flags, ref: string, env: Env, request: Request, events: seq<Event>)
    requires Prepare(f, ref, env).request == Ok(request)
    requires env.openStream(request) == Ok(events)
    requires !Drain(events).stop.Failed?
    ensures Generate(f, ref, env).text == Ok(Concat(Drain(events).chunks))
  {
  }

  /** The deferred close runs exactly once, last, whenever the stream was
      opened, and never otherwise. */
  lemma {:induction false} StreamClosedOnEveryExit(f: Flags, ref: string, env: Env)
    ensures var g := Generate(f, ref, env); var o := Pipeline(f, ref, env);
      Count(o.log, IsClose) == (if g.streamOpen then 1 else 0) &&
      (g.streamOpen ==> o.log[|o.log| - 1] == CloseStream)
  {
    var g := Generate(f, ref, env);
    GenerateTakesNoAction(f, ref, env);
    var close := if g.streamOpen then [CloseStream] else [];
    if g.text.Ok? {
      var d := Dispatch(f, ref, env, CleanAIMessage(g.text.value));
      assert Count(d.log, IsClose) == 0;
      CountAppend(g.log, d.log, IsClose);
      CountAppend(g.log + d.log, close, IsClose);
    } else {
      CountAppend(g.log, close, IsClose);
    }
  }

  /** The resolved hash is what the prompt builder is asked for, and the
      request sent carries the built prompt followed by the context. */
  lemma PromptBuiltForTarget(f: Flags, ref: string, env: Env, workdir: string, hash: string, prompt: seq<Message>)
    requires env.workdir == Ok(workdir)
    requires ResolveTarget(ref, f.amend, env.revParse).hash == Ok(hash)
    requires env.buildPrompt(workdir, hash, f.amend, TokenBudget) == Ok(prompt)
    ensures Prepare(f, ref, env).request == Ok(ChatRequest(f, WithContext(prompt, f.context)))
    ensures BuildPrompt(workdir, hash, f.amend, TokenBudget) in Pipeline(f, ref, env).log
    ensures OpenStream(ChatRequest(f, WithContext(prompt, f.context))) in Pipeline(f, ref, env).log
  {
    GenerationIsPrefix(f, ref, env);
    var p := Prepare(f, ref, env);
    var g := Generate(f, ref, env);
    var o := Pipeline(f, ref, env);
    assert p.log[|p.log| - 1] == BuildPrompt(workdir, hash, f.amend, TokenBudget);
    assert g.log[|p.log| - 1] == p.log[|p.log| - 1];
    assert o.log[|p.log| - 1] == g.log[|p.log| - 1];
    assert g.log[|p.log|] == OpenStream(ChatRequest(f, WithContext(prompt, f.context)));
    assert o.log[|p.log|] == g.log[|p.log|];
  }
}
