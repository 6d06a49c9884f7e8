/** `run`: from the flags and the optional ref to exactly one terminal action,
    with every external collaborator supplied by an `Env`. */
module Fastcommit {
  import opened Wrappers
  import opened GoStrings
  import opened Errors
  import opened ArgFlags
  import opened Chat
  import opened Effects
  import opened Git
  import opened Stream
  import opened Command
  import opened Sanitize

  /** The token budget handed to the prompt builder. */
  const TokenBudget: nat := 128000

  /** What `run` gets from outside this file. */
  datatype Env = Env(
    /** `os.Getwd()` */
    workdir: Result<string, Error>,
    /** the output of `git rev-parse <arg>` */
    revParse: RevParse,
    /** `fastcommit.BuildPrompt(os.Stdout, workdir, hash, amend, budget)` */
    buildPrompt: (string, string, bool, nat) -> Result<seq<Message>, Error>,
    /** `client.CreateChatCompletionStream`: the events `stream.Recv()` will
        return, or the error of opening the stream */
    openStream: Request -> Result<seq<Event>, Error>,
    /** the program lookup of `exec.Command` */
    lookPath: string -> string,
    /** `filepath.Base` */
    base: string -> string,
    /** `shellescape.Quote` */
    quote: string -> string,
    /** `cmd.Run()` of a command with this path and these arguments */
    runCommand: (string, seq<string>) -> Option<Error>)

  /** The streaming request `run` sends: temperature 0, streamed, with a
      usage record asked for. */
  function ChatRequest(f: Flags, messages: seq<Message>): (r: Request)
    ensures r.stream && r.includeUsage && r.temperature == 0
    ensures r.model == f.model && r.apiKey == f.openAIKey && r.baseURL == f.openAIBaseURL
    ensures r.messages == messages
  {
    Request(f.openAIKey, f.openAIBaseURL, f.model, true, 0, true, messages)
  }

  /** What the dry run prints. */
  function DryRunText(line: string): string
  {
    "Run the following command to commit:\n" + line + "\n"
  }

  /** Lines 94-134 of `run`: the request to send, or the error that ends the
      run, and what was done to get there. */
  datatype Preparation = Preparation(request: Result<Request, Error>, log: seq<Effect>)

  function Prepare(f: Flags, ref: string, env: Env): Preparation
  {
    match env.workdir
    case Err(e) => Preparation(Err(e), [])
    case Ok(workdir) =>
      var target := ResolveTarget(ref, f.amend, env.revParse);
      match target.hash
      case Err(e) => Preparation(Err(e), target.calls)
      case Ok(hash) =>
        var built := target.calls + [BuildPrompt(workdir, hash, f.amend, TokenBudget)];
        match env.buildPrompt(workdir, hash, f.amend, TokenBudget)
        case Err(e) => Preparation(Err(e), built)
        case Ok(prompt) => Preparation(Ok(ChatRequest(f, WithContext(prompt, f.context))), built)
  }

  /** The first half of `run`, up to the end of the stream loop: the raw
      text of the completion or the error that ends the run, what was done,
      and whether a stream was opened (and so must be closed). */
  datatype Generation = Generation(text: Result<string, Error>, log: seq<Effect>, streamOpen: bool)

  function Generate(f: Flags, ref: string, env: Env): Generation
  {
    var p := Prepare(f, ref, env);
    match p.request
    case Err(e) => Generation(Err(e), p.log, false)
    case Ok(request) =>
      var sent := p.log + [OpenStream(request)];
      match env.openStream(request)
      case Err(e) => Generation(Err(e), sent, false)
      case Ok(events) =>
        var d := Drain(events);
        var echoed := sent + Echoes(d.chunks);
        if d.stop.Failed? then Generation(Err(d.stop.error), echoed, true)
        else Generation(Ok(Concat(d.chunks)), echoed, true)
  }

  /** One `Echo` per fragment, in order. */
  function Echoes(chunks: seq<string>): (r: seq<Effect>)
    ensures |r| == |chunks|
    ensures forall i :: 0 <= i < |chunks| ==> r[i] == Echo(chunks[i])
  {
    seq(|chunks|, i requires 0 <= i < |chunks| => Echo(chunks[i]))
  }

  /** The second half of `run`: the action taken with the cleaned message. */
  datatype Outcome = Outcome(err: Option<Error>, log: seq<Effect>)

  function Dispatch(f: Flags, ref: string, env: Env, msg: string): Outcome
  {
    var path := env.lookPath("git");
    var args := CommitArgs(msg, f.amend);
    if f.dryRun then Outcome(None, [Print(DryRunText(ShellLine(env.base(path), env.quote, args[1..])))])
    else if ref != "" then Outcome(None, [])
    else Outcome(env.runCommand(path, args), [RunCommand(path, args)])
  }

  /** The whole of `run`; the deferred `stream.Close()` comes last. */
  function Pipeline(f: Flags, ref: string, env: Env): Outcome
  {
    var g := Generate(f, ref, env);
    var close := if g.streamOpen then [CloseStream] else [];
    match g.text
    case Err(e) => Outcome(Some(e), g.log + close)
    case Ok(text) =>
      var d := Dispatch(f, ref, env, CleanAIMessage(text));
      Outcome(d.err, g.log + d.log + close)
  }

  /** Lines 94-134 of `run`, step by step. */
  method PrepareRequest(f: Flags, ref: string, env: Env) returns (request: Result<Request, Error>, log: seq<Effect>)
    ensures Preparation(request, log) == Prepare(f, ref, env)
  {
    log := [];
    if env.workdir.Err? {
      return Err(env.workdir.error), log;
    }
    var workdir := env.workdir.value;

    var target := ResolveTarget(ref, f.amend, env.revParse);
    log := log + target.calls;
    if target.hash.Err? {
      return Err(target.hash.error), log;
    }
    var hash := target.hash.value;

    log := log + [BuildPrompt(workdir, hash, f.amend, TokenBudget)];
    var built := env.buildPrompt(workdir, hash, f.amend, TokenBudget);
    if built.Err? {
      return Err(built.error), log;
    }
    var msgs := InjectContext(built.value, f.context);
    request := Ok(ChatRequest(f, msgs));
  }

  /** Lines 143-184 of `run`: open the stream and read it. */
  method GenerateMessage(f: Flags, ref: string, env: Env)
    returns (text: Result<string, Error>, log: seq<Effect>, streamOpen: bool)
    ensures Generation(text, log, streamOpen) == Generate(f, ref, env)
  {
    var request;
    request, log := PrepareRequest(f, ref, env);
    streamOpen := false;
    if request.Err? {
      return Err(request.error), log, streamOpen;
    }
    log := log + [OpenStream(request.value)];
    var stream := env.openStream(request.value);
    if stream.Err? {
      return Err(stream.error), log, streamOpen;
    }
    streamOpen := true;

    var buffer, chunks, stop, consumed := Accumulate(stream.value);
    log := log + Echoes(chunks);
    if stop.Failed? {
      return Err(stop.error), log, streamOpen;
    }
    text := Ok(buffer);
  }

  /** Lines 187-208 of `run`: build the commit command, then print it, skip
      it, or run it. */
  method DispatchMessage(f: Flags, ref: string, env: Env, msg: string)
    returns (err: Option<Error>, log: seq<Effect>)
    ensures Outcome(err, log) == Dispatch(f, ref, env, msg)
  {
    var cmd := new Cmd("git", ["commit", "-m", msg], env.lookPath);
    if f.amend {
      cmd.args := cmd.args + ["--amend"];
    }
    assert cmd.args == CommitArgs(msg, f.amend);

    if f.dryRun {
      var line := FormatShellCommand(cmd, env.base, env.quote);
      return None, [Print(DryRunText(line))];
    }
    if ref != "" {
      return None, [];
    }
    err := env.runCommand(cmd.path, cmd.args);
    log := [RunCommand(cmd.path, cmd.args)];
  }

  /** `run`: generate, clean, dispatch, and close the stream on the way out. */
  method Run(f: Flags, ref: string, env: Env) returns (err: Option<Error>, log: seq<Effect>)
    ensures Outcome(err, log) == Pipeline(f, ref, env)
  {
    var text, streamOpen;
    text, log, streamOpen := GenerateMessage(f, ref, env);
    var close := if streamOpen then [CloseStream] else [];
    if text.Err? {
      return Some(text.error), log + close;
    }
    var msg := CleanAIMessage(text.value);
    var actions;
    err, actions := DispatchMessage(f, ref, env, msg);
    log := log + actions + close;
  }
}
