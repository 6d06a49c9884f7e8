/** The commit command: `exec.Cmd` as far as `run` uses it, its arguments, and
    `formatShellCommand`. */
module Command {
  import opened GoStrings

  /** The fields of `exec.Cmd` that `run` sets and reads. */
  class Cmd {
    var path: string
    var args: seq<string>

    /** `exec.Command(name, rest...)`: `lookPath` is the program lookup
        `exec.Command` does for a bare name. */
    constructor (name: string, rest: seq<string>, lookPath: string -> string)
      ensures path == lookPath(name) && args == [name] + rest
    {
      path := lookPath(name);
      args := [name] + rest;
    }
  }

  /** The arguments of the commit command: `git commit -m msg`, with `--amend`
      as a fifth argument exactly when amending. */
  function CommitArgs(msg: string, amend: bool): (args: seq<string>)
    ensures |args| == if amend then 5 else 4
    ensures args[..4] == ["git", "commit", "-m", msg]
    ensures amend <==> |args| == 5 && args[4] == "--amend"
  {
    ["git", "commit", "-m", msg] + (if amend then ["--amend"] else [])
  }

  /** `quote` applied to each argument, in order. */
  function Quoted(quote: string -> string, args: seq<string>): (r: seq<string>)
    ensures |r| == |args|
  {
    seq(|args|, i requires 0 <= i < |args| => quote(args[i]))
  }

  /** The shell line for a program `head` and its arguments: `head`, then one
      space and the quoted argument for each argument, in order. */
  function ShellLine(head: string, quote: string -> string, args: seq<string>): string
  {
    Join([head] + Quoted(quote, args), " ")
  }

  /** A command with no arguments renders as the program name alone. */
  lemma ShellLineNoArgs(head: string, quote: string -> string)
    ensures ShellLine(head, quote, []) == head
  {
    assert [head] + Quoted(quote, []) == [head];
  }

  /** Each further argument appends exactly one space and its quoted form. */
  lemma ShellLineSnoc(head: string, quote: string -> string, args: seq<string>, a: string)
    ensures ShellLine(head, quote, args + [a]) == ShellLine(head, quote, args) + " " + quote(a)
  {
    assert [head] + Quoted(quote, args + [a]) == ([head] + Quoted(quote, args)) + [quote(a)];
    JoinSnoc([head] + Quoted(quote, args), quote(a), " ");
  }

  /** `formatShellCommand`: the base name of the program, then `" " +
      quote(arg)` for every argument after the first, written into a builder
      one argument at a time. `base` is `filepath.Base` and `quote`
      `shellescape.Quote`. */
  method FormatShellCommand(cmd: Cmd, base: string -> string, quote: string -> string) returns (line: string)
    requires |cmd.args| >= 1
    ensures line == ShellLine(base(cmd.path), quote, cmd.args[1..])
  {
    var rest := cmd.args[1..];
    line := base(cmd.path);
    ShellLineNoArgs(line, quote);
    for k := 0 to |rest|
      invariant line == ShellLine(base(cmd.path), quote, rest[..k])
    {
      ShellLineSnoc(base(cmd.path), quote, rest[..k], rest[k]);
      assert rest[..k + 1] == rest[..k] + [rest[k]];
      line := line + " " + quote(rest[k]);
    }
    assert rest[..|rest|] == rest;
  }

  /** The dry run of `git commit -m "fix: bug"`: the program's base name and
      the three quoted arguments, one space before each. */
  lemma DryRunLine(base: string -> string, quote: string -> string, path: string)
    ensures ShellLine(base(path), quote, CommitArgs("fix: bug", false)[1..]) ==
      base(path) + " " + quote("commit") + " " + quote("-m") + " " + quote("fix: bug")
  {
    var head := base(path);
    assert CommitArgs("fix: bug", false)[1..] == ["commit", "-m", "fix: bug"];
    ShellLineNoArgs(head, quote);
    ShellLineSnoc(head, quote, [], "commit");
    ShellLineSnoc(head, quote, ["commit"], "-m");
    ShellLineSnoc(head, quote, ["commit", "-m"], "fix: bug");
    assert [] + ["commit"] == ["commit"];
    assert ["commit"] + ["-m"] == ["commit", "-m"];
    assert ["commit", "-m"] + ["fix: bug"] == ["commit", "-m", "fix: bug"];
  }
}
