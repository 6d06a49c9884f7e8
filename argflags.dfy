/** The command line options `run` reads, and the repeatable `--context` flag. */
module ArgFlags {
  import opened Wrappers
  import opened GoStrings
  import opened Errors

  /** The `flags` struct; `context` holds the values of every `--context`. */
  datatype Flags = Flags(
    openAIKey: string,
    openAIBaseURL: string,
    model: string,
    saveKey: bool,
    dryRun: bool,
    amend: bool,
    context: seq<string>)

  /** `arrayFlags`: a slice of strings that the flag parser grows by calling
      `Set` once per occurrence of the flag. */
  class ArrayFlags {
    var values: seq<string>

    constructor ()
      ensures values == []
    {
      values := [];
    }

    /** Appends one value; never fails. */
    method Set(value: string) returns (err: Option<Error>)
      modifies this
      ensures values == old(values) + [value]
      ensures err == None
    {
      values := values + [value];
      err := None;
    }

    /** The values joined with ","; `StringSplitsBack` says what it keeps. */
    function String(): (s: string)
      reads this
      ensures values == [] ==> s == ""
      ensures |values| == 1 ==> s == values[0]
    {
      Join(values, ",")
    }
  }

  /** When no value holds a comma, splitting the flag's text at the commas
      gives the values back. */
  lemma StringSplitsBack(flags: ArrayFlags)
    requires flags.values != []
    requires forall i :: 0 <= i < |flags.values| ==> ',' !in flags.values[i]
    ensures Split(flags.String(), ',') == flags.values
  {
    SplitJoin(flags.values, ',');
  }
}
