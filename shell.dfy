/**
 * The external programs the diagnostic scripts run. Their outcomes are inputs to the model;
 * a Shell records which commands a script ran, in order, so that "the probe is not re-run"
 * and "later steps are not attempted" can be stated.
 */
module Shell {

  /** How a subprocess.run call ends: it raised (e.g. the program is missing) or it exited. */
  datatype Exit = Raised | Exited(code: int, stdout: string)
  {
    /** subprocess.run returned and check_returncode() did not raise. */
    predicate Succeeded() {
      Exited? && code == 0
    }
  }

  /** An action on the machine: a program run, an os.system line, a directory made, a file written. */
  datatype Command =
    | Run(argv: seq<string>)
    | System(line: string)
    | MakeDir(path: string)
    | WriteFile(path: string, content: string)

  /** The log of commands a script has run. */
  class Shell {
    var history: seq<Command>

    constructor ()
      ensures history == []
    {
      history := [];
    }

    /** Record that cmd ran. */
    method Execute(cmd: Command)
      modifies this
      ensures history == old(history) + [cmd]
    {
      history := history + [cmd];
    }
  }
}
