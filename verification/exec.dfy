/**
  The process runner (`exec.Commands`), made abstract: it records every list
  of commands it is asked to run, and what the package manager then does is an
  oracle `Response` — the files it leaves behind and whether it reports
  success. The runner stops at its first failing command, so a failed run may
  still have written files.
*/
module Exec {
  import opened FileSystem

  datatype Response = Response(written: map<Path, Bytes>, ok: bool)

  /** The filesystem after the package manager has run. */
  function Ran(t: Tree, r: Response): Tree
  {
    t.(files := t.files + r.written)
  }

  class Commands {
    /** Every `Run` call so far, each with its list of command strings. */
    var calls: seq<seq<string>>
    const response: Response

    constructor (response: Response)
      ensures calls == [] && this.response == response
    {
      calls := [];
      this.response := response;
    }

    method Run(cmds: seq<string>, os: Os) returns (ok: bool)
      modifies this, os
      ensures calls == old(calls) + [cmds]
      ensures ok == response.ok
      ensures os.State() == Ran(old(os.State()), response)
    {
      calls := calls + [cmds];
      os.files := os.files + response.written;
      ok := response.ok;
    }
  }
}
