/** `InstallerFlyweight` (factories/flyweight.py): the shared handle through
    which the creators run a compiler. */
module Flyweight {
  import opened Effects

  class InstallerFlyweight {
    /** The script type identifier the handle was made for. */
    const script: string

    constructor (script: string)
      ensures this.script == script
    {
      this.script := script;
    }
  }

  /** `InstallerFlyweight.compile_script`: run the command, then print its
      stderr if it exited non-zero and its stdout otherwise. A non-zero exit is
      only printed, never raised; only a process that cannot be started makes
      the call raise. The handle's own state plays no part. */
  function CompileScript(command: seq<string>, env: Env): (t: Trace)
    ensures |t.events| >= 1 && t.events[0] == Spawn(command)
    ensures Commands(t.events) == [command]
    ensures t.outcome.Raised? <==> env.spawn(command).SpawnFailed?
    ensures t.outcome.Raised? ==> t.outcome.message == env.spawn(command).message
    ensures env.spawn(command).SpawnFailed? ==> t.events == [Spawn(command)]
    ensures forall e :: e in t.events ==> !e.Write? && !e.Log? && !e.Report?
    ensures var r := env.spawn(command);
            r.Completed? ==>
              t.events == [Spawn(command), if r.returncode != 0 then Output("Error output: ", r.stderr)
                                           else Output("Output: ", r.stdout)]
  {
    match env.spawn(command)
    case SpawnFailed(msg) => Trace([Spawn(command)], Raised(msg))
    case Completed(code, out, err) =>
      var shown := if code != 0 then Output("Error output: ", err) else Output("Output: ", out);
      Trace([Spawn(command), shown], Returned)
  }
}
