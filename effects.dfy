/** What the creators do to the world, written down as a trace of events, and
    the answers the world gives back to them. Nothing here performs I/O: file
    writes, prints, log records and subprocess calls become events, and
    `os.path.exists`, `open`, `subprocess.run`, `uuid.uuid4` and the fixed
    compiler paths of `base_config` become parts of an environment value. */
module Effects {
  import opened Wrappers

  datatype Level = Info | Error

  datatype Event =
    | Report(message: string)               // a `print` of a fixed message
    | Output(prefix: string, text: string)  // a `print` of a process's captured text after a prefix
    | Write(path: string, content: string)  // `open(path, "w").write(content)` done
    | Spawn(command: seq<string>)           // `subprocess.run(command)` attempted
    | Log(level: Level, message: string)    // a record given to `logging`

  /** How a call ended: it returned, or it raised an exception whose `str` is `message`. */
  datatype Outcome = Returned | Raised(message: string)

  /** The events one call caused, in order, and how the call ended. */
  datatype Trace = Trace(events: seq<Event>, outcome: Outcome)

  /** What `subprocess.run(..., capture_output=True, text=True)` gives back: the
      finished process, or the exception raised when it could not be started. */
  datatype Spawned =
    | Completed(returncode: int, stdout: string, stderr: string)
    | SpawnFailed(message: string)

  /** The compiler paths `base_config` provides; that file is not part of this model. */
  datatype BaseConfig = BaseConfig(candleExePath: string, lightExePath: string, innoSetupCompiler: string)

  /** The world as the creators see it during one call:
      - openError(p): the message of the exception `open(p, "w")` raises, if it raises;
      - spawn(cmd): what running `cmd` gives back;
      - pathExists(p): whether `os.path.exists(p)` holds when it is asked;
      - uuid4(i): the text of the i-th identifier `uuid.uuid4()` produces during the call. */
  datatype Env = Env(
    config: BaseConfig,
    openError: string -> Option<string>,
    spawn: seq<string> -> Spawned,
    pathExists: string -> bool,
    uuid4: nat -> string)

  /** The commands of the subprocess calls among `events`, in order. */
  function Commands(events: seq<Event>): (r: seq<seq<string>>)
    ensures |r| <= |events|
    ensures forall cmd :: cmd in r <==> Spawn(cmd) in events
  {
    if events == [] then []
    else (if events[0].Spawn? then [events[0].command] else []) + Commands(events[1..])
  }

  /** The log records among `events`, in order. */
  function Logs(events: seq<Event>): (r: seq<Event>)
    ensures |r| <= |events|
    ensures forall e :: e in r <==> e in events && e.Log?
  {
    if events == [] then []
    else (if events[0].Log? then [events[0]] else []) + Logs(events[1..])
  }

  lemma {:induction false} CommandsAppend(a: seq<Event>, b: seq<Event>)
    ensures Commands(a + b) == Commands(a) + Commands(b)
    decreases |a|
  {
    if a == [] {
      assert a + b == b;
    } else {
      assert (a + b)[1..] == a[1..] + b;
      CommandsAppend(a[1..], b);
    }
  }

  /** A run of events without a subprocess call has no commands. */
  lemma CommandsNone(events: seq<Event>)
    requires forall e :: e in events ==> !e.Spawn?
    ensures Commands(events) == []
  {
    if Commands(events) != [] {
      assert Commands(events)[0] in Commands(events);
    }
  }

  /** A run of events without a log record has no log records. */
  lemma LogsNone(events: seq<Event>)
    requires forall e :: e in events ==> !e.Log?
    ensures Logs(events) == []
  {
    if Logs(events) != [] {
      assert Logs(events)[0] in Logs(events);
    }
  }

  lemma {:induction false} LogsAppend(a: seq<Event>, b: seq<Event>)
    ensures Logs(a + b) == Logs(a) + Logs(b)
    decreases |a|
  {
    if a == [] {
      assert a + b == b;
    } else {
      assert (a + b)[1..] == a[1..] + b;
      LogsAppend(a[1..], b);
    }
  }
}
