/** `EXECreator` (creators/exe_creator.py): renders an Inno Setup script,
    writes it to the output directory and runs the Inno Setup compiler on it. */
module ExeCreator {
  import opened Wrappers
  import opened Paths
  import opened Template
  import opened Effects
  import opened Creator
  import opened FileIterator
  import opened Flyweight
  import opened FlyweightFactory

  const ScriptFileName := "setup_script.iss"
  /** `create_installer` names the compiler by this local path, which hides the
      `base_config` one; `compile_exe_script` uses the `base_config` one. */
  const InnoSetupCompilerPath := "C:\\Program Files (x86)\\Inno Setup 6\\ISCC.exe"
  const NoNameMessage := "Please enter a name for the EXE file."
  const SuccessMessage := "EXE installer created successfully in the output directory."

  /** The `[Setup]` and `[Files]` header, each line indented by 20 spaces; its
      fields are AppName, the folder of DefaultDirName, OutputDir and
      OutputBaseFilename. */
  const InnoHeaderTemplate: seq<string> := [
    "\n" + Spaces(20) + "[Setup]\n" + Spaces(20) + "AppName=",
    "\n" + Spaces(20) + "AppVersion=1.0\n" + Spaces(20) + "DefaultDirName={autopf}\\",
    "\n" + Spaces(20) + "OutputDir=",
    "\n" + Spaces(20) + "OutputBaseFilename=",
    "\n" + Spaces(20) + "Compression=lzma\n" + Spaces(20) + "SolidCompression=yes\n"
      + Spaces(20) + "[Files]\n" + Spaces(20)]

  /** One `Source:` line of the `[Files]` section; its field is the source path. */
  const SourceLineTemplate: seq<string> := ["Source: \"", "\"; DestDir: \"{app}\"\n"]

  function HeaderFields(req: Request): seq<string> {
    [req.installerName, req.installerName, req.outputDirectory, req.installerName + "_installer"]
  }

  /** One row per file, in list order: the file joined onto the source directory. */
  function SourceRows(dir: string, files: seq<string>): (rows: seq<seq<string>>)
    ensures |rows| == |files|
    ensures forall i :: 0 <= i < |rows| ==> rows[i] == [Join(dir, files[i])]
  {
    if files == [] then []
    else SourceRows(dir, files[..|files| - 1]) + [[Join(dir, files[|files| - 1])]]
  }

  /** The header as `generate_inno_setup_script` renders it for `req`. */
  function InnoHeader(req: Request): string {
    Fill(InnoHeaderTemplate, HeaderFields(req))
  }

  /** The `Source:` line the loop appends for one path. */
  function SourceLine(path: string): string {
    "Source: \"" + path + "\"; DestDir: \"{app}\"\n"
  }

  /** The `[Files]` block after the loop has seen `files`, built as the loop builds it. */
  function SourceLines(dir: string, files: seq<string>): string {
    if files == [] then ""
    else SourceLines(dir, files[..|files| - 1]) + SourceLine(Join(dir, files[|files| - 1]))
  }

  /** The text `generate_inno_setup_script` returns. */
  function InnoScript(req: Request): string {
    InnoHeader(req) + SourceLines(req.sourceDirectory, req.fileList)
  }

  /** `__iter__`: a new iterator over the file list. */
  method Iter(req: Request) returns (it: FileListIterator<string>)
    ensures fresh(it) && it.Valid() && it.fileList == req.fileList && it.index == 0
  {
    it := new FileListIterator(req.fileList);
  }

  /** `generate_inno_setup_script`: the header, then one `Source:` line for
      each file the creator's own iterator yields. */
  method GenerateInnoSetupScript(req: Request) returns (script: string)
    ensures script == InnoScript(req)
  {
    script := InnoHeader(req);
    ghost var header := script;
    var it := Iter(req);
    while true
      invariant it.Valid() && it.fileList == req.fileList
      invariant script == header + SourceLines(req.sourceDirectory, req.fileList[..it.index])
      decreases |it.fileList| - it.index
    {
      ghost var seen := it.index;
      var next := it.Next();
      if next.StopIteration? {
        assert req.fileList[..it.index] == req.fileList;
        break;
      }
      var line := SourceLine(Join(req.sourceDirectory, next.value));
      SourceLinesSnoc(req.sourceDirectory, req.fileList, seen);
      AppendAssoc(header, SourceLines(req.sourceDirectory, req.fileList[..seen]), line);
      script := script + line;
    }
  }

  /** One more file seen appends that file's line. */
  lemma SourceLinesSnoc(dir: string, files: seq<string>, i: nat)
    requires i < |files|
    ensures SourceLines(dir, files[..i + 1])
         == SourceLines(dir, files[..i]) + SourceLine(Join(dir, files[i]))
  {
    assert files[..i + 1][..i] == files[..i];
  }

  /** The block the loop builds is the source-line template filled once per row. */
  lemma {:induction false} SourceLinesFilled(dir: string, files: seq<string>)
    ensures SourceLines(dir, files) == FillAll(SourceLineTemplate, SourceRows(dir, files))
    decreases |files|
  {
    if files != [] {
      var init := files[..|files| - 1];
      var path := Join(dir, files[|files| - 1]);
      SourceLinesFilled(dir, init);
      FillAllSnoc(SourceLineTemplate, SourceRows(dir, init), [path]);
      SourceLineFilled(path);
    }
  }

  lemma SourceLineFilled(path: string)
    ensures Fill(SourceLineTemplate, [path]) == SourceLine(path)
  {
    assert SourceLineTemplate[1..] == ["\"; DestDir: \"{app}\"\n"];
  }

  /** What reading a rendered script back gives. */
  datatype InnoDocument = InnoDocument(
    appName: string,
    defaultDirFolder: string,
    outputDir: string,
    outputBaseFilename: string,
    sources: seq<string>)

  /** Reads a script of the shape `generate_inno_setup_script` renders. */
  function ParseInnoScript(s: string): Option<InnoDocument> {
    InnoTemplatesWellFormed();
    var header := Parse(InnoHeaderTemplate, s);
    if header.None? then None
    else
      var block := ParseMany(SourceLineTemplate, header.value.1);
      if block.1 != "" then None
      else
        var h := header.value.0;
        Some(InnoDocument(h[0], h[1], h[2], h[3], Firsts(block.0)))
  }

  /** The first field of every row. */
  function Firsts(rows: seq<seq<string>>): (r: seq<string>)
    requires forall i :: 0 <= i < |rows| ==> |rows[i]| >= 1
    ensures |r| == |rows| && forall i :: 0 <= i < |rows| ==> r[i] == rows[i][0]
  {
    seq(|rows|, i requires 0 <= i < |rows| => rows[i][0])
  }

  /** The source paths of the `[Files]` section: each file joined onto the source directory, in list order. */
  function Sources(req: Request): (r: seq<string>)
    ensures |r| == |req.fileList|
    ensures forall i :: 0 <= i < |r| ==> r[i] == Join(req.sourceDirectory, req.fileList[i])
  {
    seq(|req.fileList|, i requires 0 <= i < |req.fileList| => Join(req.sourceDirectory, req.fileList[i]))
  }

  lemma FirstsOfSourceRows(req: Request)
    ensures Firsts(SourceRows(req.sourceDirectory, req.fileList)) == Sources(req)
  {
  }

  lemma InnoTemplatesWellFormed()
    ensures WellFormed(InnoHeaderTemplate) && WellFormed(SourceLineTemplate)
    ensures InnoHeaderTemplate[1][0] == '\n' && InnoHeaderTemplate[2][0] == '\n'
    ensures InnoHeaderTemplate[3][0] == '\n' && InnoHeaderTemplate[4][0] == '\n'
    ensures SourceLineTemplate[0] == "Source: \"" && SourceLineTemplate[1][0] == '"'
  {
  }

  /** Reading the header back gives its four fields and leaves what follows. */
  lemma InnoHeaderRoundTrip(req: Request, rest: string)
    requires '\n' !in req.installerName && '\n' !in req.outputDirectory
    ensures WellFormed(InnoHeaderTemplate)
    ensures Parse(InnoHeaderTemplate, InnoHeader(req) + rest) == Some((HeaderFields(req), rest))
  {
    InnoTemplatesWellFormed();
    var fields := HeaderFields(req);
    assert '\n' !in req.installerName + "_installer";
    assert Fits(InnoHeaderTemplate, fields);
    ParseFill(InnoHeaderTemplate, fields, rest);
  }

  /** Reading the `[Files]` block back gives one row per file, in order, and nothing after. */
  lemma InnoBlockRoundTrip(req: Request)
    requires '"' !in req.sourceDirectory
    requires forall i :: 0 <= i < |req.fileList| ==> '"' !in req.fileList[i]
    ensures WellFormed(SourceLineTemplate)
    ensures ParseMany(SourceLineTemplate, SourceLines(req.sourceDirectory, req.fileList))
         == (SourceRows(req.sourceDirectory, req.fileList), "")
  {
    InnoTemplatesWellFormed();
    var rows := SourceRows(req.sourceDirectory, req.fileList);
    SourceLinesFilled(req.sourceDirectory, req.fileList);
    forall i | 0 <= i < |rows|
      ensures |rows[i]| == 1 && Fits(SourceLineTemplate, rows[i])
    {
      JoinChars(req.sourceDirectory, req.fileList[i], '"');
    }
    ParseManyFillAll(SourceLineTemplate, rows, "");
    assert FillAll(SourceLineTemplate, rows) + "" == FillAll(SourceLineTemplate, rows);
  }

  /** The rendered script says AppName = the installer name, DefaultDirName
      under it, OutputDir = the output directory and OutputBaseFilename = the
      name followed by "_installer", and its `[Files]` section holds exactly
      one `Source:` line per file, in list order, each the file joined onto
      the source directory. The header fields are read up to the next line
      break and the paths up to the next quote, so the name and the output
      directory must not hold a line break (a name with one would break the
      `AppName=` line in two) and the source paths must not hold a quote,
      which Windows paths never do. */
  lemma InnoScriptRoundTrip(req: Request)
    requires '\n' !in req.installerName && '\n' !in req.outputDirectory
    requires '"' !in req.sourceDirectory
    requires forall i :: 0 <= i < |req.fileList| ==> '"' !in req.fileList[i]
    ensures ParseInnoScript(InnoScript(req)) == Some(InnoDocument(
              req.installerName, req.installerName, req.outputDirectory,
              req.installerName + "_installer", Sources(req)))
  {
    InnoHeaderRoundTrip(req, SourceLines(req.sourceDirectory, req.fileList));
    InnoBlockRoundTrip(req);
    FirstsOfSourceRows(req);
  }

  /** `create_installer`, as the trace of events it causes. */
  function ExeCreate(req: Request, env: Env): Trace {
    if req.fileList == [] then Trace([Report(NoFilesMessage)], Returned)
    else if req.installerName == "" then Trace([Report(NoNameMessage)], Returned)
    else
      var path := ScriptPath(req);
      match env.openError(path)
      case Some(msg) => Trace([], Raised(msg))
      case None =>
        var compiled := CompileScript(CompileCommand(req), env);
        var events := [Write(path, InnoScript(req))] + compiled.events;
        if compiled.outcome.Raised? then Trace(events, compiled.outcome)
        else Trace(events + [Report(SuccessMessage)], Returned)
  }

  function ScriptPath(req: Request): string {
    Join(req.outputDirectory, ScriptFileName)
  }

  function CompileCommand(req: Request): seq<string> {
    [InnoSetupCompilerPath, ScriptPath(req)]
  }

  /** Whether a call gets as far as the registry lookup. */
  predicate UsesRegistry(req: Request, env: Env) {
    req.fileList != [] && req.installerName != "" && env.openError(ScriptPath(req)).None?
  }

  /** `create_installer`: check the request, write the script, fetch the "EXE"
      handle and compile once; success is printed once the compiler has run. */
  method CreateInstaller(req: Request, registry: InstallerFlyweightFactory, env: Env) returns (t: Trace)
    requires registry.Valid()
    modifies registry
    ensures t == ExeCreate(req, env)
    ensures registry.Valid()
    ensures registry.flyweights.Keys == old(registry.flyweights.Keys) + (if UsesRegistry(req, env) then {"EXE"} else {})
    ensures forall k :: k in old(registry.flyweights) ==> registry.flyweights[k] == old(registry.flyweights)[k]
  {
    if req.fileList == [] {
      return Trace([Report(NoFilesMessage)], Returned);
    }
    if req.installerName == "" {
      return Trace([Report(NoNameMessage)], Returned);
    }
    var scriptPath := Join(req.outputDirectory, ScriptFileName);
    if env.openError(scriptPath).Some? {
      return Trace([], Raised(env.openError(scriptPath).value));
    }
    var script := GenerateInnoSetupScript(req);
    var events := [Write(scriptPath, script)];
    var compileCommand := [InnoSetupCompilerPath, scriptPath];
    var flyweight := registry.GetFlyweight("EXE");
    var compiled := CompileScript(compileCommand, env);
    events := events + compiled.events;
    if compiled.outcome.Raised? {
      return Trace(events, compiled.outcome);
    }
    events := events + [Report(SuccessMessage)];
    t := Trace(events, Returned);
  }

  /** An empty file list is rejected first, whatever the name: one message and
      nothing written or run. */
  lemma ExeRejectsEmptyFileList(req: Request, env: Env)
    requires req.fileList == []
    ensures ExeCreate(req, env) == Trace([Report(NoFilesMessage)], Returned)
    ensures Commands(ExeCreate(req, env).events) == []
  {
  }

  /** A missing name is rejected next: one message and nothing written or run. */
  lemma ExeRejectsEmptyName(req: Request, env: Env)
    requires req.fileList != [] && req.installerName == ""
    ensures ExeCreate(req, env) == Trace([Report(NoNameMessage)], Returned)
    ensures Commands(ExeCreate(req, env).events) == []
  {
  }

  /** A valid request writes the rendered script to
      `<output>\setup_script.iss` first and then runs exactly one command, the
      compiler on that script; the call returns, and reports success, exactly
      when the compiler could be started. */
  lemma {:induction false} ExeValidRequest(req: Request, env: Env)
    requires req.fileList != [] && req.installerName != ""
    requires env.openError(ScriptPath(req)).None?
    ensures var t := ExeCreate(req, env);
            && |t.events| >= 2
            && t.events[0] == Write(Join(req.outputDirectory, "setup_script.iss"), InnoScript(req))
            && t.events[1] == Spawn([InnoSetupCompilerPath, Join(req.outputDirectory, "setup_script.iss")])
            && Commands(t.events) == [[InnoSetupCompilerPath, Join(req.outputDirectory, "setup_script.iss")]]
            && (t.outcome == Returned <==> env.spawn(CompileCommand(req)).Completed?)
            && (Report(SuccessMessage) in t.events <==> env.spawn(CompileCommand(req)).Completed?)
  {
    var t := ExeCreate(req, env);
    var compiled := CompileScript(CompileCommand(req), env);
    var write := Write(ScriptPath(req), InnoScript(req));
    CommandsAppend([write], compiled.events);
    if compiled.outcome.Raised? {
      assert t.events == [write] + compiled.events;
    } else {
      assert t.events == ([write] + compiled.events) + [Report(SuccessMessage)];
      CommandsAppend([write] + compiled.events, [Report(SuccessMessage)]);
    }
  }

  /** The compiler's exit status is printed but not acted on: a compiler that
      starts and exits non-zero still leads to the success message. */
  lemma ExeSuccessDespiteFailedCompile(req: Request, env: Env)
    requires req.fileList != [] && req.installerName != ""
    requires env.openError(ScriptPath(req)).None?
    requires env.spawn(CompileCommand(req)).Completed? && env.spawn(CompileCommand(req)).returncode != 0
    ensures Output("Error output: ", env.spawn(CompileCommand(req)).stderr) in ExeCreate(req, env).events
    ensures Report(SuccessMessage) in ExeCreate(req, env).events
    ensures ExeCreate(req, env).outcome == Returned
  {
  }

  /** `compile_exe_script`: run the `base_config` compiler on the script; on a
      non-zero exit print its stderr and stop, else print its stdout and the
      success message. */
  method CompileExeScript(scriptPath: string, env: Env) returns (t: Trace)
    ensures |t.events| >= 1 && t.events[0] == Spawn([env.config.innoSetupCompiler, scriptPath])
    ensures Commands(t.events) == [[env.config.innoSetupCompiler, scriptPath]]
    ensures t.outcome.Raised? <==> env.spawn([env.config.innoSetupCompiler, scriptPath]).SpawnFailed?
    ensures var r := env.spawn([env.config.innoSetupCompiler, scriptPath]);
            Report(SuccessMessage) in t.events <==> r.Completed? && r.returncode == 0
    ensures var r := env.spawn([env.config.innoSetupCompiler, scriptPath]);
            r.Completed? && r.returncode != 0 ==>
              t.events == [Spawn([env.config.innoSetupCompiler, scriptPath]), Output("Inno Setup error output: ", r.stderr)]
    ensures var r := env.spawn([env.config.innoSetupCompiler, scriptPath]);
            r.Completed? && r.returncode == 0 ==>
              t.events == [Spawn([env.config.innoSetupCompiler, scriptPath]), Output("Inno Setup output: ", r.stdout),
                           Report(SuccessMessage)]
    ensures var r := env.spawn([env.config.innoSetupCompiler, scriptPath]);
            r.SpawnFailed? ==> t == Trace([Spawn([env.config.innoSetupCompiler, scriptPath])], Raised(r.message))
  {
    var compileCommand := [env.config.innoSetupCompiler, scriptPath];
    var events := [Spawn(compileCommand)];
    var result := env.spawn(compileCommand);
    if result.SpawnFailed? {
      return Trace(events, Raised(result.message));
    }
    if result.returncode != 0 {
      return Trace(events + [Output("Inno Setup error output: ", result.stderr)], Returned);
    }
    CommandsAppend(events, [Output("Inno Setup output: ", result.stdout), Report(SuccessMessage)]);
    events := events + [Output("Inno Setup output: ", result.stdout), Report(SuccessMessage)];
    t := Trace(events, Returned);
  }

  /** The creator itself never logs: every log record of a run comes from around it. */
  lemma ExeNoLogs(req: Request, env: Env)
    ensures forall e :: e in ExeCreate(req, env).events ==> !e.Log?
  {
  }
}
