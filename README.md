# Installer generator: a Dafny model

This project models the core of a small Windows installer generator. You give it:
- a source directory;
- an output directory;
- a file list;
- an installer name.

There are two ways to build an installer:
- **MSI.** `MSICreator` renders a WiX descriptor (`installer.wxs`). It then runs WiX's `candle` on it and, if `installer.wixobj` appears, `light`.
- **EXE.** `EXECreator` renders an Inno Setup script (`setup_script.iss`) and runs the Inno Setup compiler on it once.

Both creators reach the compiler through one shared handle per format key, which they get from `InstallerFlyweightFactory.get_flyweight`.

`EXECreator` walks its file list through `FileListIterator`. `InstallerCreatorProxy` sits in front of a creator. It logs the start of a run and then its success or its error. It passes the result or the exception through unchanged.

## How the effects are modelled

A call is modelled as a `Trace`: the list of events it causes, plus how it ended.
- **Events:**
  - `Report` is a fixed `print`;
  - `Output` is a printed process output;
  - `Write` is a file written;
  - `Spawn` is a subprocess started;
  - `Log` is a logging record.
- **Ends:** `Returned`, or `Raised` (carrying the exception's text).

The world a call sees is an `Env` value, which holds:
- the compiler paths of `base_config`;
- whether `open` fails on a path;
- what each command gives back when run;
- whether a path exists;
- the identifiers `uuid.uuid4()` yields, in the order they are drawn.

Each creator operation is a specification function over a request and an `Env`, such as `MsiCreator.MsiCreate`. A method written step by step, as in the source, is proved equal to that function.

The shared registry and the iterator are classes with mutable fields:
- The registry holds `flyweights: map<string, InstallerFlyweight>`.
- The iterator holds a fixed list and `index: nat`.

Rendered scripts match the source character for character, whitespace included. Each script is a list of literal pieces with fields between them (module `Template`). A reader for that shape is proved to recover the fields. This is how "one component per file, in order" and "the i-th reference names the i-th component" are proved: the script is read back.

Where the code does something other than its docstrings or its names suggest, the model follows the code:
- **`compile_script`.** Its docstring says it raises `RuntimeError` on a non-zero exit; the code prints the process's stderr and returns.
- **Name validation.** The name check rejects only the empty string (`not self.installer_name`). A name made only of blanks is accepted.
- **EXE compile paths.** EXE `create_installer` runs a compiler path written in the method itself (`C:\Program Files (x86)\Inno Setup 6\ISCC.exe`). `compile_exe_script` uses the `base_config` compiler.
- **MSI compile paths.** MSI `create_installer` uses `base_config`'s `candle` and `light`. `compile_msi_script` uses its own local literal paths.
- **Compiler exit status.** A non-zero exit is printed by `compile_script` and never raised. So both creators go on after a compiler fails:
  - EXE reports success anyway (`ExeCreator.ExeSuccessDespiteFailedCompile`);
  - MSI runs `light` whenever `installer.wixobj` exists.

## Model

| member | source | states |
|---|---|---|
| Paths.Basename | coursework/InstallerGenerator/InstallerGenerator/core/creators/msi_creator.py:114 | the basename is a suffix of the path, holds no separator, and is preceded by a separator when shorter than the path |
| Paths.JoinParts | coursework/InstallerGenerator/InstallerGenerator/core/creators/msi_creator.py:115 | `os.path.join(a, b)` starts with `a` and ends with `b` and loses no character of either: its length is `|a| + |b|` or one more; one character is added exactly when `a` is non-empty and does not end in a separator, and that character is `\` |
| Paths.JoinChars | coursework/InstallerGenerator/InstallerGenerator/core/creators/exe_creator.py:91 | joining adds no character other than the separator |
| FileIterator.FileListIterator.constructor | coursework/InstallerGenerator/InstallerGenerator/core/iterator.py:11-19 | a new iterator keeps the given list and starts at index 0 |
| FileIterator.FileListIterator.Next | coursework/InstallerGenerator/InstallerGenerator/core/iterator.py:21-33 | below the end it returns the element under the cursor and advances by exactly one; at the end it signals StopIteration and leaves the cursor where it is; `0 <= index <= len` is kept |
| FileIterator.CallsInOrder | coursework/InstallerGenerator/InstallerGenerator/core/iterator.py:21-33 | n successive calls return the remaining elements in order, each once, then only StopIteration; the cursor stops at the end |
| Flyweight.InstallerFlyweight.constructor | coursework/InstallerGenerator/InstallerGenerator/core/factories/flyweight.py:10-17 | a handle keeps the script identifier it was made with |
| Flyweight.CompileScript | coursework/InstallerGenerator/InstallerGenerator/core/factories/flyweight.py:19-35 | the command is run exactly once; the call raises exactly when the process cannot be started, and then the trace is the Spawn alone with nothing printed; a process that starts gives exactly its Spawn and then its stderr after `Error output: ` on a non-zero exit or its stdout after `Output: ` on a zero exit, with no raise; nothing is written, logged or reported |
| FlyweightFactory.GetOrCreate | coursework/InstallerGenerator/InstallerGenerator/core/factories/installer_flyweight.py:26-28 | afterwards the key is present and the returned handle is the one filed under it; a hit leaves the map unchanged; a miss adds exactly one entry, the new handle; other entries are never changed or removed |
| FlyweightFactory.GetOrCreateTwice | coursework/InstallerGenerator/InstallerGenerator/core/factories/installer_flyweight.py:26-28 | a second lookup of a key returns the identical handle the first returned and leaves the registry as it was |
| FlyweightFactory.LookupAllShared | coursework/InstallerGenerator/InstallerGenerator/core/factories/installer_flyweight.py:11-28 | over any run of lookups the registry gains exactly the looked-up keys and keeps every old entry, and lookups of the same key all return the same handle |
| FlyweightFactory.InstallerFlyweightFactory.constructor | coursework/InstallerGenerator/InstallerGenerator/core/factories/installer_flyweight.py:11 | the registry starts empty |
| FlyweightFactory.InstallerFlyweightFactory.GetFlyweight | coursework/InstallerGenerator/InstallerGenerator/core/factories/installer_flyweight.py:13-28 | `get_flyweight` updates the registry and returns as the get-or-create does; a miss creates a fresh handle made with the key; every filed handle carries its own key |
| FlyweightFactory.HandlesDistinct | coursework/InstallerGenerator/InstallerGenerator/core/factories/installer_flyweight.py:26-27 | different keys are never served the same handle |
| ExeCreator.Iter | coursework/InstallerGenerator/InstallerGenerator/core/creators/exe_creator.py:36-43 | iterating a creator yields a new iterator over its own file list, at index 0 |
| ExeCreator.GenerateInnoSetupScript | coursework/InstallerGenerator/InstallerGenerator/core/creators/exe_creator.py:71-92 | the loop over the iterator builds the `[Setup]` header followed by exactly one `Source:` line per file, in list order |
| ExeCreator.SourceLinesFilled | coursework/InstallerGenerator/InstallerGenerator/core/creators/exe_creator.py:90-92 | the `Source:` lines are one instance of the line shape per file, in order, each holding the file joined onto the source directory |
| ExeCreator.InnoHeaderRoundTrip | coursework/InstallerGenerator/InstallerGenerator/core/creators/exe_creator.py:78-88 | the header reads back as AppName = name, DefaultDirName under `{autopf}`, OutputDir = output directory, OutputBaseFilename = name + `_installer`, whatever follows it |
| ExeCreator.InnoBlockRoundTrip | coursework/InstallerGenerator/InstallerGenerator/core/creators/exe_creator.py:90-92 | the `[Files]` block reads back as exactly the joined source paths, one per file, in list order |
| ExeCreator.InnoScriptRoundTrip | coursework/InstallerGenerator/InstallerGenerator/core/creators/exe_creator.py:71-92 | the whole script reads back as its header fields and exactly N sources for N files, `join(source_directory, file)` in list order |
| ExeCreator.ExeRejectsEmptyFileList | coursework/InstallerGenerator/InstallerGenerator/core/creators/exe_creator.py:51-53 | an empty file list prints the no-files message and returns; nothing is written or run |
| ExeCreator.ExeRejectsEmptyName | coursework/InstallerGenerator/InstallerGenerator/core/creators/exe_creator.py:55-57 | files but an empty name print the no-name message and return; nothing is written or run |
| ExeCreator.ExeValidRequest | coursework/InstallerGenerator/InstallerGenerator/core/creators/exe_creator.py:59-69 | a valid request writes the rendered script to `<output>\setup_script.iss`, then runs exactly one command `[ISCC path, script path]`; it returns, and reports success, exactly when the compiler could be started |
| ExeCreator.ExeSuccessDespiteFailedCompile | coursework/InstallerGenerator/InstallerGenerator/core/creators/exe_creator.py:63-69 | a compiler that starts but exits non-zero gets its stderr printed, and success is still reported |
| ExeCreator.CreateInstaller | coursework/InstallerGenerator/InstallerGenerator/core/creators/exe_creator.py:45-69 | `create_installer` gives the EXE trace; the registry gains the `EXE` key exactly when the compile step is reached and keeps all old entries |
| ExeCreator.CompileExeScript | coursework/InstallerGenerator/InstallerGenerator/core/creators/exe_creator.py:94-108 | one command is run with the `base_config` compiler; the trace is given exactly in all three cases: a start failure raises its exception after the Spawn alone; a non-zero exit prints stderr and nothing else; a zero exit prints stdout and then the success message |
| ExeCreator.ExeNoLogs | coursework/InstallerGenerator/InstallerGenerator/core/creators/exe_creator.py:45-69 | the EXE creator emits no log record |
| MsiCreator.Upper | coursework/InstallerGenerator/InstallerGenerator/core/creators/msi_creator.py:77 | `str.upper` on the identifier: same length, no lower-case letter left, each lower-case letter replaced by the capital at the same place in the alphabet, every other character kept |
| MsiCreator.UpperIdempotent | coursework/InstallerGenerator/InstallerGenerator/core/creators/msi_creator.py:77 | upper-casing an already upper-cased code changes nothing |
| MsiCreator.GenerateComponents | coursework/InstallerGenerator/InstallerGenerator/core/creators/msi_creator.py:102-122 | the loop appends one `<Component>` per file, in list order, the i-th drawing the i-th identifier after the upgrade code |
| MsiCreator.GenerateComponentRefs | coursework/InstallerGenerator/InstallerGenerator/core/creators/msi_creator.py:124-139 | the loop appends one `<ComponentRef>` per file, in list order |
| MsiCreator.GenerateMsiScript | coursework/InstallerGenerator/InstallerGenerator/core/creators/msi_creator.py:70-100 | the script draws the upgrade code first, then renders the components and the references into the product template |
| MsiCreator.ComponentsRoundTrip | coursework/InstallerGenerator/InstallerGenerator/core/creators/msi_creator.py:112-122 | the components read back as exactly one entry per file, in order, with Id = File Id = basename, Guid = its identifier, and Source = `join(source_directory, file)` |
| MsiCreator.RefsRoundTrip | coursework/InstallerGenerator/InstallerGenerator/core/creators/msi_creator.py:134-139 | the references read back as exactly the basenames of the files, in order |
| MsiCreator.HeaderRoundTrip | coursework/InstallerGenerator/InstallerGenerator/core/creators/msi_creator.py:81-89 | the product header reads back as Name = installer name, UpgradeCode = the code, INSTALLFOLDER Name = installer name |
| MsiCreator.FeatureRoundTrip | coursework/InstallerGenerator/InstallerGenerator/core/creators/msi_creator.py:91-95 | the text between the components and the references reads back as the ProductFeature opening with Title = installer name |
| MsiCreator.MsiScriptRoundTrip | coursework/InstallerGenerator/InstallerGenerator/core/creators/msi_creator.py:70-139 | the descriptor reads back with product name, folder name and feature title all equal to the installer name and the upper-cased first identifier as upgrade code; it has exactly one component per file inside INSTALLFOLDER and one reference per file inside ProductFeature, in the same order, and reference i names component i |
| MsiCreator.MsiScriptParses | coursework/InstallerGenerator/InstallerGenerator/core/creators/msi_creator.py:70-100 | the descriptor reads back stage by stage: header, components, feature, references, closing tags |
| MsiCreator.UpgradeCodeIsRendered | coursework/InstallerGenerator/InstallerGenerator/core/creators/msi_creator.py:77-84 | two different upgrade codes give two different descriptors |
| MsiCreator.CreateInstaller | coursework/InstallerGenerator/InstallerGenerator/core/creators/msi_creator.py:35-68 | `create_installer` gives the MSI trace; the registry gains the `MSI` key exactly when the compile step is reached and keeps all old entries |
| MsiCreator.MsiRejectsEmptyFileList | coursework/InstallerGenerator/InstallerGenerator/core/creators/msi_creator.py:43-45 | an empty file list prints the no-files message and returns before the name check; nothing is written or run |
| MsiCreator.MsiRejectsEmptyName | coursework/InstallerGenerator/InstallerGenerator/core/creators/msi_creator.py:47-49 | files but an empty name print the no-name message and return; nothing is written or run |
| MsiCreator.MsiValidRequestStart | coursework/InstallerGenerator/InstallerGenerator/core/creators/msi_creator.py:51-59 | a valid request first writes the descriptor to `<output>\installer.wxs`, then runs `[candle, wxs, -o, <output>\installer.wixobj]` |
| MsiCreator.MsiValidRequestCommands | coursework/InstallerGenerator/InstallerGenerator/core/creators/msi_creator.py:55-66 | the commands are candle and then, exactly when candle could start and the wixobj exists, `[light, wixobj, -o, <output>\<name>.msi]` |
| MsiCreator.MsiMissingWixobj | coursework/InstallerGenerator/InstallerGenerator/core/creators/msi_creator.py:61-63 | without the wixobj after candle, light is never run, the missing-file message is printed, and success is not reported |
| MsiCreator.MsiSuccess | coursework/InstallerGenerator/InstallerGenerator/core/creators/msi_creator.py:57-68 | success is reported exactly when the request is valid, the descriptor is written, candle and light both start, and the wixobj exists in between |
| MsiCreator.MsiRaises | coursework/InstallerGenerator/InstallerGenerator/core/creators/msi_creator.py:51-66 | the call raises exactly when the descriptor cannot be opened, candle cannot start, or light is due and cannot start |
| MsiCreator.MsiCandleErrorShown | coursework/InstallerGenerator/InstallerGenerator/core/creators/msi_creator.py:57-59 | a candle that starts and exits non-zero gets its stderr printed |
| MsiCreator.MsiLightErrorShown | coursework/InstallerGenerator/InstallerGenerator/core/creators/msi_creator.py:65-68 | a light that starts and exits non-zero gets its stderr printed, and success is still reported |
| MsiCreator.MsiNoLogs | coursework/InstallerGenerator/InstallerGenerator/core/creators/msi_creator.py:35-68 | the MSI creator emits no log record |
| MsiCreator.CompileMsiScript | coursework/InstallerGenerator/InstallerGenerator/core/creators/msi_creator.py:141-173 | `compile_msi_script`, step by step, gives the trace of candle, the wixobj check and light, with early stops |
| MsiCreator.CandleFailureStops | coursework/InstallerGenerator/InstallerGenerator/core/creators/msi_creator.py:156-160 | a non-zero candle exit prints candle's stderr and stops, before the existence check and light; the result does not depend on the file system |
| MsiCreator.CompileMsiCommands | coursework/InstallerGenerator/InstallerGenerator/core/creators/msi_creator.py:156-168 | candle is run, then light exactly when candle exits zero and the wixobj exists |
| MsiCreator.CompileMsiSuccess | coursework/InstallerGenerator/InstallerGenerator/core/creators/msi_creator.py:157-173 | success is printed exactly when candle exits zero, the wixobj exists, and light exits zero |
| Proxy.RunCreator | coursework/InstallerGenerator/InstallerGenerator/core/proxy.py:42 | the real creator is run once, with its own trace and registry effect |
| Proxy.InstallerCreatorProxy.constructor | coursework/InstallerGenerator/InstallerGenerator/core/proxy.py:16-25 | the proxy keeps the real creator and the installer type it is given |
| Proxy.InstallerCreatorProxy.CreateInstaller | coursework/InstallerGenerator/InstallerGenerator/core/proxy.py:27-47 | `create_installer` logs the start, runs the real creator once, then logs success or the error and re-raises; the registry changes as the real creator changes it |
| Proxy.WrapKeepsRun | coursework/InstallerGenerator/InstallerGenerator/core/proxy.py:39-47 | the outcome is that of the real creator, the same exception re-raised; its events come in order between the start record (INFO, tagged with the type) and one end record |
| Proxy.WrapEndRecord | coursework/InstallerGenerator/InstallerGenerator/core/proxy.py:43-47 | the end record is the success record exactly when the creator returned, and the ERROR record with the exception's text when it raised |
| Proxy.ProxyLogs | coursework/InstallerGenerator/InstallerGenerator/core/proxy.py:39-47 | a proxied run leaves exactly two log records: the start, then success or the error |
| Proxy.ProxyCommands | coursework/InstallerGenerator/InstallerGenerator/core/proxy.py:41-42 | the proxy runs no command of its own; its commands are the real creator's, in order |

## Left out

- Paths.Join, Paths.Basename: model `ntpath` for relative parts only. A second part that is absolute or has a drive (`C:`) does not restart the path, and a drive prefix is not split off. A bare drive as first part also joins differently: `ntpath.join("C:", "x")` is `C:x`, while `Join` gives `C:\x`. The directory dialogs return full directory paths, never a bare drive.
- MsiCreator.Upper: upper-cases ASCII letters only, not the full Unicode `str.upper`. A UUID's text is hexadecimal digits and hyphens.
- The round-trip lemmas (`InnoScriptRoundTrip`, `MsiScriptRoundTrip` and the ones they use) assume names, directories, file names and identifiers hold no `"` (and no newline in the EXE header fields). The source does no escaping either; without this assumption the text cannot be read back unambiguously.
- `uuid.uuid4()`, `open`, `os.path.exists` and `subprocess.run` are parts of the environment value, not real I/O. The randomness of identifiers is a parameter.
- `base_config` is not part of this model. Its compiler paths are parameters.
- Logging handlers (`logging_config.py`: the SQLite and file handlers) are left out. A log record is an event with level and message; timestamps and formatting are not modelled.
- `gui.py` is left out: the Tkinter interface, directory listing, shortcut creation, and `create_installer_factory`. The dispatch that factory does is the `Proxy.RealCreator` choice.
- `InstallerCreator` in `abc_creator.py` has no behaviour; its fields are the `Creator.Request` value.
- The iterator keeps its list as a value. Aliasing of the Python list by a caller who changes it during iteration is not modelled.
- The `compile_script` docstring says it raises `RuntimeError` on a non-zero exit. The code only prints and returns, and the model follows the code.
- Exceptions other than those raised by `open` and by starting a process (such as a failing write or a full disk) are not modelled.
- A compiler that never exits cannot be represented. `subprocess.run` is called without a timeout in `flyweight.py`, `exe_creator.py` and `msi_creator.py`, but `Env.spawn` always gives back a finished process or a start failure.
- Concurrency is not modelled. The registry is one shared object with calls made one after another.
