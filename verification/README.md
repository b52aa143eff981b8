# dotnet-call, modelled in Dafny

`dotnet call -a <assembly> -c <namespace.class> -m <method> [-d <json>]` searches
below the current directory for `<assembly>.dll`, loads it, creates an instance of
the class, looks up the method, deserialises the JSON data into the method's one
parameter and calls the method. This project models `src/Program.cs` as pure
functions over abstract inputs, because the code keeps no state that changes after
startup. It covers:

- **Locator** (`locator.dfy`): `FindFile` over a finite directory tree
  `Dir(files, subdirs)`, with each listing in a fixed enumeration order. A result is a
  `FilePath(route, entry)`: the subdirectory indices from the starting directory, plus
  the file's position in that directory's listing. `None` stands for the exception
  "Could not find the assembly". `Directory.GetFiles(d, "<assembly>.dll")` is
  `MatchingEntries`: the entries equal to that name, in listing order.
- **Logging** (`logging.dfy`): the static constructor sets `_log` from
  `DOTNET_CALL_LOG` using `Boolean.TryParse`. That parser strips white space and NUL
  from both ends, then compares with `true`/`false` ignoring ASCII case. `Log` writes
  a message when `_log` or `forceLog` is set. Each call site's message is a value of
  `Message`.
- **Invocation** (`invocation.dfy`): `Invoke` as a chain of stages in source order:
  search, load, `GetType`, `CreateInstance`, `GetMethod`, arity check, JSON binding and
  call. `Runtime` is an input that says what each collaborator does on this run. The
  first stage that fails ends the run with a `Fault`.
- **Program** (`program.dfy`): the `OnExecute` callback with its required-option
  gate, and the process around it. `cli_options.dfy` mirrors `CliOptions`.

The code does less than a reader of its names might expect. The model follows the code:

- `FindFile` is not a depth-first search over every subdirectory. Its loop returns on
  the first iteration, so only the first subdirectory at each level is searched
  (`LaterSiblingsIgnored`, `SiblingMatchMissed`).
- Several matches in one directory are not reported as an ambiguity. The first one is
  returned (`FirstSubdirectoryMatch`).
- A method without parameters is not called with the data ignored. `Invoke` indexes
  `parameters[0]` and fails (`InvokeArity`).
- A missing class does not produce a list of the types available. `null` reaches
  `Activator.CreateInstance`, which throws (`Fault.TypeNotFound`).
- `-d` is optional only at the gate. A one-parameter method then fails at
  `JObject.Parse(null)` (`DataOptionNotRequired`).
- A missing required option does not give exit code 1 from the process. The process
  exits with 0 (see Findings).

## Model

| member | source | states |
|---|---|---|
| `Logging.Trim` | src/Program.cs:15 | The trimmed value is no longer than the input, and it neither starts nor ends with white space or NUL. |
| `Logging.TrimPadded` | src/Program.cs:15 | Trimming `pre + w + post` gives exactly `w` when the padding is all white space or NUL and `w` has no such character at either end. |
| `Logging.TryParseBoolPadded` | src/Program.cs:15 | `Boolean.TryParse` reads `true` or `false` in any ASCII case, with any surrounding white space or NUL, as that boolean. |
| `Logging.TryParseBool` | src/Program.cs:15 | A value parses exactly when it is present and, once trimmed, spells "true" or "false" ignoring ASCII case. The boolean it gives is the one spelled. |
| `Logging.InitialLogFlag` | src/Program.cs:12-16 | `_log` is true iff the variable is set and, once trimmed, spells "true" in any case. It is false when the variable is absent, does not parse, or parses as false. |
| `Logging.Log` | src/Program.cs:19-23 | One call writes at most one line, and that line is the message. |
| `Logging.Emit` | src/Program.cs:19-23 | A series of unforced `Log` calls writes all of its messages in order when logging is on, and nothing when it is off. |
| `Logging.LogGate` | src/Program.cs:15-23 | A message is written iff the call forces it or the environment value parses as `true`. Otherwise nothing is written. |
| `Locator.MatchingEntries` | src/Program.cs:80 | `GetFiles` gives exactly the listing positions whose name equals the pattern, each once, in increasing order. |
| `Locator.FirstMatchingEntry` | src/Program.cs:80-83 | `GetFiles` finds nothing iff no entry has the name. Otherwise its first result is the earliest entry with that name. |
| `Locator.FindFile` | src/Program.cs:75-89 | A result lies at depth one or more, on the first-subdirectory chain. Its directory exists, and the result is the first entry there named `<assembly>.dll`. |
| `Locator.FindFileComplete` | src/Program.cs:78-88 | If a directory at depth `k >= 1` on the first-subdirectory chain lists the file, the search succeeds at depth at most `k`. |
| `Locator.FindFileShallowest` | src/Program.cs:80-85 | No directory on the chain above the returned one lists the file. |
| `Locator.FindFileSpec` | src/Program.cs:75-89 | The search fails iff no directory on the chain below the start lists the file. Otherwise it returns the first matching entry of the shallowest directory on the chain that lists it. |
| `Locator.StartFilesIgnored` | src/Program.cs:78-80 | The files directly in the starting directory never affect the result. |
| `Locator.NoSubdirectoriesNotFound` | src/Program.cs:77-88 | A directory without subdirectories gives "Could not find the assembly", whatever files it holds, after logging one "Looking for" message. |
| `Locator.LaterSiblingsIgnored` | src/Program.cs:78-86 | Replacing every subdirectory after the first leaves the result unchanged. |
| `Locator.FirstSubdirectoryMatch` | src/Program.cs:80-83 | A match in the first subdirectory is returned at once, at route `[0]`, as its first matching entry, even when there are several matches. |
| `Locator.FirstSubdirectoryNoMatch` | src/Program.cs:85 | Without a match in the first subdirectory, the result is the search inside it with the route extended by `0`, or the same failure. |
| `Locator.SiblingMatchMissed` | src/Program.cs:78-88 | In a tree whose only `Lib.dll` is in the second subdirectory, the search for `Lib` fails. |
| `Locator.FindFileMessages` | src/Program.cs:77-85 | The search's first message is "Looking for" in the directory where it starts. Every message it hands to `Log` is either "Looking for" or "Found n files". |
| `Locator.FindFileMessagesCount` | src/Program.cs:77-85 | The search logs two messages per level down to a match, or twice the chain length plus one when nothing is found. |
| `Invocation.Invoke` | src/Program.cs:51-73 | A run completes iff every stage passes: the search, the load, the type lookup, construction, a unique method with exactly one parameter, data present, binding and the call. The search's messages come first in the log. |
| `Invocation.InvokeArity` | src/Program.cs:62-72 | Once a unique method is found: more than one parameter throws the "multiple parameters" exception, and none fails at `parameters[0]`. The data is deserialised iff there is exactly one. |
| `Invocation.DataIgnoredUnlessSingleParameter` | src/Program.cs:62-70 | Unless the method found takes exactly one parameter, the run does not depend on the `-d` data. |
| `Invocation.LoadedAssemblyFound` | src/Program.cs:53-57 | The path logged as loaded is the path the search returned. It lies below the current directory and names `<assembly>.dll`. |
| `Program.ToCliOptions` | src/Program.cs:39 | Each `CliOptions` field is the value of its option. An absent `-d` stays null. |
| `Program.OnExecute` | src/Program.cs:35-46 | Returns 1 iff one of `-a`, `-c`, `-m` lacks a value, and then writes exactly the forced "Required input was not supplied". Returns 0 iff they are present and `Invoke` completes. Otherwise the exception escapes. |
| `Program.RunProgram` | src/Program.cs:26-49 | The process as written exits normally exactly when `OnExecute` returns, and then always with code 0. Otherwise it ends with the exception `OnExecute` let escape. Its output is that of `OnExecute`. |
| `Program.RunProgramWithExitCode` | src/Program.cs:37-48 | With the callback's code as the exit code, the process exits with 1 iff a required option is missing, and with 0 iff the invocation completes. |
| `Program.MissingInputExitsZero` | src/Program.cs:41-48 | For every input missing `-a`, `-c` or `-m`, `OnExecute` returns 1, but the process as written exits with 0. The corrected one exits with 1. |
| `Program.RunOutput` | src/Program.cs:37-45 | With logging off, a run writes nothing but the forced missing-input message. With logging on, it writes every message `Invoke` logged, in order. |
| `Program.DataOptionNotRequired` | src/Program.cs:37-39 | Without `-d`, `Invoke` still runs (the exit is not 1), but it cannot complete. |

## Findings

| source | as written | input that shows it | evidently intended | confidence | as-written member | corrected member |
|---|---|---|---|---|---|---|
| src/Program.cs:26-48 | `static void Main` drops the value `Execute(args)` returns. The process therefore exits with 0 even when `OnExecute` returns 1 for a missing required option. | any run missing `-a`, `-c` or `-m`, such as `dotnet call` with no options | `static int Main` returning `Execute(args)`, so that a missing option gives exit code 1 | not executed; high | `Program.MissingInputExitsZero` (about `Program.RunProgram`) | `Program.RunProgramWithExitCode` |

## Left out

- Locator.MatchingEntries: does not model the wildcards `*` and `?`, or a path separator, in the `-a` value. `Directory.GetFiles` reads these in its pattern on every platform; the model compares names for equality. For example, `-a "*"` finds `Foo.dll` in the source but nothing in the model.
- Locator.FindFile: does not model symbolic-link cycles. The finite `Dir` tree has none. On a cycle along the first-subdirectory chain, the source's recursion runs until the path is too long or the stack overflows.
- The real filesystem is not modelled. The current directory is an input tree with a fixed enumeration order, and OS order is not modelled. A name matches only when it is exactly equal: the case-insensitive matching of some platforms is not modelled.
- Paths are routes of subdirectory indices plus a listing position, not path strings.
- Assembly loading, reflection (`GetType`, `Activator.CreateInstance`, `GetMethod`, `MethodInfo.Invoke`) and Newtonsoft's `JObject.Parse(...).ToObject(...)` are foreign runtime facilities. Only their success or failure on a run is modelled, as `Runtime` inputs. Each stage's exception types are merged into one `Fault`.
- `CommandLineApplication` parsing, the help option and unexpected arguments belong to a third-party library. The model starts from the option values the parser produced.
- The console and the environment-variable read are not modelled. The variable's value is an input, and a line written is a `Message` value rather than formatted text. `Log`'s unused `format` parameter is not modelled.
- How the .NET runtime reports an unhandled exception (its message and its non-zero exit status) is not modelled. Such a run ends in `Crashed(fault)`.
- `Boolean.TryParse` and `char.IsWhiteSpace` are .NET library code. The model writes them out following .NET Core's implementation: trim `char.IsWhiteSpace` characters and NUL from both ends, then compare with `true`/`false` ignoring ASCII case.
