# Crux tool adapter for BenchExec

This project models `crux-llvm/svcomp/def-files/crux.py`. That file is the BenchExec tool-info module that runs the Crux SV-COMP driver (`crux-llvm-svcomp-driver.sh`) on a verification task and turns what the driver prints into a BenchExec result. It has four operations:

- **name**: the tool's name, `"Crux"` (`Crux.Name`).
- **version**: the tool's version report from its first `version:` on. The model follows Python's `str.find` and `s[i:]` exactly. When the marker is missing, `find` gives -1 and `s[-1:]` keeps only the last character, or nothing if the report is empty.
- **determine_result**: a scan over the output lines. The first line that contains one of eleven fixed markers decides the verdict. The `if`/`elif` chain tests VERIFIED first, then the seven parenthesised FALSIFIED kinds, then bare FALSIFIED, then UNKNOWN, then ERROR. UNKNOWN gives `RESULT_UNKNOWN + "(incomplete)"`. Output without any marker gives plain `RESULT_UNKNOWN`.
- **cmdline**: extends the caller's option list in place. It adds `--svcomp-spec <file>` when the task has a non-empty property file (Python truthiness, so an empty name counts as absent). It adds `--svcomp-arch 32bit|64bit` when the task has a data model. It always adds `--config unreach-call.config`. It returns the executable, then the options, then the task's input files.

Files:

- `pystr.dfy`, module `PyStr`: Python's substring test (`in`), `str.find` and the open-ended slice.
- `benchexec.dfy`, module `BenchExec`: the BenchExec result categories as a datatype, the data models, the task record and `get_data_model_from_task`.
- `crux.dfy`, module `Crux`: the tool.

Modelling choices:

- `determine_result` is a method with a loop (`Crux.DetermineResult`). It is proved against the function `Crux.Determined`, and the lemmas are about that function.
- One line is classified by `Crux.ClassifyLine`, which is the `if`/`elif` chain as written. It is proved equal to an independent reading over the ordered marker table `Crux.Markers`. Every property of single lines is stated in terms of that table.
- The caller's list in `cmdline` is a `Crux.ArgList` object. `Crux.Cmdline` changes it. The new list and the returned command line are tied to the functions `Crux.AddedOptions` and `Crux.CommandLine`.
- `Task.inputFiles` stands for BenchExec's `task.input_files_or_identifier`: the task's input files or, for a task without any, its identifier. The model treats it as an opaque list of strings that `cmdline` copies to the end of the command line.
- The "pair present iff" properties are stated on the flag/value pairs (`Crux.FlagPairs`, lemma `Crux.FlagPairsContents`), not on the flat argument list. The caller's options or an input file name may hold the string `--svcomp-spec` too, so no such iff holds of the flat list. `Crux.CommandLineLayout` says where each pair sits in the flat list.

## Model

| member | source | states |
|---|---|---|
| `Crux.Name` | crux-llvm/svcomp/def-files/crux.py:21-22 | The tool's name is the constant `"Crux"`. |
| `PyStr.Find` | crux-llvm/svcomp/def-files/crux.py:38 | `s.find(pat)` is -1 exactly when `pat` does not occur. Otherwise it is an index where `pat` occurs and no earlier index has it. |
| `PyStr.SliceFrom` | crux-llvm/svcomp/def-files/crux.py:38 | `s[i:]` is always a suffix of `s`. It is `s[i..]` for `0 <= i <= len(s)`, empty for `i` past the end, the last `-i` characters for negative `i`, and all of `s` for `i < -len(s)`. |
| `Crux.Version` | crux-llvm/svcomp/def-files/crux.py:36-38 | The result is a suffix of the report. If the report contains `version:`, the suffix begins at its first occurrence. If not, the result is the report's last character, or empty for an empty report. |
| `Crux.ClassifyLineIsFirstMarker` | crux-llvm/svcomp/def-files/crux.py:42-63 | The `if`/`elif` chain gives the verdict of the first entry of the ordered marker table whose marker the line contains, or none. |
| `Crux.ClassifyLineVerdict` | crux-llvm/svcomp/def-files/crux.py:42-63 | A line yields the verdict of marker `k` iff it contains marker `k` and none of the markers tested before `k`. |
| `Crux.ClassifyLineNone` | crux-llvm/svcomp/def-files/crux.py:41-63 | A line yields no verdict iff it contains none of the eleven markers. |
| `Crux.ClassifyLineNeverPlainUnknown` | crux-llvm/svcomp/def-files/crux.py:60-64 | No single line yields plain `RESULT_UNKNOWN`. Every verdict a line yields is announced by some marker. |
| `Crux.VerifiedWins` | crux-llvm/svcomp/def-files/crux.py:42-43 | A line holding the VERIFIED marker is a true-property verdict, whatever other markers it also holds. |
| `Crux.SpecificContainsFalsified` | crux-llvm/svcomp/def-files/crux.py:44-59 | Every line holding a parenthesised FALSIFIED marker also holds the bare FALSIFIED marker. So the specific tests must come first. |
| `Crux.SpecificNeverGeneric` | crux-llvm/svcomp/def-files/crux.py:44-59 | A line holding one of the seven parenthesised FALSIFIED markers always gets a verdict, and never the generic false-property one. Without VERIFIED, it gets the verdict of a specific marker tested no later than the one it holds. |
| `Crux.GenericFalsified` | crux-llvm/svcomp/def-files/crux.py:58-59 | The generic false-property verdict comes exactly from a line with the bare FALSIFIED marker and neither VERIFIED nor any of the seven parenthesised markers. |
| `Crux.DeterminedByFirstMatch` | crux-llvm/svcomp/def-files/crux.py:41-63 | The first output line that holds a marker decides the result. |
| `Crux.DeterminedPlainUnknown` | crux-llvm/svcomp/def-files/crux.py:40-64 | The result is plain `RESULT_UNKNOWN` iff no line holds a marker, including for empty output. |
| `Crux.LaterLinesIgnored` | crux-llvm/svcomp/def-files/crux.py:41-63 | After the deciding line, no later line changes the result, even one with a different marker. |
| `Crux.IncompleteIsNotPlain` | crux-llvm/svcomp/def-files/crux.py:60-64 | A deciding UNKNOWN line gives `RESULT_UNKNOWN + "(incomplete)"`, which differs from the plain unknown. |
| `Crux.DetermineResult` | crux-llvm/svcomp/def-files/crux.py:40-64 | The loop returns the verdict of the first line that holds a marker. Every earlier line holds none. If no line holds a marker, it returns plain unknown. |
| `Crux.FlagPairsContents` | crux-llvm/svcomp/def-files/crux.py:25-33 | `(--svcomp-spec, f)` is added iff the task's property file is `f` and non-empty. `(--svcomp-arch, a)` is added iff the data model is ILP32 and `a` is `32bit`, or LP64 and `64bit`. `(--config, unreach-call.config)` is always added, and last. The flags come in the order spec, arch, config, each at most once. |
| `Crux.FlattenAt` | crux-llvm/svcomp/def-files/crux.py:26-33 | Pair `k` of the added options lands at flat positions `2k` (flag) and `2k+1` (value). |
| `Crux.AddedOptionsExplicit` | crux-llvm/svcomp/def-files/crux.py:25-33 | The added options are the spec pair (if a property file is present), then the arch pair for ILP32/LP64 (if a data model is present), then the config pair. |
| `Crux.CommandLineLayout` | crux-llvm/svcomp/def-files/crux.py:34 | The command line starts with the executable. Next come the caller's options unchanged, the added pairs at their positions, and last the input files in their original order. The length is `1 + len(options) + 2·pairs + len(inputs)`. |
| `Crux.ArgList.Extend` | crux-llvm/svcomp/def-files/crux.py:26 | `list += more` appends `more` to the end of the caller's list. |
| `Crux.Cmdline` | crux-llvm/svcomp/def-files/crux.py:24-34 | The caller's list afterwards is its old contents followed by the added options. The returned list is the command line built from the OLD options. |

## Left out

- `Tool.executable` (crux.py:18-19): it asks BenchExec's `tool_locator` to search the file system, so it is not modelled.
- `Tool.program_files` (crux.py:66-67): it concatenates the executable with `REQUIRED_PATHS`, a BenchExec class attribute that is not part of this model.
- `_version_from_tool` runs the tool binary. `Crux.Version` takes the report the binary prints as a parameter.
- The `rlimits` argument of `cmdline` is not used by the source, so `Crux.Cmdline` does not take it.
- The concrete strings of `benchexec.result.RESULT_*` are not modelled. Each constant is a constructor of `BenchExec.Verdict`, and string concatenation onto `RESULT_UNKNOWN` is the `suffix` field of `Unknown`.
- `BenchExec.DataModelFromTask`: it only reads the task's data-model field. BenchExec's real `get_data_model_from_task` also checks that the task's language is C and raises an error for an unsupported data model. Its source is not part of this model.
- `vscode-crux-llvm/server/src/server.ts`: language-server plumbing built on asynchronous callbacks and child processes, so it is not modelled.
- `operation_trace_pb2.py`: generated protobuf descriptor registration. Encoding and decoding happen inside the protobuf library, which is not part of this model.
- `crux-llvm/tests/abduction/*.c`: input programs for the symbolic executor, not logic of the repository.
