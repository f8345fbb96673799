# ReproZip packing, containerexec replay and VisTrails export — a Dafny model

This project models three pieces of ReproZip / ReproUnzip and proves
properties about them.

- **`reprozip pack`** (module `Pack`). It checks two guards, then lists the
  archive's members in order: the version marker, the configuration, the
  trace if there is one, then each file of every package whose files are
  packed, each followed by its whole chain of symbolic links, and finally
  the other files. The filesystem is an abstract value: a set of existing
  paths, a set of regular files, and a map from each link to its target
  text. Link targets are resolved with `posixpath.dirname` / `posixpath.join`,
  written out in module `Paths`. The archive is the sequence of members
  passed to `tar.add`, each under the name `tar.add` is given. Packing
  fails on the first member whose path `tar.add` cannot read.
- **`reprounzip containerexec run`** (module `ContainerExec`). It builds the
  single shell command that replays the selected runs and picks the
  uid/gid of the last run. It returns `signal or value` from the executor.
  The unpacked metadata is updated and written only when the executor
  returns.
  Escaping, the X11 handler, the environment fix-up, the executor, the
  metadata update and the metadata write are function parameters, and nothing is assumed about
  them.
- **The VisTrails plugin** (modules `VistrailsText`, `VistrailsWorkflow`,
  `VistrailsExport`, `VistrailsCli`). It covers:
  - `escape_xml` and its inverse;
  - `split_sig` and `split(':', 1)`;
  - Python's `sorted` on strings;
  - the `IdScope` counters;
  - the `Workflow` writer, which emits a stream of abstract XML records;
  - `do_vistrails`: the Directory module, then for each run its module,
    functions and sorted input/output ports, chained Directory → run0 →
    run1 → …;
  - `run_from_vistrails`: the interface-version check, the upload
    specifications, the run call and the download calls.

Module `Common` holds `Option`/`Result`, Python's `str.join` (`JoinWith`),
and `'%d' % n` / `int(s)` (`Decimal`, `ParseInt`).

Each imperative operation is a `method` proved against a specification
function. The specification functions have lemmas that state what the
source promises.

## Model

| member | source | states |
|---|---|---|
| Pack.Pack | reprozip/pack.py:11-73 | An existing target gives `TargetExists`, checked before the config. A missing `config.yml` gives `ConfigMissing`. Past the guards, the first member whose path `tar.add` cannot read gives `AddMissing` with that path. Packing succeeds iff both guards pass and every member can be read, and then the archive members are exactly `PackMembers`. |
| Pack.FindAbsent | reprozip/pack.py:58-71 | Scans the members in the order `tar.add` receives them, and returns the first path it cannot read. |
| Pack.FirstAbsentSpec | reprozip/pack.py:58-71 | No path is reported iff every file member can be read. A reported path belongs to a member that cannot be read, and every file member before it can. |
| Pack.DanglingLinkFails | reprozip/pack.py:58-63 | A packed file whose link points at a path that does not exist makes packing fail. |
| Pack.WriteArchive | reprozip/pack.py:30-73 | The members appended to the archive are exactly `PackMembers(directory, fs, cfg)`. |
| Pack.AddPackages | reprozip/pack.py:52-65 | The loop over packages appends exactly `PackagesPayload`. A package with `packfiles` false contributes nothing. |
| Pack.AddFiles | reprozip/pack.py:54-63 | The loop over a package's files appends each file's member list, in file order. |
| Pack.AddFile | reprozip/pack.py:57-63 | The `while islink` loop appends the file, then every link target along its chain, and stops at the first path that is not a link. |
| Pack.ReadLinkTarget | reprozip/pack.py:60-61 | The resolved next path is `join(dirname(t), readlink(t))`. |
| Pack.AddOthers | reprozip/pack.py:69-71 | Other files are appended unconditionally, in config order, with no link following. |
| Pack.PackMembersLayout | reprozip/pack.py:34-71 | Member 0 is `METADATA/version` with text `REPROZIP VERSION 1\n`. Member 1 is `METADATA/config.yml`. `METADATA/trace.sqlite3` is next iff the trace is a regular file. Then comes the package payload, then the other files, each at its index. |
| Pack.ResolveResolves | reprozip/pack.py:59-62 | Every link's successor is its target joined to the link's directory: an absolute target replaces it, a relative one is appended. |
| Pack.FileMembersShape | reprozip/pack.py:57-63 | A file's members are the file followed by its chain. Each member after the first is the resolved target of the one before it. The last member is not a link. |
| Pack.FileMembersContain | reprozip/pack.py:57-63 | A member belongs to a file's list iff it is a payload member whose path is on the file's link chain. |
| Pack.PackagesPayloadContain | reprozip/pack.py:52-63 | A member is in the package payload iff some packed package has a file whose chain contains it. |
| Pack.ChainEndsIff | reprozip/pack.py:59 | The bounded test for loop termination holds iff following links reaches a non-link at all. |
| Pack.ChainDistinct | reprozip/pack.py:59-63 | On a terminating chain no path repeats, so the loop adds each chain path once. |
| Pack.ChainLengthUnique | reprozip/pack.py:59-63 | A chain has at most one length. |
| Pack.StepsIsChainLength | reprozip/pack.py:59-63 | The fuel-bounded step count is the chain's length whenever the fuel reaches a non-link. |
| Pack.FollowAdd | reprozip/pack.py:59-63 | Following a+b links equals following a links, then b links. |
| Pack.FlattenContain | reprozip/pack.py:52-63 | A member is in the concatenated lists iff it is in one of them. |
| Pack.OtherPayloadAt | reprozip/pack.py:69-71 | The i-th other-file member is the i-th other file. |
| Paths.DirnameShape | reprozip/pack.py:60 | `dirname` returns a prefix of the path. It is empty iff the path has no `/`, and it ends in `/` only when it is all slashes. What follows it is slashes, then a slash-free base name. |
| Paths.JoinShape | reprozip/pack.py:60-61 | `join(a, b)` is `b` when `b` is absolute, else `a`, then a `/` unless `a` is empty or ends with one, then `b`. |
| Paths.RStripSlashesShape | reprozip/pack.py:60 | Stripping gives a prefix that does not end with `/`. Only slashes are removed. |
| Paths.SlashesAll | reprozip/pack.py:60 | A string is a run of slashes iff every character is `/`. |
| ContainerExec.BuildCommand | reprounzip-containerexec/reprounzip/unpackers/containerexec/default.py:63-89 | The command is the X11 init commands, each wrapped in `/bin/sh -c`, then one command per selected run, all joined with ` && `. uid/gid are those of the last selected run, or 0/0 when none is selected. |
| ContainerExec.ContainerexecRun | reprounzip-containerexec/reprounzip/unpackers/containerexec/default.py:41-121 | The executor runs the built command as the last run's owner. If execution, the metadata update or the metadata write raises a `BenchExecException` or `OSError` (a `Failure` of that step), it exits with `Cannot execute process: <error>.` for the first such error. Otherwise it returns code `ReturnCode` with the metadata updated for the selected runs. |
| ContainerExec.ReturnCode | reprounzip-containerexec/reprounzip/unpackers/containerexec/default.py:121 | The code is 0 iff signal and value are both 0. It is the signal when the signal is non-zero, and the exit value otherwise. |
| ContainerExec.ExecutedArgv | reprounzip-containerexec/reprounzip/unpackers/containerexec/default.py:80-83 | With `--cmdline`, argv is exactly the override. Without it, argv starts with the run's binary and keeps `argv[1:]`; an empty recorded argv gives just `[binary]`. |
| ContainerExec.RunCommandsAt | reprounzip-containerexec/reprounzip/unpackers/containerexec/default.py:66-86 | There is exactly one per-run command per selected run, in selection order. |
| ContainerExec.RunCommandsNext | reprounzip-containerexec/reprounzip/unpackers/containerexec/default.py:66-86 | Each loop iteration appends the current run's command. |
| ContainerExec.CombinedOrder | reprounzip-containerexec/reprounzip/unpackers/containerexec/default.py:87-89 | The X11 init part comes first, then ` && `, then the run commands. Either part alone is just that part joined. |
| ContainerExec.InnerCommandPrefix | reprounzip-containerexec/reprounzip/unpackers/containerexec/default.py:70-71 | Every run command starts with `cd ESC(workingdir) && /usr/bin/env -i `. |
| ContainerExec.EnvironmentThroughFixups | reprounzip-containerexec/reprounzip/unpackers/containerexec/default.py:72-75 | The environment reaches the command only through `fixup_environment(fix_env(environ))`. |
| ContainerExec.CmdlineOverrides | reprounzip-containerexec/reprounzip/unpackers/containerexec/default.py:82-83 | With `--cmdline`, every run executes the override: its argv is the override, the command ends with the override's escaped words, and the run's own binary and argv do not matter. |
| ContainerExec.ArgvZeroReplaced | reprounzip-containerexec/reprounzip/unpackers/containerexec/default.py:80-81 | Without `--cmdline`, the recorded `argv[0]` does not matter. |
| Common.JoinWithAppend | reprounzip-containerexec/reprounzip/unpackers/containerexec/default.py:87-89 | Joining `xs + ys` is joining `xs`, the separator, then joining `ys`, for non-empty parts. |
| Common.ParseDecimal | reprounzip-vistrails/reprounzip/plugins/vistrails.py:291 | `int` of a decimal numeral gives back its number. |
| Common.DigitsValueOfDecimal | reprounzip-vistrails/reprounzip/plugins/vistrails.py:251 | `'%d' % n` is a digit string whose value is n. |
| Common.Decimal | reprounzip-vistrails/reprounzip/plugins/vistrails.py:251 | `'%d' % n` is non-empty and made only of digits. |
| Common.RFindIsLast | reprounzip-vistrails/reprounzip/plugins/vistrails.py:83 | The result is the index of the last occurrence, or -1 when there is none. |
| Common.FindIsFirst | reprounzip-vistrails/reprounzip/plugins/vistrails.py:339 | The result is the index of the first occurrence, or -1 when there is none. |
| VistrailsText.EscapeXmlRoundTrip | reprounzip-vistrails/reprounzip/plugins/vistrails.py:42-45 | Replacing `&quot;` by `"`, then `&amp;` by `&`, recovers the input of `escape_xml`. |
| VistrailsText.EscapeXmlInjective | reprounzip-vistrails/reprounzip/plugins/vistrails.py:42-45 | Distinct strings escape to distinct strings. |
| VistrailsText.EscapeXmlNoQuote | reprounzip-vistrails/reprounzip/plugins/vistrails.py:45 | The output of `escape_xml` contains no `"`. |
| VistrailsText.EscapeXmlCons | reprounzip-vistrails/reprounzip/plugins/vistrails.py:45 | The two sequential replaces escape character by character: `&` becomes `&amp;`, `"` becomes `&quot;`, and every other character is kept. |
| VistrailsText.UnescapeQuote | reprounzip-vistrails/reprounzip/plugins/vistrails.py:45 | Undoing the quote step of `escape_xml` leaves exactly its `&` step. |
| VistrailsText.UnescapeAmp | reprounzip-vistrails/reprounzip/plugins/vistrails.py:45 | Replacing `&` by `&amp;` is undone by replacing `&amp;` by `&`. |
| VistrailsText.ReplaceSkip | reprounzip-vistrails/reprounzip/plugins/vistrails.py:45 | `str.replace` leaves a prefix alone when the prefix cannot start a match. |
| VistrailsText.SplitSig | reprounzip-vistrails/reprounzip/plugins/vistrails.py:82-84 | Fails iff the signature has no `:`. Otherwise the name has no `:` and `pkg + ":" + name` is the signature. |
| VistrailsText.SplitSigJoin | reprounzip-vistrails/reprounzip/plugins/vistrails.py:82-84 | Splitting `pkg:name`, with a name free of `:`, gives back `(name, pkg)`. |
| VistrailsText.SplitFirst | reprounzip-vistrails/reprounzip/plugins/vistrails.py:339 | Fails iff there is no `:`. Otherwise the first part has no `:` and `first + ":" + rest` is the input. |
| VistrailsText.SplitFirstJoin | reprounzip-vistrails/reprounzip/plugins/vistrails.py:339 | Splitting `first:rest`, with a first part free of `:`, gives back both parts. |
| VistrailsText.Sort | reprounzip-vistrails/reprounzip/plugins/vistrails.py:242-245 | `sorted` returns an ordered permutation of its input. |
| VistrailsText.Insert | reprounzip-vistrails/reprounzip/plugins/vistrails.py:242-245 | Inserting into an ordered list keeps it ordered and adds exactly the new element. |
| VistrailsText.SortedUnique | reprounzip-vistrails/reprounzip/plugins/vistrails.py:242-245 | Two ordered permutations of the same strings are equal, so the port order is determined. |
| VistrailsText.SortedPairwise | reprounzip-vistrails/reprounzip/plugins/vistrails.py:242-245 | In an ordered list every earlier element is at most every later one. |
| VistrailsText.StrLessTotal | reprounzip-vistrails/reprounzip/plugins/vistrails.py:242-245 | Python's string order is irreflexive, asymmetric and total. |
| VistrailsText.StrLessTrans | reprounzip-vistrails/reprounzip/plugins/vistrails.py:242-245 | Python's string order is transitive. |
| VistrailsWorkflow.IdScope.constructor | reprounzip-vistrails/reprounzip/plugins/vistrails.py:49-59 | Every one of the ten counters starts at 0. |
| VistrailsWorkflow.IdScope.Next | reprounzip-vistrails/reprounzip/plugins/vistrails.py:61-77 | Returns the current value of one counter, increments that counter, and leaves the others unchanged. |
| VistrailsWorkflow.Workflow.constructor | reprounzip-vistrails/reprounzip/plugins/vistrails.py:88-100 | The file holds just the header, and the y position is 0. |
| VistrailsWorkflow.Workflow.Close | reprounzip-vistrails/reprounzip/plugins/vistrails.py:102-105 | Appends the footer and nothing else. |
| VistrailsWorkflow.Workflow.AddModule | reprounzip-vistrails/reprounzip/plugins/vistrails.py:107-135 | Fails iff the signature has no `:`. Otherwise it returns a fresh module id and writes the module and location records at the current y, plus an annotation when a description is given. It takes two `add` ids, three with a description, and lowers y by 100. |
| VistrailsWorkflow.Workflow.WriteModule | reprounzip-vistrails/reprounzip/plugins/vistrails.py:110-134 | Appends the module, location and optional annotation records at the current y. Uses two `add` ids, three with a description, plus one `location` id and, with a description, one `annotation` id. Leaves the other counters alone and lowers y by 100. |
| VistrailsWorkflow.Workflow.AddFunction | reprounzip-vistrails/reprounzip/plugins/vistrails.py:137-155 | Writes one function record, then one parameter per value with position i, using one `function` id and one `add` id plus one `parameter` id per value. |
| VistrailsWorkflow.Workflow.WriteParameters | reprounzip-vistrails/reprounzip/plugins/vistrails.py:149-155 | Parameter i gets position i, the next `add` and `parameter` ids, and the escaped value. No other counter changes. |
| VistrailsWorkflow.Workflow.Connect | reprounzip-vistrails/reprounzip/plugins/vistrails.py:157-181 | Succeeds iff both signatures split. It then writes one connection with its two ports, using three `add` ids, one `connection` id and two `port` ids. |
| VistrailsWorkflow.Workflow.AddPortSpec | reprounzip-vistrails/reprounzip/plugins/vistrails.py:183-202 | Writes the port spec, then one item per signature, then the closing record, using one `add`, one `portspec` and one `portspecitem` id per item. |
| VistrailsWorkflow.ParamRecordsAt | reprounzip-vistrails/reprounzip/plugins/vistrails.py:149-155 | Parameter record i carries position i, `add` id a+i and `parameter` id p+i. |
| VistrailsWorkflow.ParamRecordsNext | reprounzip-vistrails/reprounzip/plugins/vistrails.py:149-155 | Each loop iteration appends one parameter record. |
| VistrailsWorkflow.ItemRecordsAt | reprounzip-vistrails/reprounzip/plugins/vistrails.py:193-200 | Port-spec item i carries `portspecitem` id psi+i, the i-th module and package, and position i. |
| VistrailsWorkflow.ItemRecordsNext | reprounzip-vistrails/reprounzip/plugins/vistrails.py:193-200 | Each loop iteration appends one item record. |
| VistrailsExport.DoVistrails | reprounzip-vistrails/reprounzip/plugins/vistrails.py:214-267 | The workflow starts with the header and ends with the footer, and its records summarise to `ExportSummary` over all runs. |
| VistrailsExport.ExportDirectory | reprounzip-vistrails/reprounzip/plugins/vistrails.py:235-239 | The Directory module is module 0 at y 0, with one `directory` function holding the escaped target. |
| VistrailsExport.ExportRun | reprounzip-vistrails/reprounzip/plugins/vistrails.py:241-265 | Run i adds module i+1 at y -100(i+1) with its functions, ports and a connection from module i. The run's module becomes the next `connect_from`. |
| VistrailsExport.AddRunModule | reprounzip-vistrails/reprounzip/plugins/vistrails.py:250-256 | Adds the Run module, with description `id` or `run<i>`, and its `cmdline` and `run_number` functions. |
| VistrailsExport.AddRunPorts | reprounzip-vistrails/reprounzip/plugins/vistrails.py:259-260 | One port spec per port, in order, each with its escaped name and type. |
| VistrailsExport.AddRunPort | reprounzip-vistrails/reprounzip/plugins/vistrails.py:260 | One port spec of the given type and name on module m. |
| VistrailsExport.AddExportModule | reprounzip-vistrails/reprounzip/plugins/vistrails.py:107-135 | Adds one module with the next module id, one step down in y. |
| VistrailsExport.AddExportFunction | reprounzip-vistrails/reprounzip/plugins/vistrails.py:137-155 | Adds one single-valued function with its escaped value. |
| VistrailsExport.AddExportConnection | reprounzip-vistrails/reprounzip/plugins/vistrails.py:263-264 | Adds the `experiment` connection from module `from` to module `to`. |
| VistrailsExport.RunPorts | reprounzip-vistrails/reprounzip/plugins/vistrails.py:242-247 | Run i's inputs are the sorted names of files read by run i, and its outputs the sorted names of files written by it. All inputs come before all outputs. |
| VistrailsExport.ReadListed | reprounzip-vistrails/reprounzip/plugins/vistrails.py:242-243 | A name is among run i's inputs iff its file lists i in `read_runs`. |
| VistrailsExport.WrittenListed | reprounzip-vistrails/reprounzip/plugins/vistrails.py:244-245 | A name is among run i's outputs iff its file lists i in `write_runs`. |
| VistrailsExport.LayoutAt | reprounzip-vistrails/reprounzip/plugins/vistrails.py:246-247 | The chained ports hold `('input', p)` for each input, then `('output', p)` for each output. |
| VistrailsExport.ExportModules | reprounzip-vistrails/reprounzip/plugins/vistrails.py:235-251 | Module 0 is the Directory and module k+1 is run k's `Run`. |
| VistrailsExport.ExportLocations | reprounzip-vistrails/reprounzip/plugins/vistrails.py:91-134 | Module k is placed at y = -100·k. Each location names its module: the Directory module is k = 0 and run k-1's Run module is k. |
| VistrailsExport.ExportDescriptions | reprounzip-vistrails/reprounzip/plugins/vistrails.py:250-251 | Run k's module is described by its `id` if present, else `run<k>`. |
| VistrailsExport.ExportChain | reprounzip-vistrails/reprounzip/plugins/vistrails.py:239-265 | Connection k goes from module k to module k+1, giving Directory → run0 → run1 → …. |
| VistrailsExport.ExportFunctions | reprounzip-vistrails/reprounzip/plugins/vistrails.py:236-256 | The Directory has a `directory` function. Run k has `cmdline`, then `run_number`. |
| VistrailsExport.ExportValues | reprounzip-vistrails/reprounzip/plugins/vistrails.py:236-256 | The values are the escaped target, then for each run its escaped, shell-escaped argv joined by spaces and its escaped number. |
| VistrailsExport.ExportPorts | reprounzip-vistrails/reprounzip/plugins/vistrails.py:241-260 | The port specs on module k+1 are exactly run k's ports, in order. |
| VistrailsExport.ExportStep | reprounzip-vistrails/reprounzip/plugins/vistrails.py:241-265 | One loop iteration extends the export summary by exactly run n's module, functions, ports and connection. |
| VistrailsExport.ExportStart | reprounzip-vistrails/reprounzip/plugins/vistrails.py:235-239 | The Directory step yields the summary of zero runs. |
| VistrailsExport.SummarizeAppend | reprounzip-vistrails/reprounzip/plugins/vistrails.py:88-202 | Summarising appended records combines their summaries. |
| VistrailsExport.SummarizeModule | reprounzip-vistrails/reprounzip/plugins/vistrails.py:107-135 | One module's records contribute its name, its y and its optional description. |
| VistrailsExport.SummarizeParams | reprounzip-vistrails/reprounzip/plugins/vistrails.py:149-155 | Parameter records contribute their values in order. |
| VistrailsExport.SummarizePortSpec | reprounzip-vistrails/reprounzip/plugins/vistrails.py:183-202 | One port spec contributes exactly one port. |
| VistrailsExport.SummarizeConnection | reprounzip-vistrails/reprounzip/plugins/vistrails.py:157-181 | One connection contributes one chain link from source module to destination module. |
| VistrailsExport.CombineAssoc | reprounzip-vistrails/reprounzip/plugins/vistrails.py:88-202 | Combining summaries is associative. |
| VistrailsExport.ExperimentSigSplit | reprounzip-vistrails/reprounzip/plugins/vistrails.py:205-211 | The Directory signature splits into `Directory` and the package id. |
| VistrailsExport.RunSigSplit | reprounzip-vistrails/reprounzip/plugins/vistrails.py:205-211 | The Run signature splits into `Run` and the package id. |
| VistrailsCli.RunFromVistrails | reprounzip-vistrails/reprounzip/plugins/vistrails.py:285-361 | The calls issued and the final status are those of `Invocation`. |
| VistrailsCli.ReadVersion | reprounzip-vistrails/reprounzip/plugins/vistrails.py:288-294 | The interface version is `CliVersion(argv)`. |
| VistrailsCli.CliVersion | reprounzip-vistrails/reprounzip/plugins/vistrails.py:288-294 | The version is anything other than 1 only when a first argument exists and parses as that integer. |
| VistrailsCli.VersionFromDecimal | reprounzip-vistrails/reprounzip/plugins/vistrails.py:288-300 | A numeric first argument n gives version n, and that version is accepted iff n is 1. |
| VistrailsCli.UnknownVersion | reprounzip-vistrails/reprounzip/plugins/vistrails.py:295-300 | Any version other than 1 exits with status 1 before any call. It happens only for a first argument that parses as an integer. |
| VistrailsCli.UploadCommand | reprounzip-vistrails/reprounzip/plugins/vistrails.py:336-346 | The two loops build exactly `UploadSpecs`. A malformed `--input-file` or a non-integer run raises. |
| VistrailsCli.UploadLayout | reprounzip-vistrails/reprounzip/plugins/vistrails.py:336-346 | The given inputs come first, in order, as `filename:name`. Every later spec is `:name` for a name that was not given. |
| VistrailsCli.UploadResets | reprounzip-vistrails/reprounzip/plugins/vistrails.py:343-346 | With a numeric run, `:name` follows the given inputs iff `name` was not given and the run reads a file of that name. |
| VistrailsCli.ResetOfIn | reprounzip-vistrails/reprounzip/plugins/vistrails.py:346 | `:name` is among the reset specifications iff `name` is among the names reset. |
| VistrailsCli.GivenInputsFail | reprounzip-vistrails/reprounzip/plugins/vistrails.py:338-339 | Parsing the inputs fails iff some spec has no `:`, and the error names the first such spec. |
| VistrailsCli.GivenInputsAt | reprounzip-vistrails/reprounzip/plugins/vistrails.py:338-341 | The k-th given input is the split of the k-th spec at its first `:`. |
| VistrailsCli.GivenInputsFailed | reprounzip-vistrails/reprounzip/plugins/vistrails.py:338-339 | Once a spec fails, later specs do not change the outcome. |
| VistrailsCli.GivenNamesAppend | reprounzip-vistrails/reprounzip/plugins/vistrails.py:341 | Each given input adds its name to the seen names. |
| VistrailsCli.ResetNamesFail | reprounzip-vistrails/reprounzip/plugins/vistrails.py:344-345 | Resetting fails iff some unseen name is reached while the run is not an integer. The error is the malformed run. |
| VistrailsCli.ResetNamesFailed | reprounzip-vistrails/reprounzip/plugins/vistrails.py:344-345 | Once resetting fails, later names do not change the outcome. |
| VistrailsCli.ResetNamesListed | reprounzip-vistrails/reprounzip/plugins/vistrails.py:344-346 | For an integer run v, a name is reset iff it was not given and its file is read by run v. |
| VistrailsCli.ResetNamesOnlyUnseen | reprounzip-vistrails/reprounzip/plugins/vistrails.py:345 | No reset name is among the seen names. |
| VistrailsCli.DownloadSpec | reprounzip-vistrails/reprounzip/plugins/vistrails.py:358-361 | A download spec is accepted iff it contains `:`, and it is passed on unchanged. |
| VistrailsCli.DownloadAll | reprounzip-vistrails/reprounzip/plugins/vistrails.py:358-361 | The download loop issues exactly the calls of `Downloads` and stops at the first malformed spec. |
| VistrailsCli.DownloadsAt | reprounzip-vistrails/reprounzip/plugins/vistrails.py:358-361 | Download call k is `download . <spec k>`. The loop fails iff some spec has no `:`, and then only the calls before it are issued. |
| VistrailsCli.DownloadsFailed | reprounzip-vistrails/reprounzip/plugins/vistrails.py:358-361 | Once a download spec fails, later specs do not change the outcome. |
| VistrailsCli.InvocationCalls | reprounzip-vistrails/reprounzip/plugins/vistrails.py:314-361 | With version 1 and valid inputs, the first call is `upload .` with the upload specs, the second is the run, and call k+2 is the k-th download. It completes iff every output spec has `:`. |
| VistrailsCli.RunCall | reprounzip-vistrails/reprounzip/plugins/vistrails.py:320-355 | The run goes through the shell, with the escaped argv and the raw `--cmdline` text, iff `--cmdline` is non-empty. Otherwise it runs `run . <run>` directly. |

## Left out

- Filesystem, archive and process I/O are not modelled:
  - the tar and zip byte formats and `tempfile`;
  - `metadata_read`/`metadata_write`, `load_config` and `get_runs`;
  - the executor and the process it runs, and signal handlers;
  - `subprocess.check_call`;
  - the `REPROUNZIP_NON_INTERACTIVE` environment variable;
  - logging and `record_usage`.

  The filesystem is a value, the configuration is given already loaded, the
  selected runs are given as indices, and the executor, the metadata update
  and the metadata write (`writeInfo`) are function parameters.
- `tar.add` of a directory adds it recursively. The model treats every
  member as one entry.
- Pack.AddFile: the `while islink` loop in `reprozip/pack.py` has no hop
  bound, so a cyclic chain never ends. The model requires each packed
  file's chain to reach a non-link (`ChainEnds`) and does not model the
  non-terminating case. This requirement covers every packed file, so it
  also excludes inputs where a cyclic chain comes after a member that
  `tar.add` cannot read. The program raises at that earlier member
  (reprozip/pack.py:58) and never reaches the loop, but the model does not
  cover such inputs.
- Pack.Pack: only the sequence of members is modelled. Archive
  compression and the temporary version file are not. When `tar.add`
  raises on a path it cannot read, the partial archive already written is
  not returned; the model gives only the error and its path. The model
  treats a path as readable when it exists, is a regular file or is a link.
  Other `tar.add` failures, such as permissions, are not modelled.
- ContainerExec.ContainerexecRun: `shell_escape`, `x11.fix_env`,
  `fixup_environment`, `init_cmds`, the executor, `metadata_update_run` and
  `metadata_write` are opaque parameters. Nothing is proved about what they
  do. The stderr status line and `signals.pre_run`/`post_run` are left out,
  and so is any failure they could raise inside the same `try`. Only
  `BenchExecException` and `OSError` are caught (default.py:117); an
  exception of any other type from the executor, `metadata_update_run` or
  `metadata_write` escapes the handler with a traceback, and that path is
  not modelled.
- VistrailsCli.RunFromVistrails:
  - argparse is not modelled: the parsed options are given as `CliArgs`,
    and `argv` only feeds the version check.
  - Every `check_call` is taken to succeed, so the model lists the calls
    issued. A failing call would end the command there.
  - `int()` is modelled as an optional sign and ASCII digits. Surrounding
    whitespace, underscores and non-ASCII digits are not accepted.
- VistrailsExport.DoVistrails: the XML text is modelled as a stream of
  abstract records, and its contract is stated on a summary of that
  stream. Left out are:
  - the exact bytes and the `datetime.now()` timestamp of the header;
  - `target.resolve()`, so the target is given already resolved;
  - `rpz_version` and the other signature constants beyond their
    package/name split.
- The `setup_vistrails` registration is left out, and so are the upload
  and download stubs of containerexec, which only log.
- The containerexec package's `__init__.py` holds no behaviour.
- Some behaviour is absent from the program itself, so the model does not
  have it either:
  - The containerexec run returns `signal or value`
    (reprounzip-containerexec/reprounzip/unpackers/containerexec/default.py:121). It does not map a signal to 128 plus the signal.
  - The symlink loop has no bound on the number of hops
    (reprozip/pack.py:59).
  - Packing opens the target directly (reprozip/pack.py:30). There is no
    temporary file that is moved into place afterwards.
