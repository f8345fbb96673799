// The command line that VisTrails calls back into (`run_from_vistrails`):
// it checks the interface version, then drives reprounzip through three kinds
// of calls: one upload, one run and one download per requested output.

module VistrailsCli {
  import opened Common
  import opened VistrailsText
  import opened VistrailsExport

  /** Why the command line stops before issuing every call. */
  datatype CliError =
    | MalformedFileSpec(spec: string)   // an `--input-file`/`--output-file` value without ':'
    | MalformedRun(run: string)         // `int(args.run)` raised ValueError

  /** How the process ends: normally, through `sys.exit`, or with an exception. */
  datatype Status = Completed | Exited(code: int) | Raised(error: CliError)

  /** One reprounzip invocation, run in the experiment directory: an argument
      list, or a command line handed to the shell. */
  datatype Call = Exec(argv: seq<string>, cwd: string) | Shell(command: string, cwd: string)

  /** The calls issued, in order, and how the process ended. */
  datatype Outcome = Outcome(calls: seq<Call>, status: Status)

  /** The parsed command line: `sys.argv`, and the options argparse finds in
      `sys.argv[2:]`. */
  datatype CliArgs = CliArgs(
    argv: seq<string>,
    unpacker: string,
    directory: string,
    run: string,
    inputFiles: seq<string>,
    outputFiles: seq<string>,
    cmdline: Option<string>)

  const ReprounzipMain := "from reprounzip.main import main; main()"

  // ---------------------------------------------------------------- version

  /** The interface version asked for: `int(sys.argv[1])` when there is such an
      argument and it reads as an integer, 1 otherwise (compatibility mode). */
  function CliVersion(argv: seq<string>): (v: int)
    ensures v != 1 ==> |argv| > 1 && ParseInt(argv[1]) == Some(v)
  {
    if |argv| > 1 && ParseInt(argv[1]).Some? then ParseInt(argv[1]).value else 1
  }

  /** A decimal version number is accepted exactly when it is 1. */
  lemma VersionFromDecimal(argv: seq<string>, n: nat)
    requires |argv| > 1 && argv[1] == Decimal(n)
    ensures CliVersion(argv) == n
    ensures CliVersion(argv) == 1 <==> n == 1
  {
    ParseDecimal(n);
  }

  // ---------------------------------------------------------------- uploads

  /** The (input name, file name) pairs of the `--input-file` options, in order;
      the first option without ':' makes the unpacking raise. */
  function GivenInputs(specs: seq<string>): Result<seq<(string, string)>, CliError>
  {
    if |specs| == 0 then Success([])
    else
      var n := |specs| - 1;
      match GivenInputs(specs[..n])
      case Failure(e) => Failure(e)
      case Success(prev) =>
        match SplitFirst(specs[n])
        case None => Failure(MalformedFileSpec(specs[n]))
        case Some(p) => Success(prev + [p])
  }

  /** The names given on the command line (`seen_input_names`). */
  function GivenNames(given: seq<(string, string)>): set<string>
  {
    set k | 0 <= k < |given| :: given[k].0
  }

  /** The names of the files to reset: those, in dictionary order, that were
      not given and that the run reads. The run number is parsed only when a
      name was not given, so a run that is not a number fails only then. */
  function ResetNames(io: InputsOutputs, seen: set<string>, run: string): Result<seq<string>, CliError>
  {
    if |io| == 0 then Success([])
    else
      var n := |io| - 1;
      match ResetNames(io[..n], seen, run)
      case Failure(e) => Failure(e)
      case Success(prev) =>
        if io[n].0 in seen then Success(prev)
        else if ParseInt(run).None? then Failure(MalformedRun(run))
        else if ParseInt(run).value in io[n].1.readRuns then Success(prev + [io[n].0])
        else Success(prev)
  }

  /** `'%s:%s' % (filename, input_name)`: what reprounzip is asked to upload. */
  function UploadOf(p: (string, string)): string
  {
    p.1 + ":" + p.0
  }

  /** `':%s' % name`: put back the original file. */
  function ResetOf(name: string): string
  {
    ":" + name
  }

  /** The arguments that follow `upload .`. */
  function UploadSpecs(specs: seq<string>, io: InputsOutputs, run: string): Result<seq<string>, CliError>
  {
    match GivenInputs(specs)
    case Failure(e) => Failure(e)
    case Success(given) =>
      match ResetNames(io, GivenNames(given), run)
      case Failure(e) => Failure(e)
      case Success(names) => Success(Map(UploadOf, given) + Map(ResetOf, names))
  }

  /** Once a prefix of the options fails, the whole list fails the same way. */
  lemma {:induction false} GivenInputsFailed(specs: seq<string>, i: nat)
    requires i <= |specs| && GivenInputs(specs[..i]).Failure?
    ensures GivenInputs(specs) == GivenInputs(specs[..i])
    decreases |specs| - i
  {
    if i < |specs| {
      assert specs[..i + 1][..i] == specs[..i];
      GivenInputsFailed(specs, i + 1);
    } else {
      assert specs[..i] == specs;
    }
  }

  /** The options are read exactly when each holds a ':'; otherwise the first
      one without it is reported. */
  lemma {:induction false} GivenInputsFail(specs: seq<string>)
    ensures GivenInputs(specs).Failure? <==> exists k :: 0 <= k < |specs| && ':' !in specs[k]
    ensures GivenInputs(specs).Failure? ==>
      exists k :: 0 <= k < |specs| && ':' !in specs[k] && (forall j :: 0 <= j < k ==> ':' in specs[j])
                  && GivenInputs(specs).error == MalformedFileSpec(specs[k])
  {
    if |specs| > 0 {
      var n := |specs| - 1;
      var prefix := specs[..n];
      GivenInputsFail(prefix);
      if GivenInputs(prefix).Failure? {
        var k :| 0 <= k < n && ':' !in prefix[k] && (forall j :: 0 <= j < k ==> ':' in prefix[j])
                 && GivenInputs(prefix).error == MalformedFileSpec(prefix[k]);
        assert specs[k] == prefix[k];
        forall j | 0 <= j < k ensures ':' in specs[j] {
          assert specs[j] == prefix[j];
        }
      } else {
        forall j | 0 <= j < n ensures ':' in specs[j] {
          assert specs[j] == prefix[j];
        }
      }
    }
  }

  /** When every option is read, the k-th pair is the k-th option split at its
      first ':'. */
  lemma {:induction false} GivenInputsAt(specs: seq<string>)
    requires GivenInputs(specs).Success?
    ensures |GivenInputs(specs).value| == |specs|
    ensures forall k :: 0 <= k < |specs| ==> SplitFirst(specs[k]) == Some(GivenInputs(specs).value[k])
  {
    if |specs| > 0 {
      var n := |specs| - 1;
      var prefix := specs[..n];
      GivenInputsAt(prefix);
      forall k | 0 <= k < n ensures SplitFirst(specs[k]) == Some(GivenInputs(specs).value[k]) {
        assert specs[k] == prefix[k];
      }
    }
  }

  /** Once a prefix of the files fails, the whole list fails the same way. */
  lemma {:induction false} ResetNamesFailed(io: InputsOutputs, seen: set<string>, run: string, i: nat)
    requires i <= |io| && ResetNames(io[..i], seen, run).Failure?
    ensures ResetNames(io, seen, run) == ResetNames(io[..i], seen, run)
    decreases |io| - i
  {
    if i < |io| {
      assert io[..i + 1][..i] == io[..i];
      ResetNamesFailed(io, seen, run, i + 1);
    } else {
      assert io[..i] == io;
    }
  }

  /** Resetting fails exactly when the run is not a number and some file was
      not given. */
  lemma {:induction false} ResetNamesFail(io: InputsOutputs, seen: set<string>, run: string)
    ensures ResetNames(io, seen, run).Failure? <==>
      ParseInt(run).None? && exists j :: 0 <= j < |io| && io[j].0 !in seen
    ensures ResetNames(io, seen, run).Failure? ==> ResetNames(io, seen, run).error == MalformedRun(run)
  {
    if |io| > 0 {
      var n := |io| - 1;
      var prefix := io[..n];
      ResetNamesFail(prefix, seen, run);
      if exists j :: 0 <= j < n && prefix[j].0 !in seen {
        var j :| 0 <= j < n && prefix[j].0 !in seen;
        assert io[j] == prefix[j];
      }
      if exists j :: 0 <= j < |io| && io[j].0 !in seen {
        var j :| 0 <= j < |io| && io[j].0 !in seen;
        if j < n {
          assert prefix[j] == io[j];
        }
      }
    }
  }

  /** With a numeric run, a name is reset exactly when it was not given and
      some file of that name is read by the run. */
  lemma {:induction false} ResetNamesListed(io: InputsOutputs, seen: set<string>, run: string, v: int, name: string)
    requires ParseInt(run) == Some(v)
    ensures ResetNames(io, seen, run).Success?
    ensures name in ResetNames(io, seen, run).value <==>
      name !in seen && exists j :: 0 <= j < |io| && io[j].0 == name && v in io[j].1.readRuns
  {
    if |io| > 0 {
      var n := |io| - 1;
      var prefix := io[..n];
      ResetNamesListed(prefix, seen, run, v, name);
      if exists j :: 0 <= j < n && prefix[j].0 == name && v in prefix[j].1.readRuns {
        var j :| 0 <= j < n && prefix[j].0 == name && v in prefix[j].1.readRuns;
        assert io[j] == prefix[j];
      }
      if exists j :: 0 <= j < |io| && io[j].0 == name && v in io[j].1.readRuns {
        var j :| 0 <= j < |io| && io[j].0 == name && v in io[j].1.readRuns;
        if j < n {
          assert prefix[j] == io[j];
        }
      }
    }
  }

  /** The upload arguments: first one `filename:name` per `--input-file
      name:filename` option, in order, then one `:name` per file reset. */
  lemma UploadLayout(specs: seq<string>, io: InputsOutputs, run: string)
    requires UploadSpecs(specs, io, run).Success?
    ensures var up := UploadSpecs(specs, io, run).value;
      && |specs| <= |up|
      && (forall k, name, file :: 0 <= k < |specs| && SplitFirst(specs[k]) == Some((name, file)) ==>
            up[k] == file + ":" + name)
      && (forall k :: |specs| <= k < |up| ==> exists name :: up[k] == ":" + name && name !in GivenNames(GivenInputs(specs).value))
  {
    var given := GivenInputs(specs).value;
    var names := ResetNames(io, GivenNames(given), run).value;
    GivenInputsAt(specs);
    var up := UploadSpecs(specs, io, run).value;
    assert up == Map(UploadOf, given) + Map(ResetOf, names);
    forall k | |specs| <= k < |up|
      ensures exists name :: up[k] == ":" + name && name !in GivenNames(given)
    {
      var name := names[k - |specs|];
      assert up[k] == ResetOf(name);
      ResetNamesOnlyUnseen(io, GivenNames(given), run, k - |specs|);
    }
  }

  /** With a numeric run, `:name` follows the given inputs exactly when
      `name` was not given and the run reads a file of that name. */
  lemma UploadResets(specs: seq<string>, io: InputsOutputs, run: string)
    requires UploadSpecs(specs, io, run).Success? && ParseInt(run).Some?
    ensures var up := UploadSpecs(specs, io, run).value;
      && |specs| <= |up|
      && forall name ::
            ResetOf(name) in up[|specs|..] <==>
              name !in GivenNames(GivenInputs(specs).value)
              && exists j :: 0 <= j < |io| && io[j].0 == name && ParseInt(run).value in io[j].1.readRuns
  {
    var given := GivenInputs(specs).value;
    var names := ResetNames(io, GivenNames(given), run).value;
    GivenInputsAt(specs);
    var up := UploadSpecs(specs, io, run).value;
    assert up[|specs|..] == Map(ResetOf, names);
    forall name
      ensures ResetOf(name) in up[|specs|..] <==>
        name !in GivenNames(given)
        && exists j :: 0 <= j < |io| && io[j].0 == name && ParseInt(run).value in io[j].1.readRuns
    {
      ResetNamesListed(io, GivenNames(given), run, ParseInt(run).value, name);
      ResetOfIn(names, name);
    }
  }

  /** `:name` is among the reset specifications exactly when `name` is reset. */
  lemma ResetOfIn(names: seq<string>, name: string)
    ensures ResetOf(name) in Map(ResetOf, names) <==> name in names
  {
    if ResetOf(name) in Map(ResetOf, names) {
      var k :| 0 <= k < |names| && Map(ResetOf, names)[k] == ResetOf(name);
      assert ResetOf(names[k])[1..] == names[k];
      assert ResetOf(name)[1..] == name;
    }
    if name in names {
      var k :| 0 <= k < |names| && names[k] == name;
      assert Map(ResetOf, names)[k] == ResetOf(name);
    }
  }

  /** Only names that were not given are reset. */
  lemma {:induction false} ResetNamesOnlyUnseen(io: InputsOutputs, seen: set<string>, run: string, k: nat)
    requires ResetNames(io, seen, run).Success? && k < |ResetNames(io, seen, run).value|
    ensures ResetNames(io, seen, run).value[k] !in seen
  {
    var n := |io| - 1;
    var prev := ResetNames(io[..n], seen, run).value;
    if k < |prev| {
      ResetNamesOnlyUnseen(io[..n], seen, run, k);
    }
  }

  /** `upload_command` and `seen_input_names`, built by the two loops of the
      command line. */
  method UploadCommand(specs: seq<string>, io: InputsOutputs, run: string) returns (r: Result<seq<string>, CliError>)
    ensures r == UploadSpecs(specs, io, run)
  {
    var uploads: seq<string> := [];
    var seen: set<string> := {};
    ghost var given: seq<(string, string)> := [];
    for i := 0 to |specs|
      invariant GivenInputs(specs[..i]) == Success(given)
      invariant uploads == Map(UploadOf, given) && seen == GivenNames(given)
    {
      assert specs[..i + 1][..i] == specs[..i];
      var parts := SplitFirst(specs[i]);
      if parts.None? {
        GivenInputsFailed(specs, i + 1);
        return Failure(MalformedFileSpec(specs[i]));
      }
      var (name, file) := parts.value;
      uploads := uploads + [file + ":" + name];
      seen := seen + {name};
      assert GivenNames(given + [(name, file)]) == GivenNames(given) + {name} by {
        GivenNamesAppend(given, (name, file));
      }
      given := given + [(name, file)];
    }
    assert specs[..|specs|] == specs;
    var resets: seq<string> := [];
    ghost var names: seq<string> := [];
    for j := 0 to |io|
      invariant ResetNames(io[..j], seen, run) == Success(names)
      invariant resets == Map(ResetOf, names)
    {
      assert io[..j + 1][..j] == io[..j];
      var (name, roles) := io[j];
      if name !in seen {
        var v := ParseInt(run);
        if v.None? {
          ResetNamesFailed(io, seen, run, j + 1);
          return Failure(MalformedRun(run));
        }
        if v.value in roles.readRuns {
          resets := resets + [":" + name];
          names := names + [name];
        }
      }
    }
    assert io[..|io|] == io;
    r := Success(uploads + resets);
  }

  lemma GivenNamesAppend(given: seq<(string, string)>, p: (string, string))
    ensures GivenNames(given + [p]) == GivenNames(given) + {p.0}
  {
    var g := given + [p];
    forall x | x in GivenNames(g) ensures x in GivenNames(given) + {p.0} {
      var k :| 0 <= k < |g| && g[k].0 == x;
      if k < |given| {
        assert given[k] == g[k];
      }
    }
    forall x | x in GivenNames(given) + {p.0} ensures x in GivenNames(g) {
      if x == p.0 {
        assert g[|given|].0 == x;
      } else {
        var k :| 0 <= k < |given| && given[k].0 == x;
        assert g[k] == given[k];
      }
    }
  }

  // -------------------------------------------------------------- downloads

  /** `'%s:%s' % (output_name, filename)` after `split(':', 1)`: the option
      comes back unchanged when it holds a ':'; otherwise unpacking raises. */
  function DownloadSpec(s: string): (r: Option<string>)
    ensures r.Some? <==> ':' in s
    ensures r.Some? ==> r.value == s
  {
    match SplitFirst(s)
    case None => None
    case Some((name, file)) => Some(name + ":" + file)
  }

  /** `[python, '-c', 'from reprounzip.main import main; main()', unpacker]` */
  function Rpuz(python: string, unpacker: string): seq<string>
  {
    [python, "-c", ReprounzipMain, unpacker]
  }

  /** `cmd(lst, add)`: with a non-empty `add`, a shell command made of the
      escaped arguments and `add` as is; otherwise the argument list itself. */
  function Cmd(rpuz: seq<string>, lst: seq<string>, add: Option<string>, dir: string, esc: string -> string): Call
  {
    if add.Some? && add.value != "" then Shell(JoinWith(" ", Map(esc, rpuz + lst)) + " " + add.value, dir)
    else Exec(rpuz + lst, dir)
  }

  /** The download calls, one per `--output-file`, until the first option
      without ':' raises. */
  function Downloads(rpuz: seq<string>, outs: seq<string>, dir: string): (seq<Call>, Option<CliError>)
  {
    if |outs| == 0 then ([], None)
    else
      var n := |outs| - 1;
      var (calls, err) := Downloads(rpuz, outs[..n], dir);
      if err.Some? then (calls, err)
      else match DownloadSpec(outs[n])
        case None => (calls, Some(MalformedFileSpec(outs[n])))
        case Some(spec) => (calls + [DownloadCall(rpuz, spec, dir)], None)
  }

  /** `cmd(['download', '.', spec])` */
  function DownloadCall(rpuz: seq<string>, spec: string, dir: string): Call
  {
    Exec(rpuz + ["download", ".", spec], dir)
  }

  /** Once a prefix of the options fails, no further download is issued. */
  lemma {:induction false} DownloadsFailed(rpuz: seq<string>, outs: seq<string>, dir: string, i: nat)
    requires i <= |outs| && Downloads(rpuz, outs[..i], dir).1.Some?
    ensures Downloads(rpuz, outs, dir) == Downloads(rpuz, outs[..i], dir)
    decreases |outs| - i
  {
    if i < |outs| {
      assert outs[..i + 1][..i] == outs[..i];
      DownloadsFailed(rpuz, outs, dir, i + 1);
    } else {
      assert outs[..i] == outs;
    }
  }

  /** Every download before the first malformed option is issued, each for
      its option as written; the first option without ':' stops the loop. */
  lemma {:induction false} DownloadsAt(rpuz: seq<string>, outs: seq<string>, dir: string)
    ensures var (calls, err) := Downloads(rpuz, outs, dir);
      && |calls| <= |outs|
      && (forall k :: 0 <= k < |calls| ==> calls[k] == DownloadCall(rpuz, outs[k], dir) && ':' in outs[k])
      && (err.None? <==> |calls| == |outs|)
      && (err.Some? ==> ':' !in outs[|calls|] && err.value == MalformedFileSpec(outs[|calls|]))
  {
    if |outs| > 0 {
      var n := |outs| - 1;
      var prefix := outs[..n];
      DownloadsAt(rpuz, prefix, dir);
      var (calls, err) := Downloads(rpuz, prefix, dir);
      assert forall k :: 0 <= k < n ==> outs[k] == prefix[k];
      if err.None? {
        assert |calls| == n;
        var spec := DownloadSpec(outs[n]);
        if spec.Some? {
          var calls' := calls + [DownloadCall(rpuz, spec.value, dir)];
          assert Downloads(rpuz, outs, dir) == (calls', None);
          assert calls'[n] == DownloadCall(rpuz, outs[n], dir);
          assert forall k :: 0 <= k < n ==> calls'[k] == calls[k];
        } else {
          assert Downloads(rpuz, outs, dir) == (calls, Some(MalformedFileSpec(outs[n])));
        }
      } else {
        assert Downloads(rpuz, outs, dir) == (calls, err);
      }
    }
  }

  // ------------------------------------------------------------ invocation

  /** What `run_from_vistrails` does, as the calls it issues and how it ends.
      Every call is taken to succeed. */
  function Invocation(a: CliArgs, io: InputsOutputs, python: string, esc: string -> string): Outcome
  {
    if CliVersion(a.argv) != 1 then Outcome([], Exited(1))
    else match UploadSpecs(a.inputFiles, io, a.run)
      case Failure(e) => Outcome([], Raised(e))
      case Success(uploads) =>
        var rpuz := Rpuz(python, a.unpacker);
        var upload := Cmd(rpuz, ["upload", "."] + uploads, None, a.directory, esc);
        var runCall :=
          if a.cmdline.Some? && a.cmdline.value != "" then Cmd(rpuz, ["run", ".", a.run, "--cmdline"], a.cmdline, a.directory, esc)
          else Cmd(rpuz, ["run", ".", a.run], None, a.directory, esc);
        var (downloads, err) := Downloads(rpuz, a.outputFiles, a.directory);
        Outcome([upload, runCall] + downloads, if err.Some? then Raised(err.value) else Completed)
  }

  /** An unknown interface version ends the process with status 1 before any
      call. */
  lemma UnknownVersion(a: CliArgs, io: InputsOutputs, python: string, esc: string -> string)
    requires CliVersion(a.argv) != 1
    ensures Invocation(a, io, python, esc) == Outcome([], Exited(1))
    ensures |a.argv| > 1 && ParseInt(a.argv[1]).Some?
  {
  }

  /** With an accepted version and readable options, the process uploads, runs,
      then downloads each output as written, in order. */
  lemma InvocationCalls(a: CliArgs, io: InputsOutputs, python: string, esc: string -> string)
    requires CliVersion(a.argv) == 1 && UploadSpecs(a.inputFiles, io, a.run).Success?
    ensures var o := Invocation(a, io, python, esc);
      var rpuz := Rpuz(python, a.unpacker);
      && o.calls[0] == Exec(rpuz + ["upload", "."] + UploadSpecs(a.inputFiles, io, a.run).value, a.directory)
      && (o.status == Completed <==> forall k :: 0 <= k < |a.outputFiles| ==> ':' in a.outputFiles[k])
      && 2 <= |o.calls| <= 2 + |a.outputFiles|
      && (o.status == Completed ==> |o.calls| == 2 + |a.outputFiles|)
      && (forall k :: 2 <= k < |o.calls| ==> o.calls[k] == DownloadCall(rpuz, a.outputFiles[k - 2], a.directory))
  {
    var rpuz := Rpuz(python, a.unpacker);
    var o := Invocation(a, io, python, esc);
    var (calls, err) := Downloads(rpuz, a.outputFiles, a.directory);
    assert o.calls[2..] == calls && o.calls[0] == Exec(rpuz + ["upload", "."] + UploadSpecs(a.inputFiles, io, a.run).value, a.directory);
    assert o.status == Completed <==> err.None?;
    DownloadsAt(rpuz, a.outputFiles, a.directory);
    if err.Some? {
      assert !(forall k :: 0 <= k < |a.outputFiles| ==> ':' in a.outputFiles[k]) by {
        assert ':' !in a.outputFiles[|calls|];
      }
    }
    forall k | 2 <= k < |o.calls| ensures o.calls[k] == DownloadCall(rpuz, a.outputFiles[k - 2], a.directory) {
      assert o.calls[k] == calls[k - 2];
    }
  }

  /** The run is handed to the shell exactly when a non-empty `--cmdline` was
      given, and then its text follows the escaped arguments unchanged. */
  lemma RunCall(a: CliArgs, io: InputsOutputs, python: string, esc: string -> string)
    requires CliVersion(a.argv) == 1 && UploadSpecs(a.inputFiles, io, a.run).Success?
    ensures var o := Invocation(a, io, python, esc);
      var rpuz := Rpuz(python, a.unpacker);
      && |o.calls| >= 2
      && (o.calls[1].Shell? <==> a.cmdline.Some? && a.cmdline.value != "")
      && (o.calls[1].Shell? ==>
            o.calls[1].command == JoinWith(" ", Map(esc, rpuz + ["run", ".", a.run, "--cmdline"])) + " " + a.cmdline.value)
      && (o.calls[1].Exec? ==> o.calls[1].argv == rpuz + ["run", ".", a.run])
  {
  }

  /** `run_from_vistrails`, step by step: version check, the upload arguments,
      the upload and run calls, then one download per output option. */
  method RunFromVistrails(a: CliArgs, io: InputsOutputs, python: string, esc: string -> string) returns (o: Outcome)
    ensures o == Invocation(a, io, python, esc)
  {
    var version := ReadVersion(a.argv);
    if version != 1 {
      return Outcome([], Exited(1));
    }
    var rpuz := Rpuz(python, a.unpacker);
    var uploads := UploadCommand(a.inputFiles, io, a.run);
    if uploads.Failure? {
      return Outcome([], Raised(uploads.error));
    }
    var upload := Cmd(rpuz, ["upload", "."] + uploads.value, None, a.directory, esc);
    var runCall;
    if a.cmdline.Some? && a.cmdline.value != "" {
      runCall := Cmd(rpuz, ["run", ".", a.run, "--cmdline"], a.cmdline, a.directory, esc);
    } else {
      runCall := Cmd(rpuz, ["run", ".", a.run], None, a.directory, esc);
    }
    var downloads, err := DownloadAll(rpuz, a.outputFiles, a.directory);
    o := Outcome([upload, runCall] + downloads, if err.Some? then Raised(err.value) else Completed);
  }

  /** `cli_version`: 1 unless the first argument reads as an integer. */
  method ReadVersion(argv: seq<string>) returns (version: int)
    ensures version == CliVersion(argv)
  {
    version := 1;
    if |argv| > 1 {
      var parsed := ParseInt(argv[1]);
      if parsed.Some? {
        version := parsed.value;
      }
    }
  }

  /** The download loop: one call per output option, stopping at the first
      option without ':'. */
  method DownloadAll(rpuz: seq<string>, outs: seq<string>, dir: string) returns (calls: seq<Call>, err: Option<CliError>)
    ensures (calls, err) == Downloads(rpuz, outs, dir)
  {
    calls := [];
    for i := 0 to |outs|
      invariant Downloads(rpuz, outs[..i], dir) == (calls, None)
    {
      assert outs[..i + 1][..i] == outs[..i];
      var spec := DownloadSpec(outs[i]);
      if spec.None? {
        DownloadsFailed(rpuz, outs, dir, i + 1);
        return calls, Some(MalformedFileSpec(outs[i]));
      }
      calls := calls + [DownloadCall(rpuz, spec.value, dir)];
    }
    assert outs[..|outs|] == outs;
    err := None;
  }
}
