/** `reprounzip containerexec run`: the single shell command line that
    replays the selected runs, the owner it runs as, and the code the
    command returns. Escaping, the X11 handler, the environment fix-up, the
    executor and the metadata update are helpers whose code is not part of
    this model; they are passed in as functions and nothing is assumed
    about them. */
module ContainerExec {
  import opened Common

  /** An environment in dictionary iteration order. The keys come from a
      Python dictionary, so they are distinct; nothing here relies on it. */
  type Env = seq<(string, string)>

  /** One run of the configuration, as `containerexec_run` reads it. */
  datatype Run = Run(binary: string, argv: seq<string>, environ: Env, workingdir: string, uid: int, gid: int)

  /** `shell_escape`; `x11.fix_env`; `fixup_environment(_, args)`; and
      `x11.init_cmds`. */
  datatype Helpers = Helpers(
    shellEscape: string -> string,
    fixEnv: Env -> Env,
    fixupEnvironment: Env -> Env,
    initCmds: seq<string>)

  /** What `execute_run` hands back: the exit value and the signal. */
  datatype ExecResult = ExecResult(value: int, signal: int)

  /** How the command ends: it returns a code, with the metadata it writes;
      or it exits through `sys.exit` with a message (status 1). */
  datatype Outcome<I> = Returned(code: int, written: I) | Exited(message: string)

  /** Python's `xs[1:]`. */
  function Drop1<T>(xs: seq<T>): seq<T>
  {
    if |xs| == 0 then [] else xs[1..]
  }

  /** The command the run executes: the override when one is given,
      otherwise the recorded binary in place of `argv[0]`. */
  function ExecutedArgv(run: Run, cmdline: Option<seq<string>>): (argv: seq<string>)
    ensures cmdline.Some? ==> argv == cmdline.value
    ensures cmdline.None? ==> |argv| > 0 && argv[0] == run.binary
    ensures cmdline.None? && |run.argv| > 0 ==> |argv| == |run.argv| && argv[1..] == run.argv[1..]
    ensures cmdline.None? && |run.argv| == 0 ==> argv == [run.binary]
  {
    if cmdline.None? then [run.binary] + Drop1(run.argv) else cmdline.value
  }

  /** `' '.join('%s=%s' % (esc(k), esc(v)) for k, v in environ)` */
  function EnvAssignments(h: Helpers, environ: Env): string
  {
    JoinWith(" ", Map((kv: (string, string)) => h.shellEscape(kv.0) + "=" + h.shellEscape(kv.1), environ))
  }

  /** `' '.join(esc(a) for a in argv)` */
  function ArgvText(h: Helpers, argv: seq<string>): string
  {
    JoinWith(" ", Map(h.shellEscape, argv))
  }

  /** The command for one run, before it is wrapped for the shell. */
  function InnerCommand(h: Helpers, run: Run, cmdline: Option<seq<string>>): string
  {
    "cd " + h.shellEscape(run.workingdir) + " && " + "/usr/bin/env -i "
    + EnvAssignments(h, h.fixupEnvironment(h.fixEnv(run.environ))) + " "
    + ArgvText(h, ExecutedArgv(run, cmdline))
  }

  function RunCommand(h: Helpers, run: Run, cmdline: Option<seq<string>>): string
  {
    "/bin/sh -c " + h.shellEscape(InnerCommand(h, run, cmdline))
  }

  predicate ValidSelection(runs: seq<Run>, selected: seq<nat>)
  {
    forall k :: 0 <= k < |selected| ==> selected[k] < |runs|
  }

  /** The per-run commands, in the order the runs are selected. */
  function RunCommands(h: Helpers, runs: seq<Run>, selected: seq<nat>, cmdline: Option<seq<string>>): seq<string>
    requires ValidSelection(runs, selected)
  {
    if |selected| == 0 then []
    else RunCommands(h, runs, selected[..|selected| - 1], cmdline)
         + [RunCommand(h, runs[selected[|selected| - 1]], cmdline)]
  }

  /** The X11 set-up commands, each wrapped for the shell. */
  function InitCommands(h: Helpers): seq<string>
  {
    Map((c: string) => "/bin/sh -c " + h.shellEscape(c), h.initCmds)
  }

  /** The whole command line: set-up commands first, then the runs. */
  function Combined(h: Helpers, runCommands: seq<string>): string
  {
    JoinWith(" && ", InitCommands(h) + runCommands)
  }

  /** `result.signal or result.value` */
  function ReturnCode(r: ExecResult): (code: int)
    ensures code == 0 <==> r.signal == 0 && r.value == 0
    ensures r.signal != 0 ==> code == r.signal
    ensures r.signal == 0 ==> code == r.value
  {
    if r.signal != 0 then r.signal else r.value
  }

  // ---------------------------------------------------------------------
  // Properties of the command line
  // ---------------------------------------------------------------------

  lemma RunCommandsNext(h: Helpers, runs: seq<Run>, selected: seq<nat>, cmdline: Option<seq<string>>, n: nat)
    requires ValidSelection(runs, selected) && n < |selected|
    ensures RunCommands(h, runs, selected[..n + 1], cmdline) ==
            RunCommands(h, runs, selected[..n], cmdline) + [RunCommand(h, runs[selected[n]], cmdline)]
  {
    assert selected[..n + 1][..n] == selected[..n];
  }

  /** Exactly one command per selected run, in selection order. */
  lemma {:induction false} RunCommandsAt(h: Helpers, runs: seq<Run>, selected: seq<nat>, cmdline: Option<seq<string>>)
    requires ValidSelection(runs, selected)
    ensures |RunCommands(h, runs, selected, cmdline)| == |selected|
    ensures forall k :: 0 <= k < |selected| ==>
              RunCommands(h, runs, selected, cmdline)[k] == RunCommand(h, runs[selected[k]], cmdline)
    decreases |selected|
  {
    if |selected| > 0 {
      var init := selected[..|selected| - 1];
      RunCommandsAt(h, runs, init, cmdline);
      forall k | 0 <= k < |selected| - 1
        ensures RunCommands(h, runs, selected, cmdline)[k] == RunCommand(h, runs[selected[k]], cmdline)
      {
        assert init[k] == selected[k];
      }
    }
  }

  /** The set-up commands come first and the run commands after them, with
      a single ' && ' between the two groups. */
  lemma CombinedOrder(h: Helpers, runCommands: seq<string>)
    ensures |h.initCmds| == 0 ==> Combined(h, runCommands) == JoinWith(" && ", runCommands)
    ensures |runCommands| == 0 ==> Combined(h, runCommands) == JoinWith(" && ", InitCommands(h))
    ensures |h.initCmds| > 0 && |runCommands| > 0 ==>
              Combined(h, runCommands) ==
              JoinWith(" && ", InitCommands(h)) + " && " + JoinWith(" && ", runCommands)
  {
    var init := InitCommands(h);
    if |h.initCmds| == 0 {
      assert init + runCommands == runCommands;
    } else if |runCommands| == 0 {
      assert init + runCommands == init;
    } else {
      JoinWithAppend(" && ", init, runCommands);
    }
  }

  /** Every run command changes to the run's working directory and starts
      `env` with an empty environment before listing the variables. */
  lemma InnerCommandPrefix(h: Helpers, run: Run, cmdline: Option<seq<string>>)
    ensures "cd " + h.shellEscape(run.workingdir) + " && /usr/bin/env -i " <= InnerCommand(h, run, cmdline)
  {
    var p := "cd " + h.shellEscape(run.workingdir) + " && " + "/usr/bin/env -i ";
    assert "cd " + h.shellEscape(run.workingdir) + " && /usr/bin/env -i " == p;
  }

  /** The environment reaches the command only through `fix_env` followed
      by `fixup_environment`. */
  lemma EnvironmentThroughFixups(h: Helpers, r1: Run, r2: Run, cmdline: Option<seq<string>>)
    requires r1.binary == r2.binary && r1.argv == r2.argv && r1.workingdir == r2.workingdir
    requires h.fixupEnvironment(h.fixEnv(r1.environ)) == h.fixupEnvironment(h.fixEnv(r2.environ))
    ensures RunCommand(h, r1, cmdline) == RunCommand(h, r2, cmdline)
  {
  }

  /** With an override command line, every run executes the override: its
      escaped words end the run's command, and the recorded binary and
      arguments play no part. */
  lemma CmdlineOverrides(h: Helpers, r1: Run, r2: Run, cmdline: seq<string>)
    requires r1.workingdir == r2.workingdir && r1.environ == r2.environ
    ensures ExecutedArgv(r1, Some(cmdline)) == cmdline
    ensures var inner := InnerCommand(h, r1, Some(cmdline));
      var words := ArgvText(h, cmdline);
      |words| <= |inner| && inner[|inner| - |words|..] == words
    ensures RunCommand(h, r1, Some(cmdline)) == RunCommand(h, r2, Some(cmdline))
  {
    var inner := InnerCommand(h, r1, Some(cmdline));
    var words := ArgvText(h, cmdline);
    var head := "cd " + h.shellEscape(r1.workingdir) + " && " + "/usr/bin/env -i "
      + EnvAssignments(h, h.fixupEnvironment(h.fixEnv(r1.environ))) + " ";
    assert inner == head + words;
    assert inner[|head|..] == words;
  }

  /** Without an override, the recorded `argv[0]` plays no part: the binary
      replaces it. */
  lemma ArgvZeroReplaced(h: Helpers, r1: Run, r2: Run)
    requires r1.binary == r2.binary && r1.workingdir == r2.workingdir && r1.environ == r2.environ
    requires |r1.argv| > 0 && |r2.argv| > 0 && r1.argv[1..] == r2.argv[1..]
    ensures RunCommand(h, r1, None) == RunCommand(h, r2, None)
  {
    assert ExecutedArgv(r1, None) == ExecutedArgv(r2, None);
  }

  // ---------------------------------------------------------------------
  // The command
  // ---------------------------------------------------------------------

  /** The loop over the selected runs and the final join: the command line,
      and the owner of the last run (root when no run is selected). */
  method BuildCommand(h: Helpers, runs: seq<Run>, selected: seq<nat>, cmdline: Option<seq<string>>)
    returns (cmds: string, uid: int, gid: int)
    requires ValidSelection(runs, selected)
    ensures cmds == Combined(h, RunCommands(h, runs, selected, cmdline))
    ensures |selected| == 0 ==> uid == 0 && gid == 0
    ensures |selected| > 0 ==>
              uid == runs[selected[|selected| - 1]].uid && gid == runs[selected[|selected| - 1]].gid
  {
    var runCmds: seq<string> := [];
    uid := 0;
    gid := 0;
    for n := 0 to |selected|
      invariant runCmds == RunCommands(h, runs, selected[..n], cmdline)
      invariant n == 0 ==> uid == 0 && gid == 0
      invariant n > 0 ==> uid == runs[selected[n - 1]].uid && gid == runs[selected[n - 1]].gid
    {
      var run := runs[selected[n]];
      var cmd := "cd " + h.shellEscape(run.workingdir) + " && ";
      cmd := cmd + "/usr/bin/env -i ";
      var environ := h.fixEnv(run.environ);
      environ := h.fixupEnvironment(environ);
      cmd := cmd + EnvAssignments(h, environ);
      cmd := cmd + " ";
      uid := run.uid;
      gid := run.gid;
      var argv: seq<string>;
      if cmdline.None? {
        argv := [run.binary] + Drop1(run.argv);
      } else {
        argv := cmdline.value;
      }
      cmd := cmd + ArgvText(h, argv);
      assert argv == ExecutedArgv(run, cmdline);
      cmd := "/bin/sh -c " + h.shellEscape(cmd);
      assert cmd == RunCommand(h, run, cmdline);
      RunCommandsNext(h, runs, selected, cmdline, n);
      runCmds := runCmds + [cmd];
    }
    assert selected[..|selected|] == selected;
    cmds := JoinWith(" && ", InitCommands(h) + runCmds);
  }

  /** The message `sys.exit` prints when the run cannot be completed. */
  function ExitMessage(error: string): string
  {
    "Cannot execute process: " + error + "."
  }

  /** `containerexec_run` once the configuration, the selected runs and the
      unpacked metadata are read: build the command, run it as the owner of
      the last run, then record the runs in the metadata and write it. Each
      of these three steps may raise; a `Failure` stands for a
      `BenchExecException` or `OSError`, which ends the command with status 1
      and its message. */
  method ContainerexecRun<I>(
    h: Helpers, runs: seq<Run>, selected: seq<nat>, cmdline: Option<seq<string>>,
    execute: (string, int, int) -> Result<ExecResult, string>,
    updateRun: (I, seq<nat>) -> Result<I, string>,
    writeInfo: I -> Option<string>,
    unpackedInfo: I)
    returns (outcome: Outcome<I>)
    requires ValidSelection(runs, selected)
    ensures var cmds := Combined(h, RunCommands(h, runs, selected, cmdline));
      var owner := if |selected| == 0 then (0, 0)
                   else (runs[selected[|selected| - 1]].uid, runs[selected[|selected| - 1]].gid);
      var result := execute(cmds, owner.0, owner.1);
      && (result.Failure? ==> outcome == Exited(ExitMessage(result.error)))
      && (result.Success? ==>
            var updated := updateRun(unpackedInfo, selected);
            && (updated.Failure? ==> outcome == Exited(ExitMessage(updated.error)))
            && (updated.Success? && writeInfo(updated.value).Some? ==>
                  outcome == Exited(ExitMessage(writeInfo(updated.value).value)))
            && (updated.Success? && writeInfo(updated.value).None? ==>
                  outcome == Returned(ReturnCode(result.value), updated.value)))
  {
    var cmds, uid, gid := BuildCommand(h, runs, selected, cmdline);
    var result := execute(cmds, uid, gid);
    if result.Failure? {
      return Exited(ExitMessage(result.error));
    }
    var updated := updateRun(unpackedInfo, selected);
    if updated.Failure? {
      return Exited(ExitMessage(updated.error));
    }
    var failed := writeInfo(updated.value);
    if failed.Some? {
      return Exited(ExitMessage(failed.value));
    }
    outcome := Returned(ReturnCode(result.value), updated.value);
  }
}
