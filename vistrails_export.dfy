/** `do_vistrails`: the VisTrails workflow written after an experiment is set
    up. A Directory module for the unpacked experiment comes first, then one
    Run module per run, each with its command line, its run number and one
    port spec per input or output file, chained by "experiment" connections.

    The written records are specified through a summary of what a reader of
    the file sees: modules, locations, descriptions, functions, parameter
    values, connections and port specs, each in file order. */
module VistrailsExport {
  import opened Common
  import opened VistrailsText
  import opened VistrailsWorkflow

  const RpzId := "io.github.vida-nyu.reprozip.reprounzip"
  const RpzVersion := "0.1"
  const BasicPkg := "org.vistrails.vistrails.basic"
  const DirectorySig := BasicPkg + ":Directory"
  const IntegerSig := BasicPkg + ":Integer"
  const StringSig := BasicPkg + ":String"
  const ExperimentSig := RpzId + ":" + "Directory"
  const RunSig := RpzId + ":" + "Run"
  /** The (package, module) pair of every port spec. */
  const FilePkgMod := (BasicPkg, "File")

  /** The parts of a run of the configuration that the export reads. */
  datatype RunConfig = RunConfig(id: Option<string>, argv: seq<string>)

  /** Which runs read and which runs write an input/output file. */
  datatype FileRoles = FileRoles(readRuns: set<int>, writeRuns: set<int>)

  /** `config.inputs_outputs`, in dictionary order. The names are the keys
      of a Python dictionary, so they are distinct; nothing here relies on it. */
  type InputsOutputs = seq<(string, FileRoles)>

  /** Names of the files run `i` reads, in dictionary order. */
  function ReadBy(io: InputsOutputs, i: int): seq<string>
  {
    if |io| == 0 then []
    else
      var n := |io| - 1;
      ReadBy(io[..n], i) + if i in io[n].1.readRuns then [io[n].0] else []
  }

  /** Names of the files run `i` writes, in dictionary order. */
  function WrittenBy(io: InputsOutputs, i: int): seq<string>
  {
    if |io| == 0 then []
    else
      var n := |io| - 1;
      WrittenBy(io[..n], i) + if i in io[n].1.writeRuns then [io[n].0] else []
  }

  /** A name is listed exactly when some file of that name is read by the run. */
  lemma {:induction false} ReadListed(io: InputsOutputs, i: int, name: string)
    ensures name in ReadBy(io, i) <==> exists j :: 0 <= j < |io| && io[j].0 == name && i in io[j].1.readRuns
  {
    if |io| > 0 {
      var n := |io| - 1;
      ReadListed(io[..n], i, name);
      if exists j :: 0 <= j < n && io[..n][j].0 == name && i in io[..n][j].1.readRuns {
        var j :| 0 <= j < n && io[..n][j].0 == name && i in io[..n][j].1.readRuns;
        assert io[j] == io[..n][j];
      }
      if exists j :: 0 <= j < |io| && io[j].0 == name && i in io[j].1.readRuns {
        var j :| 0 <= j < |io| && io[j].0 == name && i in io[j].1.readRuns;
        if j < n {
          assert io[..n][j] == io[j];
        }
      }
    }
  }

  /** A name is listed exactly when some file of that name is written by the run. */
  lemma {:induction false} WrittenListed(io: InputsOutputs, i: int, name: string)
    ensures name in WrittenBy(io, i) <==> exists j :: 0 <= j < |io| && io[j].0 == name && i in io[j].1.writeRuns
  {
    if |io| > 0 {
      var n := |io| - 1;
      WrittenListed(io[..n], i, name);
      if exists j :: 0 <= j < n && io[..n][j].0 == name && i in io[..n][j].1.writeRuns {
        var j :| 0 <= j < n && io[..n][j].0 == name && i in io[..n][j].1.writeRuns;
        assert io[j] == io[..n][j];
      }
      if exists j :: 0 <= j < |io| && io[j].0 == name && i in io[j].1.writeRuns {
        var j :| 0 <= j < |io| && io[j].0 == name && i in io[j].1.writeRuns;
        if j < n {
          assert io[..n][j] == io[j];
        }
      }
    }
  }

  /** Pair every name with a port type. */
  function Tag(typ: string, names: seq<string>): seq<(string, string)>
  {
    if |names| == 0 then []
    else Tag(typ, names[..|names| - 1]) + [(typ, names[|names| - 1])]
  }

  lemma {:induction false} TagAt(typ: string, names: seq<string>)
    ensures |Tag(typ, names)| == |names|
    ensures forall k :: 0 <= k < |names| ==> Tag(typ, names)[k] == (typ, names[k])
  {
    if |names| > 0 {
      TagAt(typ, names[..|names| - 1]);
    }
  }

  /** The ports of run `i`: its inputs sorted, then its outputs sorted, as
      (type, name) pairs. */
  function Ports(io: InputsOutputs, i: int): seq<(string, string)>
  {
    Layout("input", "output", Sort(ReadBy(io, i)), Sort(WrittenBy(io, i)))
  }

  /** Ports of type `t` named `xs`, then ports of type `u` named `ys`. */
  function Layout(t: string, u: string, xs: seq<string>, ys: seq<string>): seq<(string, string)>
  {
    Tag(t, xs) + Tag(u, ys)
  }

  lemma TagsAt(t: string, u: string, xs: seq<string>, ys: seq<string>)
    ensures var ps := Tag(t, xs) + Tag(u, ys);
      && |ps| == |xs| + |ys|
      && (forall j :: 0 <= j < |xs| ==> ps[j] == (t, xs[j]))
      && (forall j :: |xs| <= j < |ps| ==> ps[j] == (u, ys[j - |xs|]))
  {
    var a, b := Tag(t, xs), Tag(u, ys);
    TagAt(t, xs);
    TagAt(u, ys);
    forall j | 0 <= j < |xs| ensures (a + b)[j] == (t, xs[j]) {
      assert (a + b)[j] == a[j];
    }
    forall j | |xs| <= j < |a + b| ensures (a + b)[j] == (u, ys[j - |xs|]) {
      assert (a + b)[j] == b[j - |a|];
    }
  }

  /** Every input port precedes every output port; the input names are the
      names the run reads in sorted order (see `Sort`), and the output names
      those it writes. */
  lemma RunPorts(io: InputsOutputs, i: int, ins: seq<string>, outs: seq<string>)
    requires ins == Sort(ReadBy(io, i)) && outs == Sort(WrittenBy(io, i))
    ensures Sorted(ins) && multiset(ins) == multiset(ReadBy(io, i))
    ensures Sorted(outs) && multiset(outs) == multiset(WrittenBy(io, i))
    ensures |Ports(io, i)| == |ins| + |outs|
    ensures forall j :: 0 <= j < |ins| ==> Ports(io, i)[j] == ("input", ins[j])
    ensures forall j :: |ins| <= j < |Ports(io, i)| ==> Ports(io, i)[j] == ("output", outs[j - |ins|])
  {
    LayoutAt("input", "output", ins, outs);
  }

  lemma LayoutAt(t: string, u: string, xs: seq<string>, ys: seq<string>)
    ensures |Layout(t, u, xs, ys)| == |xs| + |ys|
    ensures forall j :: 0 <= j < |xs| ==> Layout(t, u, xs, ys)[j] == (t, xs[j])
    ensures forall j :: |xs| <= j < |xs| + |ys| ==> Layout(t, u, xs, ys)[j] == (u, ys[j - |xs|])
  {
    TagsAt(t, u, xs, ys);
  }

  /** `run.get('id', 'run%d' % i)` */
  function Description(run: RunConfig, i: nat): string
  {
    if run.id.Some? then run.id.value else "run" + Decimal(i)
  }

  /** The command line shown in the Run module: the shell-escaped arguments
      joined with spaces. */
  function Cmdline(esc: string -> string, argv: seq<string>): string
  {
    JoinWith(" ", Map(esc, argv))
  }

  /** What a reader sees in the file, each kind of element in file order. */
  datatype Summary = Summary(
    modules: seq<(nat, string)>,           // (module id, module name)
    ys: seq<(nat, int)>,                   // (module id, location y)
    descs: seq<(nat, string)>,             // (module id, escaped description)
    functions: seq<(nat, string)>,         // (module id, function name)
    values: seq<string>,                   // escaped parameter values
    chain: seq<(nat, nat)>,                // (source module id, destination module id)
    ports: seq<(nat, string, string)>)     // (module id, port type, escaped port name)

  const Nothing := Summary([], [], [], [], [], [], [])

  function Combine(a: Summary, b: Summary): Summary
  {
    Summary(a.modules + b.modules, a.ys + b.ys, a.descs + b.descs, a.functions + b.functions,
            a.values + b.values, a.chain + b.chain, a.ports + b.ports)
  }

  lemma CombineAssoc(a: Summary, b: Summary, c: Summary)
    ensures Combine(Combine(a, b), c) == Combine(a, Combine(b, c))
  {
    assert (a.modules + b.modules) + c.modules == a.modules + (b.modules + c.modules);
    assert (a.ys + b.ys) + c.ys == a.ys + (b.ys + c.ys);
    assert (a.descs + b.descs) + c.descs == a.descs + (b.descs + c.descs);
    assert (a.functions + b.functions) + c.functions == a.functions + (b.functions + c.functions);
    assert (a.values + b.values) + c.values == a.values + (b.values + c.values);
    assert (a.chain + b.chain) + c.chain == a.chain + (b.chain + c.chain);
    assert (a.ports + b.ports) + c.ports == a.ports + (b.ports + c.ports);
  }

  lemma CombineNothing(a: Summary)
    ensures Combine(a, Nothing) == a
  {
    assert a.modules + [] == a.modules && a.ys + [] == a.ys && a.descs + [] == a.descs;
    assert a.functions + [] == a.functions && a.values + [] == a.values;
    assert a.chain + [] == a.chain && a.ports + [] == a.ports;
  }

  function RecordSummary(r: Record): Summary
  {
    match r
    case ModuleAdd(_, modId, name, _, _) => Nothing.(modules := [(modId, name)])
    case LocationAdd(_, _, modId, y) => Nothing.(ys := [(modId, y)])
    case AnnotationAdd(_, _, modId, text) => Nothing.(descs := [(modId, text)])
    case FunctionAdd(_, _, modId, name) => Nothing.(functions := [(modId, name)])
    case ParameterAdd(_, _, _, _, _, val) => Nothing.(values := [val])
    case ConnectionAdd(_, _, _, _, source, dest) => Nothing.(chain := [(source.moduleId, dest.moduleId)])
    case PortSpecOpen(_, _, modId, name, typ, _) => Nothing.(ports := [(modId, typ, name)])
    case _ => Nothing
  }

  function Summarize(rs: seq<Record>): Summary
  {
    if |rs| == 0 then Nothing
    else Combine(Summarize(rs[..|rs| - 1]), RecordSummary(rs[|rs| - 1]))
  }

  lemma SummarizeOne(r: Record)
    ensures Summarize([r]) == RecordSummary(r)
  {
    assert [r][..0] == [];
  }

  /** The summary of a concatenation is the concatenation of the summaries. */
  lemma {:induction false} SummarizeAppend(a: seq<Record>, b: seq<Record>)
    ensures Summarize(a + b) == Combine(Summarize(a), Summarize(b))
    decreases |b|
  {
    if |b| == 0 {
      assert a + b == a;
      CombineNothing(Summarize(a));
    } else {
      var n := |b| - 1;
      assert (a + b)[..|a + b| - 1] == a + b[..n];
      assert (a + b)[|a + b| - 1] == b[n];
      SummarizeAppend(a, b[..n]);
      CombineAssoc(Summarize(a), Summarize(b[..n]), RecordSummary(b[n]));
    }
  }

  /** The escaped values of `add_function`'s parameters, in order. */
  function ParamValues(params: seq<(string, string)>): seq<string>
  {
    if |params| == 0 then []
    else ParamValues(params[..|params| - 1]) + [EscapeXml(params[|params| - 1].1)]
  }

  /** What one `add_module` shows: the module, its location and its
      description when one is given. */
  lemma SummarizeModule(a: nat, m: nat, l: nat, an: nat, name: string, pkg: string,
                        version: string, y: int, desc: Option<string>)
    ensures Summarize(ModuleRecords(a, m, l, an, name, pkg, version, y, desc))
         == Nothing.(modules := [(m, name)], ys := [(m, y)],
                     descs := if desc.Some? then [(m, EscapeXml(desc.value))] else [])
  {
    var r1, r2 := ModuleAdd(a, m, name, pkg, version), LocationAdd(a + 1, l, m, y);
    SummarizeOne(r1);
    SummarizeOne(r2);
    SummarizeAppend([r1], [r2]);
    assert [r1] + [r2] == [r1, r2];
    if desc.Some? {
      var r3 := AnnotationAdd(a + 2, an, m, EscapeXml(desc.value));
      SummarizeOne(r3);
      SummarizeAppend([r1, r2], [r3]);
    } else {
      assert ModuleRecords(a, m, l, an, name, pkg, version, y, desc) == [r1, r2];
    }
  }

  /** What one `add_function` shows: the function and its parameter values. */
  lemma {:induction false} SummarizeParams(a: nat, p: nat, f: nat, params: seq<(string, string)>)
    ensures Summarize(ParamRecords(a, p, f, params)) == Nothing.(values := ParamValues(params))
  {
    if |params| > 0 {
      var n := |params| - 1;
      SummarizeParams(a, p, f, params[..n]);
      var r := ParameterAdd(a + n, p + n, f, n, params[n].0, EscapeXml(params[n].1));
      SummarizeOne(r);
      SummarizeAppend(ParamRecords(a, p, f, params[..n]), [r]);
    }
  }

  /** What one `add_function` with a single parameter adds to a file. */
  lemma SummarizeFunction(f0: seq<Record>, a: nat, f: nat, m: nat, name: string, p: nat, sig: string, val: string)
    ensures Summarize(f0 + [FunctionAdd(a, f, m, name)] + ParamRecords(a + 1, p, f, [(sig, val)]))
         == Combine(Summarize(f0), Nothing.(functions := [(m, name)], values := [EscapeXml(val)]))
  {
    var fa := FunctionAdd(a, f, m, name);
    var params := [(sig, val)];
    var ps := ParamRecords(a + 1, p, f, params);
    SummarizeAppend(f0 + [fa], ps);
    SummarizeAppend(f0, [fa]);
    SummarizeOne(fa);
    SummarizeParams(a + 1, p, f, params);
    assert params[..0] == [];
    var fs, vs := Nothing.(functions := [(m, name)]), Nothing.(values := [EscapeXml(val)]);
    assert ParamValues(params) == [EscapeXml(val)];
    CombineAssoc(Summarize(f0), fs, vs);
    assert Combine(fs, vs) == Nothing.(functions := [(m, name)], values := [EscapeXml(val)]);
  }

  /** Port spec items show nothing of their own. */
  lemma {:induction false} SummarizeItems(psi: nat, sigs: seq<(string, string)>)
    ensures Summarize(ItemRecords(psi, sigs)) == Nothing
  {
    if |sigs| > 0 {
      var n := |sigs| - 1;
      SummarizeItems(psi, sigs[..n]);
      var r := PortSpecItem(psi + n, sigs[n].1, sigs[n].0, n);
      SummarizeOne(r);
      SummarizeAppend(ItemRecords(psi, sigs[..n]), [r]);
    }
  }

  /** What one `add_port_spec` adds to a file: its port spec only. */
  lemma SummarizePortSpec(f0: seq<Record>, a: nat, ps: nat, m: nat, name: string, typ: string, psi: nat,
                          sigs: seq<(string, string)>)
    ensures Summarize(f0 + [PortSpecOpen(a, ps, m, name, typ, true)] + ItemRecords(psi, sigs) + [PortSpecClose])
         == Combine(Summarize(f0), Nothing.(ports := [(m, typ, name)]))
  {
    var open := PortSpecOpen(a, ps, m, name, typ, true);
    var g1 := f0 + [open];
    var g2 := g1 + ItemRecords(psi, sigs);
    assert Summarize(g1) == Combine(Summarize(f0), Nothing.(ports := [(m, typ, name)])) by {
      SummarizeOne(open);
      SummarizeAppend(f0, [open]);
    }
    assert Summarize(g2) == Summarize(g1) by {
      SummarizeItems(psi, sigs);
      SummarizeAppend(g1, ItemRecords(psi, sigs));
      CombineNothing(Summarize(g1));
    }
    assert Summarize(g2 + [PortSpecClose]) == Summarize(g2) by {
      SummarizeOne(PortSpecClose);
      SummarizeAppend(g2, [PortSpecClose]);
      CombineNothing(Summarize(g2));
    }
  }

  lemma CombinePorts(s: Summary, ps: seq<(nat, string, string)>, qs: seq<(nat, string, string)>)
    ensures Combine(Combine(s, Nothing.(ports := ps)), Nothing.(ports := qs)) == Combine(s, Nothing.(ports := ps + qs))
  {
    assert s.modules + [] + [] == s.modules + [] && s.ys + [] + [] == s.ys + [];
    assert s.descs + [] + [] == s.descs + [] && s.functions + [] + [] == s.functions + [];
    assert s.values + [] + [] == s.values + [] && s.chain + [] + [] == s.chain + [];
    assert s.ports + ps + qs == s.ports + (ps + qs);
  }

  /** The port specs of module `m`: (module id, type, escaped name). */
  function PortSummaries(m: nat, ports: seq<(string, string)>): seq<(nat, string, string)>
  {
    if |ports| == 0 then []
    else
      var n := |ports| - 1;
      PortSummaries(m, ports[..n]) + [(m, ports[n].0, EscapeXml(ports[n].1))]
  }

  /** What the Run module of run `i` shows before its port specs. */
  function RunHead(run: RunConfig, i: nat, esc: string -> string): Summary
  {
    Summary([(i + 1, "Run")], [(i + 1, -100 * (i + 1))], [(i + 1, EscapeXml(Description(run, i)))],
            [(i + 1, "cmdline"), (i + 1, "run_number")],
            [EscapeXml(Cmdline(esc, run.argv)), EscapeXml(Decimal(i))], [], [])
  }

  /** The Directory module (id 0, at y = 0) and its `directory` function. */
  function DirectorySummary(target: string): Summary
  {
    Summary([(0, "Directory")], [(0, 0)], [], [(0, "directory")], [EscapeXml(target)], [], [])
  }

  // What the file shows once the first n runs are exported, view by view.

  function ModulesSpec(n: nat): seq<(nat, string)>
  {
    if n == 0 then [(0, "Directory")] else ModulesSpec(n - 1) + [(n, "Run")]
  }

  function YsSpec(n: nat): seq<(nat, int)>
  {
    if n == 0 then [(0, 0)] else YsSpec(n - 1) + [(n, -100 * n)]
  }

  function DescsSpec(runs: seq<RunConfig>, n: nat): seq<(nat, string)>
    requires n <= |runs|
  {
    if n == 0 then [] else DescsSpec(runs, n - 1) + [(n, EscapeXml(Description(runs[n - 1], n - 1)))]
  }

  function FunctionsSpec(n: nat): seq<(nat, string)>
  {
    if n == 0 then [(0, "directory")] else FunctionsSpec(n - 1) + [(n, "cmdline"), (n, "run_number")]
  }

  function ValuesSpec(target: string, runs: seq<RunConfig>, esc: string -> string, n: nat): seq<string>
    requires n <= |runs|
  {
    [EscapeXml(target)] + Pairs((k: nat) => CmdlineValue(esc, runs, k), (k: nat) => EscapeXml(Decimal(k)), n)
  }

  /** The escaped command line of run `k`. */
  function CmdlineValue(esc: string -> string, runs: seq<RunConfig>, k: nat): string
  {
    if k < |runs| then EscapeXml(Cmdline(esc, runs[k].argv)) else ""
  }

  /** `f(0), g(0), f(1), g(1), ...` up to `n` pairs. */
  function Pairs(f: nat -> string, g: nat -> string, n: nat): seq<string>
  {
    if n == 0 then [] else Pairs(f, g, n - 1) + [f(n - 1), g(n - 1)]
  }

  lemma ValuesStep(target: string, runs: seq<RunConfig>, esc: string -> string, n: nat)
    requires n < |runs|
    ensures ValuesSpec(target, runs, esc, n + 1)
         == ValuesSpec(target, runs, esc, n) + [EscapeXml(Cmdline(esc, runs[n].argv)), EscapeXml(Decimal(n))]
  {
    var f, g := (k: nat) => CmdlineValue(esc, runs, k), (k: nat) => EscapeXml(Decimal(k));
    assert Pairs(f, g, n + 1) == Pairs(f, g, n) + [f(n), g(n)];
  }

  lemma {:induction false} PairsAt(f: nat -> string, g: nat -> string, n: nat)
    ensures |Pairs(f, g, n)| == 2 * n
    ensures forall k :: 0 <= k < n ==> Pairs(f, g, n)[2 * k] == f(k) && Pairs(f, g, n)[2 * k + 1] == g(k)
  {
    if n > 0 {
      PairsAt(f, g, n - 1);
      var prev := Pairs(f, g, n - 1);
      forall k | 0 <= k < n
        ensures Pairs(f, g, n)[2 * k] == f(k) && Pairs(f, g, n)[2 * k + 1] == g(k)
      {
        if k < n - 1 {
          assert Pairs(f, g, n)[2 * k] == prev[2 * k] && Pairs(f, g, n)[2 * k + 1] == prev[2 * k + 1];
        }
      }
    }
  }

  function ChainSpec(n: nat): seq<(nat, nat)>
  {
    if n == 0 then [] else ChainSpec(n - 1) + [(n - 1, n)]
  }

  /** The port specs of the first n Run modules, where run k has ports `ports(k)`. */
  function PortsSpecOf(ports: nat -> seq<(string, string)>, n: nat): seq<(nat, string, string)>
  {
    if n == 0 then [] else PortsSpecOf(ports, n - 1) + PortSummaries(n, ports(n - 1))
  }

  function PortsSpec(io: InputsOutputs, n: nat): seq<(nat, string, string)>
  {
    PortsSpecOf(k => Ports(io, k), n)
  }

  function ExportSummary(target: string, runs: seq<RunConfig>, io: InputsOutputs,
                         esc: string -> string, n: nat): Summary
    requires n <= |runs|
  {
    Summary(ModulesSpec(n), YsSpec(n), DescsSpec(runs, n), FunctionsSpec(n),
            ValuesSpec(target, runs, esc, n), ChainSpec(n), PortsSpec(io, n))
  }

  /** Before any run, the file shows the Directory module. */
  lemma ExportStart(target: string, runs: seq<RunConfig>, io: InputsOutputs, esc: string -> string)
    ensures Combine(Combine(Nothing, Nothing.(modules := [(0, "Directory")], ys := [(0, 0)], descs := [])),
                    Nothing.(functions := [(0, "directory")], values := [EscapeXml(target)]))
         == ExportSummary(target, runs, io, esc, 0)
  {
  }

  /** Exporting run n adds its Run module, its port specs and its connection. */
  lemma ExportStep(target: string, runs: seq<RunConfig>, io: InputsOutputs, esc: string -> string, n: nat)
    requires n < |runs|
    ensures ExportSummary(target, runs, io, esc, n + 1)
         == Combine(Combine(Combine(ExportSummary(target, runs, io, esc, n), RunHead(runs[n], n, esc)),
                            Nothing.(ports := PortSummaries(n + 1, Ports(io, n)))),
                    Nothing.(chain := [(n, n + 1)]))
  {
    var s, h, ps := ExportSummary(target, runs, io, esc, n), RunHead(runs[n], n, esc), PortSummaries(n + 1, Ports(io, n));
    var c: seq<(nat, nat)> := [(n, n + 1)];
    SpecStep(target, runs, io, esc, n, s, h, ps, c);
    CombineRun(s, h, ps, c);
  }

  /** The specification functions at `n + 1`, field by field. */
  lemma SpecStep(target: string, runs: seq<RunConfig>, io: InputsOutputs, esc: string -> string, n: nat,
                 s: Summary, h: Summary, ps: seq<(nat, string, string)>, c: seq<(nat, nat)>)
    requires n < |runs|
    requires s == ExportSummary(target, runs, io, esc, n) && h == RunHead(runs[n], n, esc)
    requires ps == PortSummaries(n + 1, Ports(io, n)) && c == [(n, n + 1)]
    ensures ExportSummary(target, runs, io, esc, n + 1)
         == Summary(s.modules + h.modules, s.ys + h.ys, s.descs + h.descs, s.functions + h.functions,
                    s.values + h.values, s.chain + c, s.ports + ps)
  {
    ValuesStep(target, runs, esc, n);
  }

  /** Appending a run's head, its port specs and its connection, field by field. */
  lemma CombineRun(s: Summary, h: Summary, ps: seq<(nat, string, string)>, c: seq<(nat, nat)>)
    requires h.chain == [] && h.ports == []
    ensures Combine(Combine(Combine(s, h), Nothing.(ports := ps)), Nothing.(chain := c))
         == Summary(s.modules + h.modules, s.ys + h.ys, s.descs + h.descs, s.functions + h.functions,
                    s.values + h.values, s.chain + c, s.ports + ps)
  {
    assert s.modules + h.modules + [] + [] == s.modules + h.modules;
    assert s.ys + h.ys + [] + [] == s.ys + h.ys;
    assert s.descs + h.descs + [] + [] == s.descs + h.descs;
    assert s.functions + h.functions + [] + [] == s.functions + h.functions;
    assert s.values + h.values + [] + [] == s.values + h.values;
    assert s.chain + h.chain + [] + c == s.chain + c;
    assert s.ports + h.ports + ps + [] == s.ports + ps;
  }

  /** The Directory module has id 0 and the Run module of run k has id k + 1. */
  lemma {:induction false} ExportModules(n: nat)
    ensures var ms := ModulesSpec(n);
      && |ms| == n + 1 && ms[0] == (0, "Directory")
      && forall k :: 1 <= k <= n ==> ms[k] == (k, "Run")
  {
    if n > 0 {
      ExportModules(n - 1);
    }
  }

  /** Module k is placed at y = -100 * k. */
  lemma {:induction false} ExportLocations(n: nat)
    ensures var ys := YsSpec(n);
      |ys| == n + 1 && forall k :: 0 <= k <= n ==> ys[k] == (k, -100 * k)
  {
    if n > 0 {
      ExportLocations(n - 1);
    }
  }

  /** Run k's module is described by the run's id, or "run<k>" without one. */
  lemma {:induction false} ExportDescriptions(runs: seq<RunConfig>, n: nat)
    requires n <= |runs|
    ensures var ds := DescsSpec(runs, n);
      |ds| == n && forall k :: 0 <= k < n ==> ds[k] == (k + 1, EscapeXml(Description(runs[k], k)))
  {
    if n > 0 {
      ExportDescriptions(runs, n - 1);
      var prev := DescsSpec(runs, n - 1);
      var ds := DescsSpec(runs, n);
      assert ds == prev + [(n, EscapeXml(Description(runs[n - 1], n - 1)))];
      forall k | 0 <= k < n ensures ds[k] == (k + 1, EscapeXml(Description(runs[k], k))) {
        if k < n - 1 {
          assert ds[k] == prev[k];
        }
      }
    }
  }

  /** The modules form a chain: Directory -> run 0 -> run 1 -> ... */
  lemma {:induction false} ExportChain(n: nat)
    ensures var cs := ChainSpec(n);
      |cs| == n && forall k :: 0 <= k < n ==> cs[k] == (k, k + 1)
  {
    if n > 0 {
      ExportChain(n - 1);
    }
  }

  /** The Directory module has one function, `directory`; each Run module
      has `cmdline` then `run_number`. */
  lemma {:induction false} ExportFunctions(n: nat)
    ensures var fs := FunctionsSpec(n);
      && |fs| == 2 * n + 1 && fs[0] == (0, "directory")
      && forall k :: 0 <= k < n ==> fs[2 * k + 1] == (k + 1, "cmdline") && fs[2 * k + 2] == (k + 1, "run_number")
  {
    if n > 0 {
      ExportFunctions(n - 1);
      var prev := FunctionsSpec(n - 1);
      var fs := FunctionsSpec(n);
      assert fs == prev + [(n, "cmdline"), (n, "run_number")];
      forall k | 0 <= k < n
        ensures fs[2 * k + 1] == (k + 1, "cmdline") && fs[2 * k + 2] == (k + 1, "run_number")
      {
        if k < n - 1 {
          assert fs[2 * k + 1] == prev[2 * k + 1] && fs[2 * k + 2] == prev[2 * k + 2];
        }
      }
    }
  }

  /** The parameter values, in the same order: the target, then for each run
      its escaped, space-joined arguments and its index. */
  lemma ExportValues(target: string, runs: seq<RunConfig>, esc: string -> string, n: nat)
    requires n <= |runs|
    ensures var vs := ValuesSpec(target, runs, esc, n);
      && |vs| == 2 * n + 1 && vs[0] == EscapeXml(target)
      && forall k :: 0 <= k < n ==>
           vs[2 * k + 1] == EscapeXml(Cmdline(esc, runs[k].argv)) && vs[2 * k + 2] == EscapeXml(Decimal(k))
  {
    var f, g := (k: nat) => CmdlineValue(esc, runs, k), (k: nat) => EscapeXml(Decimal(k));
    PairsAt(f, g, n);
    var vs := ValuesSpec(target, runs, esc, n);
    forall k | 0 <= k < n
      ensures vs[2 * k + 1] == EscapeXml(Cmdline(esc, runs[k].argv)) && vs[2 * k + 2] == EscapeXml(Decimal(k))
    {
      assert vs[2 * k + 1] == f(k) && vs[2 * k + 2] == g(k);
    }
  }

  /** The port specs attached to module m, in file order. */
  function PortsOf(ps: seq<(nat, string, string)>, m: nat): seq<(nat, string, string)>
  {
    if |ps| == 0 then []
    else PortsOf(ps[..|ps| - 1], m) + if ps[|ps| - 1].0 == m then [ps[|ps| - 1]] else []
  }

  lemma {:induction false} PortsOfAppend(a: seq<(nat, string, string)>, b: seq<(nat, string, string)>, m: nat)
    ensures PortsOf(a + b, m) == PortsOf(a, m) + PortsOf(b, m)
    decreases |b|
  {
    if |b| == 0 {
      assert a + b == a;
    } else {
      var n := |b| - 1;
      assert (a + b)[..|a + b| - 1] == a + b[..n];
      PortsOfAppend(a, b[..n], m);
    }
  }

  lemma {:induction false} PortSummariesOf(m: nat, ports: seq<(string, string)>, m': nat)
    ensures PortsOf(PortSummaries(m, ports), m') == if m == m' then PortSummaries(m, ports) else []
  {
    if |ports| > 0 {
      var n := |ports| - 1;
      PortSummariesOf(m, ports[..n], m');
      PortsOfAppend(PortSummaries(m, ports[..n]), [(m, ports[n].0, EscapeXml(ports[n].1))], m');
      assert [(m, ports[n].0, EscapeXml(ports[n].1))][..0] == [];
    }
  }

  /** Appending module m's port specs adds exactly those to module m... */
  lemma PortsOfOwn(prev: seq<(nat, string, string)>, m: nat, ports: seq<(string, string)>)
    ensures PortsOf(prev + PortSummaries(m, ports), m) == PortsOf(prev, m) + PortSummaries(m, ports)
  {
    PortsOfAppend(prev, PortSummaries(m, ports), m);
    PortSummariesOf(m, ports, m);
  }

  /** ... and nothing to any other module. */
  lemma PortsOfOther(prev: seq<(nat, string, string)>, m: nat, ports: seq<(string, string)>, m': nat)
    requires m != m'
    ensures PortsOf(prev + PortSummaries(m, ports), m') == PortsOf(prev, m')
  {
    PortsOfAppend(prev, PortSummaries(m, ports), m');
    PortSummariesOf(m, ports, m');
    assert PortsOf(prev, m') + [] == PortsOf(prev, m');
  }

  /** Module m holds no port spec before it is written. */
  lemma {:induction false} PortsBefore(ports: nat -> seq<(string, string)>, n: nat, m: nat)
    requires n < m
    ensures PortsOf(PortsSpecOf(ports, n), m) == []
  {
    if n > 0 {
      PortsBefore(ports, n - 1, m);
      PortsOfOther(PortsSpecOf(ports, n - 1), n, ports(n - 1), m);
    }
  }

  lemma PortsOfLast(ports: nat -> seq<(string, string)>, k: nat)
    ensures PortsOf(PortsSpecOf(ports, k + 1), k + 1) == PortSummaries(k + 1, ports(k))
  {
    var prev, last := PortsSpecOf(ports, k), ports(k);
    PortsBefore(ports, k, k + 1);
    PortsOfOwn(prev, k + 1, last);
    assert [] + PortSummaries(k + 1, last) == PortSummaries(k + 1, last);
  }

  lemma {:induction false} PortsOfRun(ports: nat -> seq<(string, string)>, n: nat, k: nat)
    requires k < n
    ensures PortsOf(PortsSpecOf(ports, n), k + 1) == PortSummaries(k + 1, ports(k))
  {
    if k == n - 1 {
      PortsOfLast(ports, k);
    } else {
      PortsOfRun(ports, n - 1, k);
      PortsOfEarlier(ports, n, k + 1);
    }
  }

  lemma PortsOfEarlier(ports: nat -> seq<(string, string)>, n: nat, m: nat)
    requires 0 < n && m != n
    ensures PortsOf(PortsSpecOf(ports, n), m) == PortsOf(PortsSpecOf(ports, n - 1), m)
  {
    PortsOfOther(PortsSpecOf(ports, n - 1), n, ports(n - 1), m);
  }

  /** The port specs of run k's module are exactly the ports of run k, in
      order, with their names escaped: sorted inputs, then sorted outputs. */
  lemma ExportPorts(io: InputsOutputs, n: nat, k: nat)
    requires k < n
    ensures PortsOf(PortsSpec(io, n), k + 1) == PortSummaries(k + 1, Ports(io, k))
  {
    PortsOfRun(k => Ports(io, k), n, k);
  }

  /** The summaries of a module with its description and of two one-parameter
      functions add up to one Run head. */
  lemma CombineHead(s: Summary, m: (nat, string), y: (nat, int), d: (nat, string),
                    fa: (nat, string), va: string, fb: (nat, string), vb: string)
    ensures Combine(Combine(Combine(s, Nothing.(modules := [m], ys := [y], descs := [d])),
                            Nothing.(functions := [fa], values := [va])),
                    Nothing.(functions := [fb], values := [vb]))
         == Combine(s, Summary([m], [y], [d], [fa, fb], [va, vb], [], []))
  {
    assert s.modules + [m] + [] + [] == s.modules + [m];
    assert s.ys + [y] + [] + [] == s.ys + [y];
    assert s.descs + [d] + [] + [] == s.descs + [d];
    assert s.functions + [] + [fa] + [fb] == s.functions + [fa, fb];
    assert s.values + [] + [va] + [vb] == s.values + [va, vb];
    assert s.chain + [] + [] + [] == s.chain + [];
    assert s.ports + [] + [] + [] == s.ports + [];
  }

  /** The experiment's signature splits into the reprounzip package and
      `Directory`. */
  lemma ExperimentSigSplit()
    ensures SplitSig(ExperimentSig) == Some(("Directory", RpzId))
  {
    SplitSigJoin(RpzId, "Directory");
  }

  /** A run's signature splits into the reprounzip package and `Run`. */
  lemma RunSigSplit()
    ensures SplitSig(RunSig) == Some(("Run", RpzId))
  {
    SplitSigJoin(RpzId, "Run");
  }

  /** `add_module` for one of the reprounzip modules: the file gains the
      module, at the current y, with its description if it has one. */
  method AddExportModule(wf: Workflow, sig: string, name: string, desc: Option<string>) returns (m: nat)
    requires wf.ids.Valid() && SplitSig(sig) == Some((name, RpzId))
    modifies wf, wf.ids
    ensures wf.ids.Valid() && wf.ids.ids[ModuleKind] == m + 1 && wf.modY == old(wf.modY) - 100
    ensures m == old(wf.ids.ids[ModuleKind])
    ensures old(wf.file) <= wf.file
    ensures Summarize(wf.file)
         == Combine(Summarize(old(wf.file)),
                    Nothing.(modules := [(m, name)], ys := [(m, old(wf.modY))],
                             descs := if desc.Some? then [(m, EscapeXml(desc.value))] else []))
  {
    ghost var f0 := wf.file;
    ghost var a0, l0, n0 := wf.ids.ids[AddKind], wf.ids.ids[LocationKind], wf.ids.ids[AnnotationKind];
    ghost var y: int := wf.modY;
    var r := wf.AddModule(sig, RpzVersion, desc);
    m := r.value;
    ghost var mods := ModuleRecords(a0, m, l0, n0, name, RpzId, RpzVersion, y, desc);
    assert wf.file == f0 + mods;
    SummarizeModule(a0, m, l0, n0, name, RpzId, RpzVersion, y, desc);
    SummarizeAppend(f0, mods);
  }

  /** `add_function` with one parameter: the file gains the function and
      the parameter's escaped value. */
  method AddExportFunction(wf: Workflow, m: nat, name: string, sig: string, val: string)
    requires wf.ids.Valid()
    modifies wf, wf.ids
    ensures wf.ids.Valid() && wf.ids.ids[ModuleKind] == old(wf.ids.ids[ModuleKind]) && wf.modY == old(wf.modY)
    ensures old(wf.file) <= wf.file
    ensures Summarize(wf.file)
         == Combine(Summarize(old(wf.file)), Nothing.(functions := [(m, name)], values := [EscapeXml(val)]))
  {
    ghost var f0 := wf.file;
    ghost var a, g, p := wf.ids.ids[AddKind], wf.ids.ids[FunctionKind], wf.ids.ids[ParameterKind];
    wf.AddFunction(m, name, [(sig, val)]);
    SummarizeFunction(f0, a, g, m, name, p, sig, val);
  }

  /** `connect` between the `experiment` ports of two reprounzip modules:
      the file gains the connection from one to the other. */
  method AddExportConnection(wf: Workflow, sig: string, port: string, from: nat, to: nat)
    requires wf.ids.Valid() && SplitSig(sig).Some?
    modifies wf, wf.ids
    ensures wf.ids.Valid() && wf.ids.ids[ModuleKind] == old(wf.ids.ids[ModuleKind]) && wf.modY == old(wf.modY)
    ensures old(wf.file) <= wf.file
    ensures Summarize(wf.file) == Combine(Summarize(old(wf.file)), Nothing.(chain := [(from, to)]))
  {
    ghost var f0 := wf.file;
    ghost var a, c, p := wf.ids.ids[AddKind], wf.ids.ids[ConnectionKind], wf.ids.ids[PortKind];
    var ok := wf.Connect(from, sig, port, to, sig, port);
    SummarizeConnection(f0, ConnectionAdd(a, a + 1, a + 2, c,
                                          PortRef(p, from, SplitSig(sig).value.0, port, sig),
                                          PortRef(p + 1, to, SplitSig(sig).value.0, port, sig)));
  }

  /** What one connection adds to a file: the pair of modules it links. */
  lemma SummarizeConnection(f0: seq<Record>, conn: Record)
    requires conn.ConnectionAdd?
    ensures f0 <= f0 + [conn]
    ensures Summarize(f0 + [conn]) == Combine(Summarize(f0), Nothing.(chain := [(conn.source.moduleId, conn.dest.moduleId)]))
  {
    SummarizeOne(conn);
    SummarizeAppend(f0, [conn]);
  }

  /** The first half of one iteration of the run loop: the Run module with
      its description, then its `cmdline` and `run_number` functions. */
  method AddRunModule(wf: Workflow, i: nat, run: RunConfig, esc: string -> string) returns (m: nat)
    requires wf.ids.Valid() && wf.ids.ids[ModuleKind] == i + 1 && wf.modY == -100 * (i + 1)
    modifies wf, wf.ids
    ensures wf.ids.Valid() && wf.ids.ids[ModuleKind] == i + 2 && wf.modY == -100 * (i + 2)
    ensures m == i + 1
    ensures old(wf.file) <= wf.file
    ensures Summarize(wf.file) == Combine(Summarize(old(wf.file)), RunHead(run, i, esc))
  {
    ghost var s0 := Summarize(wf.file);
    ghost var y: int := wf.modY;
    var desc := Description(run, i);
    RunSigSplit();
    m := AddExportModule(wf, RunSig, "Run", Some(desc));
    var cmdline := Cmdline(esc, run.argv);
    AddExportFunction(wf, m, "cmdline", StringSig, cmdline);
    var number := Decimal(i);
    AddExportFunction(wf, m, "run_number", IntegerSig, number);
    CombineHead(s0, (m, "Run"), (m, y), (m, EscapeXml(desc)),
                (m, "cmdline"), EscapeXml(cmdline), (m, "run_number"), EscapeXml(number));
  }

  /** The port-spec loop of one iteration: one port spec per (type, name)
      pair, each with the single File item. */
  method AddRunPorts(wf: Workflow, m: nat, ports: seq<(string, string)>)
    requires wf.ids.Valid()
    modifies wf, wf.ids
    ensures wf.ids.Valid() && wf.ids.ids[ModuleKind] == old(wf.ids.ids[ModuleKind]) && wf.modY == old(wf.modY)
    ensures old(wf.file) <= wf.file
    ensures Summarize(wf.file) == Combine(Summarize(old(wf.file)), Nothing.(ports := PortSummaries(m, ports)))
  {
    for j := 0 to |ports|
      invariant wf.ids.Valid() && wf.ids.ids[ModuleKind] == old(wf.ids.ids[ModuleKind]) && wf.modY == old(wf.modY)
      invariant old(wf.file) <= wf.file
      invariant Summarize(wf.file) == Combine(Summarize(old(wf.file)), Nothing.(ports := PortSummaries(m, ports[..j])))
    {
      AddRunPort(wf, m, ports[j].0, ports[j].1);
      assert ports[..j + 1][..j] == ports[..j];
      CombinePorts(Summarize(old(wf.file)), PortSummaries(m, ports[..j]), [(m, ports[j].0, EscapeXml(ports[j].1))]);
    }
    assert ports[..|ports|] == ports;
  }

  /** One optional port spec of type `typ` on module `m`, holding the File
      signature of the basic package. */
  method AddRunPort(wf: Workflow, m: nat, typ: string, name: string)
    requires wf.ids.Valid()
    modifies wf, wf.ids
    ensures wf.ids.Valid() && wf.ids.ids[ModuleKind] == old(wf.ids.ids[ModuleKind]) && wf.modY == old(wf.modY)
    ensures old(wf.file) <= wf.file
    ensures Summarize(wf.file) == Combine(Summarize(old(wf.file)), Nothing.(ports := [(m, typ, EscapeXml(name))]))
  {
    ghost var f0 := wf.file;
    ghost var a, ps, psi := wf.ids.ids[AddKind], wf.ids.ids[PortSpecKind], wf.ids.ids[PortSpecItemKind];
    wf.AddPortSpec(m, name, typ, [FilePkgMod], true);
    SummarizePortSpec(f0, a, ps, m, EscapeXml(name), typ, psi, [FilePkgMod]);
  }


  /** Before the run loop: the Directory module, with its `directory`
      function holding the target. */
  method ExportDirectory(wf: Workflow, target: string, ghost runs: seq<RunConfig>, ghost io: InputsOutputs,
                         ghost esc: string -> string) returns (d: nat)
    requires wf.ids.Valid() && forall k: IdKind :: wf.ids.ids[k] == 0
    requires wf.file == [Header(SchemaVersion, GeneratorVersion)] && wf.modY == 0
    modifies wf, wf.ids
    ensures wf.ids.Valid() && wf.ids.ids[ModuleKind] == 1 && wf.modY == -100
    ensures d == 0
    ensures |wf.file| > 0 && wf.file[0] == Header(SchemaVersion, GeneratorVersion)
    ensures Summarize(wf.file) == ExportSummary(target, runs, io, esc, 0)
  {
    SummarizeOne(Header(SchemaVersion, GeneratorVersion));
    ExperimentSigSplit();
    d := AddExportModule(wf, ExperimentSig, "Directory", None);
    AddExportFunction(wf, d, "directory", DirectorySig, target);
    ExportStart(target, runs, io, esc);
  }

  /** The file shows the Directory module and the first n runs. */
  ghost predicate Exported(file: seq<Record>, target: string, runs: seq<RunConfig>, io: InputsOutputs,
                           esc: string -> string, n: nat)
    requires n <= |runs|
  {
    Summarize(file) == ExportSummary(target, runs, io, esc, n)
  }

  /** One iteration of the run loop: the Run module of run i, its port
      specs, and the connection from the previous module. */
  method ExportRun(wf: Workflow, connectFrom: nat, ghost target: string, runs: seq<RunConfig>,
                   io: InputsOutputs, esc: string -> string, i: nat) returns (r: nat)
    requires i < |runs| && connectFrom == i && |wf.file| > 0
    requires wf.ids.Valid() && wf.ids.ids[ModuleKind] == i + 1 && wf.modY == -100 * (i + 1)
    requires Exported(wf.file, target, runs, io, esc, i)
    modifies wf, wf.ids
    ensures wf.ids.Valid() && wf.ids.ids[ModuleKind] == i + 2 && wf.modY == -100 * (i + 2)
    ensures r == i + 1
    ensures |wf.file| > 0 && wf.file[0] == old(wf.file)[0]
    ensures Exported(wf.file, target, runs, io, esc, i + 1)
  {
    var ports := Ports(io, i);
    r := AddRunModule(wf, i, runs[i], esc);
    AddRunPorts(wf, r, ports);
    ExperimentSigSplit();
    AddExportConnection(wf, ExperimentSig, "experiment", connectFrom, r);
    ExportStep(target, runs, io, esc, i);
  }

  /** `do_vistrails`: the records of the vistrail file. The file starts with
      the header and ends with the footer, and what it shows is the export
      summary of all runs (see the Export* lemmas for what that holds). */
  method DoVistrails(target: string, runs: seq<RunConfig>, io: InputsOutputs, esc: string -> string)
    returns (records: seq<Record>)
    ensures |records| >= 2
    ensures records[0] == Header(SchemaVersion, GeneratorVersion)
    ensures records[|records| - 1] == Footer
    ensures Summarize(records) == ExportSummary(target, runs, io, esc, |runs|)
  {
    var ids := new IdScope();
    var wf := new Workflow(ids);
    var connectFrom := ExportDirectory(wf, target, runs, io, esc);
    var i := 0;
    while i < |runs|
      invariant i <= |runs|
      invariant wf.ids == ids && ids.Valid()
      invariant ids.ids[ModuleKind] == i + 1 && wf.modY == -100 * (i + 1)
      invariant connectFrom == i
      invariant |wf.file| > 0 && wf.file[0] == Header(SchemaVersion, GeneratorVersion)
      invariant Exported(wf.file, target, runs, io, esc, i)
    {
      connectFrom := ExportRun(wf, connectFrom, target, runs, io, esc, i);
      i := i + 1;
    }
    ghost var f := wf.file;
    wf.Close();
    SummarizeOne(Footer);
    SummarizeAppend(f, [Footer]);
    CombineNothing(Summarize(f));
    records := wf.file;
  }
}
