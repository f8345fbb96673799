/** The VisTrails workflow writer: the `IdScope` counters and the `Workflow`
    object that appends XML elements to the vistrail file. The file is a
    sequence of abstract records, one per `write` call, holding every value the
    XML text is formatted from. */
module VistrailsWorkflow {
  import opened Common
  import opened VistrailsText

  /** The ten object kinds that get ids. */
  datatype IdKind =
    | AddKind | ModuleKind | LocationKind | AnnotationKind | FunctionKind
    | ParameterKind | ConnectionKind | PortKind | PortSpecKind | PortSpecItemKind

  /** Ten independent post-increment counters. */
  class IdScope {
    var ids: map<IdKind, nat>

    ghost predicate Valid()
      reads this
    {
      forall k: IdKind :: k in ids
    }

    /** Every counter starts at 0. */
    constructor ()
      ensures Valid()
      ensures forall k: IdKind :: ids[k] == 0
    {
      ids := map[AddKind := 0, ModuleKind := 0, LocationKind := 0,
                 AnnotationKind := 0, FunctionKind := 0, ParameterKind := 0,
                 ConnectionKind := 0, PortKind := 0, PortSpecKind := 0,
                 PortSpecItemKind := 0];
      new;
      forall k: IdKind ensures k in ids && ids[k] == 0 {
        match k {
          case AddKind => case ModuleKind => case LocationKind => case AnnotationKind =>
          case FunctionKind => case ParameterKind => case ConnectionKind => case PortKind =>
          case PortSpecKind => case PortSpecItemKind =>
        }
      }
    }

    /** The getter of one kind: returns the counter's current value and
        increments that counter alone, so successive calls yield 0, 1, 2, ... */
    method Next(kind: IdKind) returns (i: nat)
      requires Valid()
      modifies this
      ensures Valid()
      ensures i == old(ids[kind])
      ensures ids == old(ids)[kind := i + 1]
    {
      i := ids[kind];
      ids := ids[kind := i + 1];
    }
  }

  /** One end of a connection: the `<port>` element. */
  datatype PortRef = PortRef(portId: nat, moduleId: nat, moduleName: string, name: string, signature: string)

  /** One `write` to the vistrail file. Escaped texts are stored escaped. */
  datatype Record =
    | Header(schemaVersion: string, generator: string)
    | Footer
    | ModuleAdd(addId: nat, modId: nat, name: string, pkg: string, version: string)
    | LocationAdd(addId: nat, locId: nat, modId: nat, y: int)
    | AnnotationAdd(addId: nat, annId: nat, modId: nat, text: string)
    | FunctionAdd(addId: nat, funcId: nat, modId: nat, name: string)
    | ParameterAdd(addId: nat, paramId: nat, funcId: nat, pos: nat, typ: string, val: string)
    | ConnectionAdd(connAddId: nat, sourceAddId: nat, destAddId: nat, connId: nat,
                    source: PortRef, dest: PortRef)
    | PortSpecOpen(addId: nat, psId: nat, modId: nat, name: string, typ: string, optional: bool)
    | PortSpecItem(psiId: nat, moduleName: string, pkg: string, pos: nat)
    | PortSpecClose

  /** `__version__` of the plugin, written into the header comment. */
  const GeneratorVersion := "1.0.5"
  /** The `version` attribute of the `<vistrail>` element. */
  const SchemaVersion := "1.0.4"

  /** The records of a successful `add_module`: the module, its location and,
      when a description is given, its escaped `__desc__` annotation. */
  function ModuleRecords(addId: nat, modId: nat, locId: nat, annId: nat, name: string,
                         pkg: string, version: string, y: int, desc: Option<string>): seq<Record>
  {
    [ModuleAdd(addId, modId, name, pkg, version), LocationAdd(addId + 1, locId, modId, y)]
    + (if desc.Some? then [AnnotationAdd(addId + 2, annId, modId, EscapeXml(desc.value))] else [])
  }

  /** The parameter records of `add_function`, built one parameter at a time. */
  function ParamRecords(addId: nat, paramId: nat, funcId: nat, params: seq<(string, string)>): seq<Record>
  {
    if |params| == 0 then []
    else
      var n := |params| - 1;
      ParamRecords(addId, paramId, funcId, params[..n])
      + [ParameterAdd(addId + n, paramId + n, funcId, n, params[n].0, EscapeXml(params[n].1))]
  }

  lemma ParamRecordsNext(addId: nat, paramId: nat, funcId: nat, params: seq<(string, string)>, i: nat)
    requires i < |params|
    ensures ParamRecords(addId, paramId, funcId, params[..i + 1])
         == ParamRecords(addId, paramId, funcId, params[..i])
            + [ParameterAdd(addId + i, paramId + i, funcId, i, params[i].0, EscapeXml(params[i].1))]
  {
    assert params[..i + 1][..i] == params[..i];
  }

  /** Parameter i sits at position i, carries the i-th `add` and `parameter`
      ids after the given ones, belongs to the function, and holds its
      signature and escaped value. */
  lemma {:induction false} ParamRecordsAt(addId: nat, paramId: nat, funcId: nat, params: seq<(string, string)>)
    ensures var rs := ParamRecords(addId, paramId, funcId, params);
      && |rs| == |params|
      && forall i :: 0 <= i < |params| ==>
           rs[i] == ParameterAdd(addId + i, paramId + i, funcId, i, params[i].0, EscapeXml(params[i].1))
  {
    if |params| > 0 {
      var n := |params| - 1;
      ParamRecordsAt(addId, paramId, funcId, params[..n]);
    }
  }

  /** The `<portSpecItem>` records of `add_port_spec`, one per (package,
      module) pair. */
  function ItemRecords(psiId: nat, sigs: seq<(string, string)>): seq<Record>
  {
    if |sigs| == 0 then []
    else
      var n := |sigs| - 1;
      ItemRecords(psiId, sigs[..n]) + [PortSpecItem(psiId + n, sigs[n].1, sigs[n].0, n)]
  }

  lemma ItemRecordsNext(psiId: nat, sigs: seq<(string, string)>, i: nat)
    requires i < |sigs|
    ensures ItemRecords(psiId, sigs[..i + 1])
         == ItemRecords(psiId, sigs[..i]) + [PortSpecItem(psiId + i, sigs[i].1, sigs[i].0, i)]
  {
    assert sigs[..i + 1][..i] == sigs[..i];
  }

  /** Item i names the i-th module and package, at position i, with the i-th
      item id after the given one. */
  lemma {:induction false} ItemRecordsAt(psiId: nat, sigs: seq<(string, string)>)
    ensures var rs := ItemRecords(psiId, sigs);
      && |rs| == |sigs|
      && forall i :: 0 <= i < |sigs| ==> rs[i] == PortSpecItem(psiId + i, sigs[i].1, sigs[i].0, i)
  {
    if |sigs| > 0 {
      ItemRecordsAt(psiId, sigs[..|sigs| - 1]);
    }
  }

  class Workflow {
    var file: seq<Record>
    const ids: IdScope
    var modY: int

    /** Writes the opening `<vistrail>` and `<action>` elements. */
    constructor (ids: IdScope)
      ensures this.ids == ids
      ensures file == [Header(SchemaVersion, GeneratorVersion)]
      ensures modY == 0
    {
      this.ids := ids;
      modY := 0;
      file := [Header(SchemaVersion, GeneratorVersion)];
    }

    /** Writes the closing elements. */
    method Close()
      modifies this
      ensures file == old(file) + [Footer]
      ensures modY == old(modY)
    {
      file := file + [Footer];
    }

    /** `add_module`: takes a module id, splits the signature (None where that
        raises, after the module id is spent and before anything is written),
        then writes the module's records. */
    method AddModule(sig: string, version: string, desc: Option<string>) returns (r: Option<nat>)
      requires ids.Valid()
      modifies this, ids
      ensures ids.Valid()
      ensures r.Some? <==> SplitSig(sig).Some?
      ensures r.None? ==>
        && file == old(file) && modY == old(modY)
        && ids.ids[ModuleKind] == old(ids.ids[ModuleKind]) + 1
        && (forall k :: k != ModuleKind ==> ids.ids[k] == old(ids.ids[k]))
      ensures r.Some? ==>
        var (name, pkg) := SplitSig(sig).value;
        var a := old(ids.ids[AddKind]);
        var extra := if desc.Some? then 1 else 0;
        && r.value == old(ids.ids[ModuleKind])
        && file == old(file) + ModuleRecords(a, r.value, old(ids.ids[LocationKind]),
                                             old(ids.ids[AnnotationKind]), name, pkg, version,
                                             old(modY), desc)
        && modY == old(modY) - 100
        && ids.ids[ModuleKind] == r.value + 1
        && ids.ids[AddKind] == a + 2 + extra
        && ids.ids[LocationKind] == old(ids.ids[LocationKind]) + 1
        && ids.ids[AnnotationKind] == old(ids.ids[AnnotationKind]) + extra
        && (forall k :: k !in {ModuleKind, AddKind, LocationKind, AnnotationKind} ==>
              ids.ids[k] == old(ids.ids[k]))
    {
      var modId := ids.Next(ModuleKind);
      var split := SplitSig(sig);
      if split.None? {
        return None;
      }
      WriteModule(modId, split.value.0, split.value.1, version, desc);
      r := Some(modId);
    }

    /** The writes of `add_module` once the module id is taken and the
        signature split: module, location at the current y, annotation; y
        then moves down by 100. */
    method WriteModule(modId: nat, name: string, pkg: string, version: string, desc: Option<string>)
      requires ids.Valid()
      modifies this, ids
      ensures ids.Valid()
      ensures
        var a := old(ids.ids[AddKind]);
        var extra := if desc.Some? then 1 else 0;
        && file == old(file) + ModuleRecords(a, modId, old(ids.ids[LocationKind]),
                                             old(ids.ids[AnnotationKind]), name, pkg, version,
                                             old(modY), desc)
        && modY == old(modY) - 100
        && ids.ids[AddKind] == a + 2 + extra
        && ids.ids[LocationKind] == old(ids.ids[LocationKind]) + 1
        && ids.ids[AnnotationKind] == old(ids.ids[AnnotationKind]) + extra
        && (forall k :: k !in {AddKind, LocationKind, AnnotationKind} ==>
              ids.ids[k] == old(ids.ids[k]))
    {
      var addId := ids.Next(AddKind);
      file := file + [ModuleAdd(addId, modId, name, pkg, version)];
      var addId2 := ids.Next(AddKind);
      var locId := ids.Next(LocationKind);
      file := file + [LocationAdd(addId2, locId, modId, modY)];
      if desc.Some? {
        var addId3 := ids.Next(AddKind);
        var annId := ids.Next(AnnotationKind);
        file := file + [AnnotationAdd(addId3, annId, modId, EscapeXml(desc.value))];
      }
      modY := modY - 100;
    }

    /** `add_function`: the function element, then one parameter per
        (signature, value) pair, in order. */
    method AddFunction(modId: nat, name: string, params: seq<(string, string)>)
      requires ids.Valid()
      modifies this, ids
      ensures ids.Valid()
      ensures
        var a := old(ids.ids[AddKind]);
        var f := old(ids.ids[FunctionKind]);
        var p := old(ids.ids[ParameterKind]);
        && file == old(file) + [FunctionAdd(a, f, modId, name)] + ParamRecords(a + 1, p, f, params)
        && ids.ids[FunctionKind] == f + 1
        && ids.ids[AddKind] == a + 1 + |params|
        && ids.ids[ParameterKind] == p + |params|
        && (forall k :: k !in {FunctionKind, AddKind, ParameterKind} ==> ids.ids[k] == old(ids.ids[k]))
      ensures modY == old(modY)
    {
      var funcId := ids.Next(FunctionKind);
      var addId := ids.Next(AddKind);
      file := file + [FunctionAdd(addId, funcId, modId, name)];
      WriteParameters(funcId, params);
    }

    /** The parameter loop of `add_function`. */
    method WriteParameters(funcId: nat, params: seq<(string, string)>)
      requires ids.Valid()
      modifies this, ids
      ensures ids.Valid()
      ensures file == old(file) + ParamRecords(old(ids.ids[AddKind]), old(ids.ids[ParameterKind]), funcId, params)
      ensures ids.ids[AddKind] == old(ids.ids[AddKind]) + |params|
      ensures ids.ids[ParameterKind] == old(ids.ids[ParameterKind]) + |params|
      ensures forall k :: k != AddKind && k != ParameterKind ==> ids.ids[k] == old(ids.ids[k])
      ensures modY == old(modY)
    {
      for i := 0 to |params|
        invariant ids.Valid()
        invariant file == old(file) + ParamRecords(old(ids.ids[AddKind]), old(ids.ids[ParameterKind]), funcId, params[..i])
        invariant ids.ids[AddKind] == old(ids.ids[AddKind]) + i
        invariant ids.ids[ParameterKind] == old(ids.ids[ParameterKind]) + i
        invariant forall k :: k != AddKind && k != ParameterKind ==> ids.ids[k] == old(ids.ids[k])
        invariant modY == old(modY)
      {
        var (sig, val) := params[i];
        var addId := ids.Next(AddKind);
        var paramId := ids.Next(ParameterKind);
        file := file + [ParameterAdd(addId, paramId, funcId, i, sig, EscapeXml(val))];
        ParamRecordsNext(old(ids.ids[AddKind]), old(ids.ids[ParameterKind]), funcId, params, i);
      }
      assert params[..|params|] == params;
    }

    /** `connect`: one connection with its source and destination ports. The
        three `add` ids, the connection id and the source port id are taken
        before the source signature is split; the destination port id before
        the destination signature is split. A signature without ':' makes the
        call fail with nothing written. */
    method Connect(fromId: nat, fromSig: string, fromPort: string,
                   toId: nat, toSig: string, toPort: string) returns (ok: bool)
      requires ids.Valid()
      modifies this, ids
      ensures ids.Valid()
      ensures ok <==> SplitSig(fromSig).Some? && SplitSig(toSig).Some?
      ensures
        var a := old(ids.ids[AddKind]);
        var c := old(ids.ids[ConnectionKind]);
        var p := old(ids.ids[PortKind]);
        && ids.ids[AddKind] == a + 3
        && ids.ids[ConnectionKind] == c + 1
        && ids.ids[PortKind] == p + (if SplitSig(fromSig).Some? then 2 else 1)
        && (forall k :: k !in {AddKind, ConnectionKind, PortKind} ==> ids.ids[k] == old(ids.ids[k]))
        && (ok ==> file == old(file) + [ConnectionAdd(a, a + 1, a + 2, c,
                     PortRef(p, fromId, SplitSig(fromSig).value.0, fromPort, fromSig),
                     PortRef(p + 1, toId, SplitSig(toSig).value.0, toPort, toSig))])
        && (!ok ==> file == old(file))
      ensures modY == old(modY)
    {
      var add1 := ids.Next(AddKind);
      var add2 := ids.Next(AddKind);
      var add3 := ids.Next(AddKind);
      var connId := ids.Next(ConnectionKind);
      var port1 := ids.Next(PortKind);
      var fromSplit := SplitSig(fromSig);
      if fromSplit.None? {
        return false;
      }
      var port2 := ids.Next(PortKind);
      var toSplit := SplitSig(toSig);
      if toSplit.None? {
        return false;
      }
      file := file + [ConnectionAdd(add1, add2, add3, connId,
                        PortRef(port1, fromId, fromSplit.value.0, fromPort, fromSig),
                        PortRef(port2, toId, toSplit.value.0, toPort, toSig))];
      ok := true;
    }

    /** `add_port_spec`: the port spec with its escaped name, one item per
        (package, module) pair, then the closing element. */
    method AddPortSpec(modId: nat, name: string, typ: string, sigs: seq<(string, string)>, optional: bool)
      requires ids.Valid()
      modifies this, ids
      ensures ids.Valid()
      ensures
        var a := old(ids.ids[AddKind]);
        var ps := old(ids.ids[PortSpecKind]);
        var psi := old(ids.ids[PortSpecItemKind]);
        && file == old(file) + [PortSpecOpen(a, ps, modId, EscapeXml(name), typ, optional)]
                             + ItemRecords(psi, sigs) + [PortSpecClose]
        && ids.ids[AddKind] == a + 1
        && ids.ids[PortSpecKind] == ps + 1
        && ids.ids[PortSpecItemKind] == psi + |sigs|
        && (forall k :: k !in {AddKind, PortSpecKind, PortSpecItemKind} ==> ids.ids[k] == old(ids.ids[k]))
      ensures modY == old(modY)
    {
      ghost var psi0: nat := ids.ids[PortSpecItemKind];
      var addId := ids.Next(AddKind);
      var psId := ids.Next(PortSpecKind);
      file := file + [PortSpecOpen(addId, psId, modId, EscapeXml(name), typ, optional)];
      ghost var file0: seq<Record>, ids0: map<IdKind, nat> := file, ids.ids;
      for i := 0 to |sigs|
        invariant ids.Valid()
        invariant file == file0 + ItemRecords(psi0, sigs[..i])
        invariant ids.ids[PortSpecItemKind] == psi0 + i
        invariant forall k :: k != PortSpecItemKind ==> ids.ids[k] == ids0[k]
        invariant modY == old(modY)
      {
        var (pkg, mod) := sigs[i];
        var psiId := ids.Next(PortSpecItemKind);
        file := file + [PortSpecItem(psiId, mod, pkg, i)];
        ItemRecordsNext(psi0, sigs, i);
      }
      assert sigs[..|sigs|] == sigs;
      file := file + [PortSpecClose];
    }
  }
}
