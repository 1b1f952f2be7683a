/** The Vivado backend: the file-type dispatcher that turns each fileset
    entry into a Tcl directive, the configure step that collects those
    directives for the project script, and the programming run. */
module Vivado {
  import opened Eda

  /** The dispatch key of a type tag: the text before its first `-`
      (`vhdlSource-2008` has key `vhdlSource`), or the whole tag when it has
      none. */
  function TypeKey(fileType: string): (key: string)
    ensures key <= fileType && '-' !in key
    ensures |key| < |fileType| ==> fileType[|key|] == '-'
    decreases |fileType|
  {
    if fileType == [] || fileType[0] == '-' then []
    else [fileType[0]] + TypeKey(fileType[1..])
  }

  /** The two conditions of `TypeKey`'s contract pin its result down. */
  lemma {:induction false} TypeKeyUnique(fileType: string, key: string)
    requires key <= fileType && '-' !in key
    requires |key| < |fileType| ==> fileType[|key|] == '-'
    ensures key == TypeKey(fileType)
    decreases |fileType|
  {
    if fileType != [] && fileType[0] != '-' {
      assert key != [] && key[0] == fileType[0];
      TypeKeyUnique(fileType[1..], key[1..]);
    }
  }

  lemma RevisionSuffixIsDropped()
    ensures TypeKey("vhdlSource-2008") == "vhdlSource"
  {
    var t, k := "vhdlSource-2008", "vhdlSource";
    assert |k| == 10 && t[..10] == k && t[10] == '-';
    assert forall i :: 0 <= i < |k| ==> k[i] != '-';
    TypeKeyUnique(t, k);
  }

  /** The command for a VHDL file: `read_vhdl`, then `-vhdl2008` for a
      file tagged exactly `vhdlSource-2008`, then `-library <name>` when the
      file names a library. */
  function VhdlCommand(f: SourceFile): string
  {
    var s := "read_vhdl";
    var s := if f.fileType == "vhdlSource-2008" then s + " -vhdl2008" else s;
    if f.logicalName != "" then s + " -library " + f.logicalName else s
  }

  /** The VHDL command starts with `read_vhdl`, goes on with ` -vhdl2008`
      exactly for the 2008 revision, and ends in ` -library <name>` exactly
      when the file names a library. */
  lemma VhdlCommandShape(f: SourceFile)
    ensures var c := VhdlCommand(f);
      && |c| >= 9 && c[..9] == "read_vhdl"
      && ((|c| >= 19 && c[9..19] == " -vhdl2008") <==> f.fileType == "vhdlSource-2008")
      && (f.logicalName != "" <==>
            (|c| > 10 + |f.logicalName| && c[|c| - |f.logicalName| - 10..] == " -library " + f.logicalName))
  {
    var base, rev, lib := "read_vhdl", " -vhdl2008", " -library ";
    var s := if f.fileType == "vhdlSource-2008" then base + rev else base;
    assert s[..9] == base;
    assert |s| == 9 || (|s| == 19 && s[9..] == rev);
    if f.logicalName != "" {
      var c := s + lib + f.logicalName;
      assert c == VhdlCommand(f);
      assert c[..|s|] == s && c[|s|..|s| + 10] == lib;
      assert c[|c| - |f.logicalName| - 10..] == lib + f.logicalName;
      assert |s| == 9 ==> c[11] == 'l' != rev[2];
    } else {
      assert s == VhdlCommand(f);
      assert |s| == 19 ==> s[9..][2] == 'v' != lib[2];
    }
  }

  /** The dispatch table for `f` under synthesis flow `synth`: three keys
      under every flow, three more (the HDL sources) under the Vivado flow. */
  function FileTypes(f: SourceFile, synth: string): (m: map<string, string>)
    ensures forall key :: key in m <==> Recognised(synth, key)
    ensures forall key :: key in m ==> m[key] != ""
  {
    var common := map["xci" := "read_ip", "xdc" := "read_xdc", "tclSource" := "source"];
    if synth == "vivado" then
      common + map["verilogSource" := "read_verilog",
                   "systemVerilogSource" := "read_verilog -sv",
                   "vhdlSource" := VhdlCommand(f)]
    else common
  }

  /** The keys skipped without a warning under flow `synth`. */
  function IgnoreTypes(synth: string): (ig: seq<string>)
    ensures forall key :: key in ig <==> Ignored(synth, key)
    ensures forall key :: key in ig ==> !Recognised(synth, key)
  {
    if synth == "vivado" then ["user"] else ["user", "verilogSource", "systemVerilogSource"]
  }

  /** The keys that yield a directive, stated on its own. */
  predicate Recognised(synth: string, key: string)
  {
    key == "xci" || key == "xdc" || key == "tclSource" ||
    (synth == "vivado" && (key == "verilogSource" || key == "systemVerilogSource" || key == "vhdlSource"))
  }

  /** The keys dropped on purpose, stated on its own: `user` under every
      flow, the Verilog sources when another tool does the synthesis. */
  predicate Ignored(synth: string, key: string)
  {
    key == "user" || (synth != "vivado" && (key == "verilogSource" || key == "systemVerilogSource"))
  }

  /** What dispatching one file gives: the directive (`""` for none) and
      the warning it logs, if any. */
  datatype Filtered = Filtered(directive: string, warning: Option<string>)

  function UnknownTypeWarning(f: SourceFile): string
  {
    f.name + " has unknown file type '" + f.fileType + "'"
  }

  /** The directive for one file under flow `synth`. A recognised key gives
      a non-empty directive that ends in the file's name; an ignored key
      gives nothing quietly; any other key gives nothing and one warning
      naming the file and its full type tag. */
  function SrcFileFilter(f: SourceFile, synth: string): (r: Filtered)
    ensures r.directive != "" <==> Recognised(synth, TypeKey(f.fileType))
    ensures r.directive != "" ==>
      |f.name| < |r.directive| && r.directive[|r.directive| - |f.name| - 1..] == " " + f.name
    ensures r.warning.Some? <==>
      !Recognised(synth, TypeKey(f.fileType)) && !Ignored(synth, TypeKey(f.fileType))
    ensures r.warning.Some? ==> r.warning.value == UnknownTypeWarning(f)
  {
    var table := FileTypes(f, synth);
    var key := TypeKey(f.fileType);
    if key in table then
      var d := table[key] + " " + f.name;
      assert d[|d| - |f.name| - 1..] == " " + f.name;
      Filtered(d, None)
    else if key in IgnoreTypes(synth) then Filtered("", None)
    else Filtered("", Some(UnknownTypeWarning(f)))
  }

  /** The directive text for the keys read under every flow. */
  lemma DispatchTableEveryFlow(f: SourceFile, synth: string)
    ensures TypeKey(f.fileType) == "xci" ==> SrcFileFilter(f, synth).directive == "read_ip " + f.name
    ensures TypeKey(f.fileType) == "xdc" ==> SrcFileFilter(f, synth).directive == "read_xdc " + f.name
    ensures TypeKey(f.fileType) == "tclSource" ==> SrcFileFilter(f, synth).directive == "source " + f.name
  {
    var key, table := TypeKey(f.fileType), FileTypes(f, synth);
    if key == "xci" {
      assert table[key] == "read_ip";
    } else if key == "xdc" {
      assert table[key] == "read_xdc";
    } else if key == "tclSource" {
      assert table[key] == "source";
    }
  }

  /** The directive text for the HDL sources under the Vivado flow; a VHDL
      file gets `-vhdl2008` exactly when tagged `vhdlSource-2008` and
      `-library` exactly when it names a library. */
  lemma DispatchTableVivadoFlow(f: SourceFile)
    ensures TypeKey(f.fileType) == "verilogSource" ==>
      SrcFileFilter(f, "vivado").directive == "read_verilog " + f.name
    ensures TypeKey(f.fileType) == "systemVerilogSource" ==>
      SrcFileFilter(f, "vivado").directive == "read_verilog -sv " + f.name
    ensures TypeKey(f.fileType) == "vhdlSource" ==>
      SrcFileFilter(f, "vivado").directive ==
        "read_vhdl"
        + (if f.fileType == "vhdlSource-2008" then " -vhdl2008" else "")
        + (if f.logicalName != "" then " -library " + f.logicalName else "")
        + " " + f.name
  {
    var key, table := TypeKey(f.fileType), FileTypes(f, "vivado");
    if key == "verilogSource" {
      assert table[key] == "read_verilog";
    } else if key == "systemVerilogSource" {
      assert table[key] == "read_verilog -sv";
    } else if key == "vhdlSource" {
      assert table[key] == VhdlCommand(f);
    }
  }

  /** Under any flow but Vivado's, raw Verilog is skipped quietly while a
      VHDL file is an unknown type. */
  lemma OtherFlowSkipsHdl(f: SourceFile, synth: string)
    requires synth != "vivado"
    ensures var key := TypeKey(f.fileType);
      (key == "verilogSource" || key == "systemVerilogSource" || key == "user") ==>
        SrcFileFilter(f, synth) == Filtered("", None)
    ensures TypeKey(f.fileType) == "vhdlSource" ==>
      SrcFileFilter(f, synth) == Filtered("", Some(UnknownTypeWarning(f)))
  {
  }

  /** The filter's answer as the configure loop reads it: kept when truthy. */
  function DirectiveFn(synth: string): SourceFile -> Option<string>
  {
    f => var d := SrcFileFilter(f, synth).directive; if d != "" then Some(d) else None
  }

  function WarningFn(synth: string): SourceFile -> Option<string>
  {
    f => SrcFileFilter(f, synth).warning
  }

  /** The directives of a fileset, in fileset order, empty ones dropped. */
  function Directives(files: seq<SourceFile>, synth: string): seq<string>
  {
    Collect(files, DirectiveFn(synth))
  }

  /** The warnings logged while dispatching a fileset, in fileset order. */
  function Warnings(files: seq<SourceFile>, synth: string): seq<string>
  {
    Collect(files, WarningFn(synth))
  }

  lemma FilesetSnoc(files: seq<SourceFile>, f: SourceFile, synth: string)
    ensures var r := SrcFileFilter(f, synth);
      && Directives(files + [f], synth) == Directives(files, synth) + (if r.directive != "" then [r.directive] else [])
      && Warnings(files + [f], synth) == Warnings(files, synth) + (if r.warning.Some? then [r.warning.value] else [])
  {
    assert (files + [f])[..|files|] == files;
  }

  /** The directives correspond one to one, in order, to the files with a
      recognised key: directive `k` is that of the file at index `pos[k]`,
      the indices `pos` increase, and they are exactly the recognised files. */
  lemma DirectivesInFilesetOrder(files: seq<SourceFile>, synth: string)
    ensures var d, pos := Directives(files, synth), Positions(files, DirectiveFn(synth));
      && |d| == |pos|
      && (forall k :: 0 <= k < |pos| ==> pos[k] < |files| && d[k] == SrcFileFilter(files[pos[k]], synth).directive)
      && (forall k, l :: 0 <= k < l < |pos| ==> pos[k] < pos[l])
      && (forall i :: 0 <= i < |files| ==> (i in pos <==> Recognised(synth, TypeKey(files[i].fileType))))
  {
    var pos := Positions(files, DirectiveFn(synth));
    PositionsIncrease(files, DirectiveFn(synth));
    PositionsComplete(files, DirectiveFn(synth));
    CollectAtPositions(files, DirectiveFn(synth));
    forall i | 0 <= i < |files| && i in pos
      ensures Recognised(synth, TypeKey(files[i].fileType))
    {
      var k :| 0 <= k < |pos| && pos[k] == i;
    }
  }

  /** One warning per file whose key is neither recognised nor ignored, in
      fileset order, each naming that file and its type tag. */
  lemma WarningsInFilesetOrder(files: seq<SourceFile>, synth: string)
    ensures var w, pos := Warnings(files, synth), Positions(files, WarningFn(synth));
      && |w| == |pos|
      && (forall k :: 0 <= k < |pos| ==> pos[k] < |files| && w[k] == UnknownTypeWarning(files[pos[k]]))
      && (forall k, l :: 0 <= k < l < |pos| ==> pos[k] < pos[l])
      && (forall i :: 0 <= i < |files| ==>
            (i in pos <==> !Recognised(synth, TypeKey(files[i].fileType)) && !Ignored(synth, TypeKey(files[i].fileType))))
  {
    var pos := Positions(files, WarningFn(synth));
    PositionsIncrease(files, WarningFn(synth));
    PositionsComplete(files, WarningFn(synth));
    CollectAtPositions(files, WarningFn(synth));
    forall i | 0 <= i < |files| && i in pos
      ensures !Recognised(synth, TypeKey(files[i].fileType)) && !Ignored(synth, TypeKey(files[i].fileType))
    {
      var k :| 0 <= k < |pos| && pos[k] == i;
    }
  }

  /** A file of unknown type does not stop the configure step: alone in
      its fileset it gives no directive and exactly one warning. */
  lemma UnknownTypeIsSoft(f: SourceFile, synth: string)
    requires !Recognised(synth, TypeKey(f.fileType)) && !Ignored(synth, TypeKey(f.fileType))
    ensures Directives([f], synth) == []
    ensures Warnings([f], synth) == [UnknownTypeWarning(f)]
  {
    assert [f][..0] == [];
    assert DirectiveFn(synth)(f) == None;
    assert WarningFn(synth)(f) == Some(UnknownTypeWarning(f));
    assert Collect([f], DirectiveFn(synth)) == Collect([], DirectiveFn(synth)) + [];
    assert Collect([f], WarningFn(synth)) == Collect([], WarningFn(synth)) + [UnknownTypeWarning(f)];
  }

  /** `unknown_type` is such a type under every flow. */
  lemma UnknownTypeExample(synth: string)
    ensures TypeKey("unknown_type") == "unknown_type"
    ensures !Recognised(synth, "unknown_type") && !Ignored(synth, "unknown_type")
  {
    var u := "unknown_type";
    assert !Recognised(synth, u) && !Ignored(synth, u) by {
      assert u[0] == 'u' && u[1] == 'n' && |u| == 12;
    }
    TypeKeyUnique(u, u);
  }

  /** The synthesis flow: the `synth` option, `vivado` when unset. */
  function Flow(synth: Option<string>): (flow: string)
    ensures synth.Some? ==> flow == synth.value
    ensures Recognised(flow, "vhdlSource") <==> synth.None? || synth.value == "vivado"
  {
    if synth.Some? then synth.value else "vivado"
  }

  /** The variables handed to the project-script template. */
  datatype ProjectVars = ProjectVars(
    name: string,
    srcFiles: seq<string>,
    toplevel: string,
    hasVhdl2008: bool,
    hasXci: bool)

  /** The outcome of the configure phase: the project variables, the extra
      dependency the Makefile gives the project target, and the warnings
      logged on the way. */
  datatype Configured = Configured(project: ProjectVars, makefileEdif: string, warnings: seq<string>)

  /** The directive loop of the configure phase: each file's directive is
      appended when it is non-empty, and each warning is logged in turn. */
  method CollectDirectives(srcFiles: seq<SourceFile>, synth: string)
    returns (vivadoFiles: seq<string>, warnings: seq<string>)
    ensures vivadoFiles == Directives(srcFiles, synth)
    ensures warnings == Warnings(srcFiles, synth)
  {
    vivadoFiles, warnings := [], [];
    for i := 0 to |srcFiles|
      invariant vivadoFiles == Directives(srcFiles[..i], synth)
      invariant warnings == Warnings(srcFiles[..i], synth)
    {
      var f := SrcFileFilter(srcFiles[i], synth);
      if f.directive != "" {
        vivadoFiles := vivadoFiles + [f.directive];
      }
      if f.warning.Some? {
        warnings := warnings + [f.warning.value];
      }
      assert srcFiles[..i + 1] == srcFiles[..i] + [srcFiles[i]];
      FilesetSnoc(srcFiles[..i], srcFiles[i], synth);
    }
    assert srcFiles[..|srcFiles|] == srcFiles;
  }

  /** The configure phase. The file directives come first, in fileset order;
      under the yosys flow the netlist is read after them and the design is
      switched to gate level. */
  method Configure(name: string, toplevel: string, synthOption: Option<string>, srcFiles: seq<SourceFile>)
    returns (r: Configured)
    ensures r.project.name == name && r.project.toplevel == toplevel
    ensures Flow(synthOption) != "yosys" ==>
      r.project.srcFiles == Directives(srcFiles, Flow(synthOption)) && r.makefileEdif == ""
    ensures Flow(synthOption) == "yosys" ==>
      && r.project.srcFiles == Directives(srcFiles, "yosys") +
           ["read_edif " + toplevel + ".edif", "set_property design_mode GateLvl [current_fileset]"]
      && r.makefileEdif == " $(NAME).edif"
    ensures r.project.hasVhdl2008 <==> exists i :: 0 <= i < |srcFiles| && srcFiles[i].fileType == "vhdlSource-2008"
    ensures r.project.hasXci <==> exists i :: 0 <= i < |srcFiles| && srcFiles[i].fileType == "xci"
    ensures r.warnings == Warnings(srcFiles, Flow(synthOption))
  {
    var synth := Flow(synthOption);
    var vivadoFiles, warnings := CollectDirectives(srcFiles, synth);

    var edif := "";
    if synth == "yosys" {
      edif := " $(NAME).edif";
      vivadoFiles := vivadoFiles + ["read_edif " + toplevel + ".edif"];
      vivadoFiles := vivadoFiles + ["set_property design_mode GateLvl [current_fileset]"];
    }

    var hasVhdl2008 := exists i :: 0 <= i < |srcFiles| && srcFiles[i].fileType == "vhdlSource-2008";
    var hasXci := exists i :: 0 <= i < |srcFiles| && srcFiles[i].fileType == "xci";
    r := Configured(ProjectVars(name, vivadoFiles, toplevel, hasVhdl2008, hasXci), edif, warnings);
  }

  /** Programming the FPGA: Vivado in batch mode on the programming script
      `<name>_pgm.tcl`. Writing that script looks up the `hw_device` option,
      which the option schema does not declare; when it is unset the lookup
      fails with a missing-key error before Vivado is started. */
  function ProgramInvocation(name: string, hwDevice: Option<string>): (r: Result<Invocation>)
    ensures r.Err? <==> hwDevice.None?
    ensures r.Err? ==> r.message == "'hw_device'"
    ensures r.Ok? ==> r.value.cmd == "vivado" && r.value.args == ["-mode", "batch", "-source", name + "_pgm.tcl"]
  {
    if hwDevice.None? then Err("'hw_device'")
    else Ok(Invocation("vivado", ["-mode", "batch", "-source", name + "_pgm.tcl"]))
  }
}
