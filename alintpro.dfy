/** The ALINT-PRO backend: the configure step that registers the source
    directory and each waiver file's directory with the template loader and
    moves the waiver files out of the compiled fileset, and the selection of
    the GUI or the console executable for the run phase. */
module AlintPro {
  import opened Eda

  /** The type tag of a rule-waiver file. */
  const WaiverType: string := "waiver"

  /** The directory the ALINT-PRO executables are installed in. */
  const InstallDir: string := "C:/Aldec/ALINT-PRO-2018.07-SU1/bin/"

  predicate IsWaiver(f: SourceFile)
  {
    f.fileType == WaiverType
  }

  /** The waiver files of a fileset, in fileset order. */
  function Waivers(files: seq<SourceFile>): (w: seq<SourceFile>)
    ensures |w| <= |files|
    ensures forall k :: 0 <= k < |w| ==> IsWaiver(w[k])
    decreases |files|
  {
    if files == [] then []
    else (if IsWaiver(files[0]) then [files[0]] else []) + Waivers(files[1..])
  }

  /** The other files of a fileset, in fileset order. */
  function NonWaivers(files: seq<SourceFile>): (s: seq<SourceFile>)
    ensures |s| <= |files|
    ensures forall k :: 0 <= k < |s| ==> !IsWaiver(s[k])
    decreases |files|
  {
    if files == [] then []
    else (if IsWaiver(files[0]) then [] else [files[0]]) + NonWaivers(files[1..])
  }

  /** Every file is either a waiver or kept, so no file is lost or made up. */
  lemma {:induction false} WaiversSplitFileset(files: seq<SourceFile>)
    ensures multiset(Waivers(files)) + multiset(NonWaivers(files)) == multiset(files)
    decreases |files|
  {
    if files != [] {
      WaiversSplitFileset(files[1..]);
      assert files == [files[0]] + files[1..];
    }
  }

  /** Python's `list.remove(x)`: drops the first element equal to `x`. */
  function RemoveFirst(s: seq<SourceFile>, x: SourceFile): seq<SourceFile>
    decreases |s|
  {
    if s == [] then []
    else if s[0] == x then s[1..]
    else [s[0]] + RemoveFirst(s[1..], x)
  }

  /** `RemoveFirst` takes out exactly one copy of `x` when there is one, and
      changes nothing otherwise. */
  lemma {:induction false} RemoveOneCopy(s: seq<SourceFile>, x: SourceFile)
    ensures x !in s ==> RemoveFirst(s, x) == s
    ensures x in s ==>
      |RemoveFirst(s, x)| == |s| - 1 && multiset(RemoveFirst(s, x)) == multiset(s) - multiset{x}
    decreases |s|
  {
    if s != [] {
      assert s == [s[0]] + s[1..];
      if s[0] != x {
        RemoveOneCopy(s[1..], x);
      }
    }
  }

  /** The fileset with its first `n` waiver files taken out. */
  function DropWaivers(files: seq<SourceFile>, n: nat): seq<SourceFile>
    decreases |files|
  {
    if files == [] then []
    else if IsWaiver(files[0]) && n > 0 then DropWaivers(files[1..], n - 1)
    else [files[0]] + DropWaivers(files[1..], n)
  }

  lemma {:induction false} DropNoWaivers(files: seq<SourceFile>)
    ensures DropWaivers(files, 0) == files
    decreases |files|
  {
    if files != [] {
      DropNoWaivers(files[1..]);
    }
  }

  /** Removing the next waiver, as the configure loop does, takes out the
      first waiver still in the list and nothing else. */
  lemma {:induction false} RemoveNextWaiver(files: seq<SourceFile>, n: nat)
    requires n < |Waivers(files)|
    ensures RemoveFirst(DropWaivers(files, n), Waivers(files)[n]) == DropWaivers(files, n + 1)
    decreases |files|
  {
    var rest := files[1..];
    if IsWaiver(files[0]) {
      if n > 0 {
        RemoveNextWaiver(rest, n - 1);
      } else {
        DropNoWaivers(rest);
      }
    } else {
      RemoveNextWaiver(rest, n);
      assert Waivers(files)[n] == Waivers(rest)[n];
      assert Waivers(files)[n] != files[0];
    }
  }

  /** The next waiver to remove is still in the list, so `list.remove`
      never fails with a missing entry. */
  lemma {:induction false} WaiverStillPresent(files: seq<SourceFile>, n: nat)
    requires n < |Waivers(files)|
    ensures Waivers(files)[n] in DropWaivers(files, n)
    decreases |files|
  {
    var rest := files[1..];
    if IsWaiver(files[0]) {
      if n > 0 {
        WaiverStillPresent(rest, n - 1);
      }
    } else {
      WaiverStillPresent(rest, n);
      assert Waivers(files)[n] == Waivers(rest)[n];
    }
  }

  lemma {:induction false} DropAllWaivers(files: seq<SourceFile>)
    ensures DropWaivers(files, |Waivers(files)|) == NonWaivers(files)
    decreases |files|
  {
    if files != [] {
      DropAllWaivers(files[1..]);
    }
  }

  /** A waiver file as handed to the template: named by its bare name,
      relative to the directory registered for it. */
  function RenamedWaiver(f: SourceFile, workRoot: PosixPath, resolve: Resolver): SourceFile
  {
    f.(name := resolve(workRoot, f.name).basename)
  }

  /** The roots the waivers add to the loader chain, one per waiver, in
      order. */
  function WaiverRoots(waivers: seq<SourceFile>, workRoot: PosixPath, resolve: Resolver): (r: seq<string>)
    ensures |r| == |waivers|
    ensures forall k :: 0 <= k < |waivers| ==> r[k] == resolve(workRoot, waivers[k].name).parent
  {
    seq(|waivers|, k requires 0 <= k < |waivers| => resolve(workRoot, waivers[k].name).parent)
  }

  /** The waivers as handed to the template, in order. */
  function RenamedWaivers(waivers: seq<SourceFile>, workRoot: PosixPath, resolve: Resolver): (r: seq<SourceFile>)
    ensures |r| == |waivers|
    ensures forall k :: 0 <= k < |waivers| ==> r[k] == RenamedWaiver(waivers[k], workRoot, resolve)
  {
    seq(|waivers|, k requires 0 <= k < |waivers| => RenamedWaiver(waivers[k], workRoot, resolve))
  }

  /** One more waiver renamed and its root registered. */
  lemma RenameStep(waivers: seq<SourceFile>, k: nat, workRoot: PosixPath, resolve: Resolver)
    requires k < |waivers|
    ensures (RenamedWaivers(waivers[..k], workRoot, resolve) + waivers[k..])[k := RenamedWaiver(waivers[k], workRoot, resolve)]
            == RenamedWaivers(waivers[..k + 1], workRoot, resolve) + waivers[k + 1..]
  {
  }

  lemma WaiverRootsExtend(waivers: seq<SourceFile>, k: nat, workRoot: PosixPath, resolve: Resolver)
    requires k < |waivers|
    ensures WaiverRoots(waivers[..k + 1], workRoot, resolve) ==
            WaiverRoots(waivers[..k], workRoot, resolve) + [resolve(workRoot, waivers[k].name).parent]
  {
  }

  /** `str(Path(work_root).parent / 'src')`: the design's source directory
      beside the work root. */
  function SrcRoot(workRoot: PosixPath): (s: string)
    ensures var parent := workRoot.Parent();
      && (parent.parts == [] && !parent.absolute ==> s == "src")
      && (parent.parts == [] && parent.absolute ==> s == "/src")
      && (parent.parts != [] ==> s == parent.ToString() + "/src")
  {
    var parent := workRoot.Parent();
    ChildToString(parent, "src");
    assert "/" + "src" == "/src";
    assert parent.parts != [] ==> parent.ToString() + "/" + "src" == parent.ToString() + "/src";
    parent.Child("src").ToString()
  }

  /** With work root `/a/b` the source directory is `/a/src`. */
  lemma SrcRootBesideWorkRoot(a: string, b: string)
    ensures SrcRoot(PosixPath(true, [a, b])) == "/" + a + "/src"
  {
    var parent := PosixPath(true, [a]);
    assert PosixPath(true, [a, b]).Parent() == parent by {
      assert [a, b][..1] == [a];
    }
    assert parent.ToString() == "/" + a;
  }

  /** The template's `name`: the backend's name with every `.` made `_`. */
  function SanitisedName(name: string): (r: string)
    ensures |r| == |name|
    ensures '.' !in r
    ensures forall i :: 0 <= i < |name| && name[i] == '.' ==> r[i] == '_'
    ensures forall i :: 0 <= i < |name| && name[i] != '.' ==> r[i] == name[i]
  {
    ReplaceChar(name, '.', '_')
  }

  /** The variables handed to the `alintpro.do` template. */
  datatype DoFileVars = DoFileVars(
    name: string,
    toplevel: string,
    srcFiles: seq<SourceFile>,
    waiverFiles: seq<SourceFile>)

  class AlintPro {
    const name: string
    const toplevel: string
    const workRoot: PosixPath
    /** The `gui` flag; unset reads as false. */
    const gui: bool
    /** The template loader's chain of lookup roots, searched in order. */
    var loaderRoots: seq<string>

    constructor (name: string, toplevel: string, workRoot: PosixPath, gui: bool, loaderRoots: seq<string>)
      ensures this.name == name && this.toplevel == toplevel && this.workRoot == workRoot
      ensures this.gui == gui && this.loaderRoots == loaderRoots
    {
      this.name := name;
      this.toplevel := toplevel;
      this.workRoot := workRoot;
      this.gui := gui;
      this.loaderRoots := loaderRoots;
    }

    /** The configure phase over the collected fileset `srcFiles`. The source
        directory is registered first, then each waiver's directory in
        waiver order; the waivers leave the compiled list, renamed to their
        bare names, and the other files keep their order. */
    method Configure(srcFiles: seq<SourceFile>, resolve: Resolver) returns (vars: DoFileVars)
      modifies this
      ensures loaderRoots == old(loaderRoots) + [SrcRoot(workRoot)] + WaiverRoots(Waivers(srcFiles), workRoot, resolve)
      ensures vars.name == SanitisedName(name) && vars.toplevel == toplevel
      ensures vars.srcFiles == NonWaivers(srcFiles)
      ensures vars.waiverFiles == RenamedWaivers(Waivers(srcFiles), workRoot, resolve)
    {
      loaderRoots := loaderRoots + [SrcRoot(workRoot)];
      var remaining, waiverFiles := MoveWaivers(srcFiles, resolve);
      vars := DoFileVars(SanitisedName(name), toplevel, remaining, waiverFiles);
    }

    /** The waiver loop of the configure phase: each waiver's directory is
        appended to the loader chain, the waiver is renamed to its bare name
        and removed from the compiled list. */
    method MoveWaivers(srcFiles: seq<SourceFile>, resolve: Resolver)
      returns (remaining: seq<SourceFile>, waiverFiles: seq<SourceFile>)
      modifies this
      ensures loaderRoots == old(loaderRoots) + WaiverRoots(Waivers(srcFiles), workRoot, resolve)
      ensures remaining == NonWaivers(srcFiles)
      ensures waiverFiles == RenamedWaivers(Waivers(srcFiles), workRoot, resolve)
    {
      remaining := srcFiles;
      waiverFiles := Waivers(srcFiles);
      ghost var waivers := waiverFiles;
      DropNoWaivers(srcFiles);
      var k := 0;
      while k < |waiverFiles|
        invariant 0 <= k <= |waiverFiles| == |waivers|
        invariant waiverFiles == RenamedWaivers(waivers[..k], workRoot, resolve) + waivers[k..]
        invariant remaining == DropWaivers(srcFiles, k)
        invariant loaderRoots == old(loaderRoots) + WaiverRoots(waivers[..k], workRoot, resolve)
      {
        var f := waiverFiles[k];
        assert f == waivers[k] by {
          assert waiverFiles[k] == waivers[k..][0];
        }
        var p := resolve(workRoot, f.name);
        loaderRoots := loaderRoots + [p.parent];
        RenameStep(waivers, k, workRoot, resolve);
        waiverFiles := waiverFiles[k := f.(name := p.basename)];
        WaiverStillPresent(srcFiles, k);
        assert f in remaining;
        RemoveNextWaiver(srcFiles, k);
        remaining := RemoveFirst(remaining, f);
        WaiverRootsExtend(waivers, k, workRoot, resolve);
        k := k + 1;
      }
      DropAllWaivers(srcFiles);
      assert waivers[..k] == waivers && waivers[k..] == [];
    }

    /** The build phase does nothing. */
    method Build()
      ensures unchanged(this)
    {
    }

    /** The run phase: the GUI executable on `alintpro.do`, or the console
        executable in batch mode on it. */
    function RunInvocation(): (inv: Invocation)
      ensures InstallDir <= inv.cmd
      ensures gui ==> inv.cmd == InstallDir + "alint.exe" && inv.args == ["-do", "alintpro.do"]
      ensures !gui ==> inv.cmd == InstallDir + "alintcon.exe" && inv.args == ["-batch", "-do", "alintpro.do"]
    {
      var cmd := InstallDir + (if gui then "alint.exe" else "alintcon.exe");
      var args := (if gui then [] else ["-batch"]) + ["-do", "alintpro.do"];
      Invocation(cmd, args)
    }
  }
}
