/** The VUnit backend: the configure step that puts every file in a
    library, finds the pre- and post-flow script fragments among the
    fileset's files and registers their directories with the template
    loader, and the argument vectors of the build and run phases. */
module VUnit {
  import opened Eda

  /** The library a file without one is compiled into. */
  const DefaultLib: string := "default_lib"

  /** The options that name a script fragment to be found in the fileset. */
  const FragmentKeys: seq<string> := ["pre_flow_fragment", "post_flow_fragment"]

  /** One scalar tool option, `key = value`. */
  datatype Member = Member(key: string, value: string)

  /** The options come from a dictionary, so no key occurs twice. */
  predicate DistinctKeys(options: seq<Member>)
  {
    forall a, b :: 0 <= a < b < |options| ==> options[a].key != options[b].key
  }

  // ----- Libraries -------------------------------------------------------

  /** A file as the configure step leaves it: in `default_lib` when it named
      no library, unchanged otherwise. */
  function WithDefaultLibrary(f: SourceFile): (g: SourceFile)
    ensures g.name == f.name && g.fileType == f.fileType
    ensures g.logicalName != ""
    ensures f.logicalName != "" ==> g == f
    ensures f.logicalName == "" ==> g.logicalName == DefaultLib
  {
    if f.logicalName == "" then f.(logicalName := DefaultLib) else f
  }

  function WithDefaultLibraries(files: seq<SourceFile>): (r: seq<SourceFile>)
    ensures |r| == |files|
    ensures forall i :: 0 <= i < |files| ==> r[i] == WithDefaultLibrary(files[i])
  {
    seq(|files|, i requires 0 <= i < |files| => WithDefaultLibrary(files[i]))
  }

  /** The library list built while walking `files` in order: `default_lib`,
      then each library name not yet listed, as it is met. */
  function Libraries(files: seq<SourceFile>): (libs: seq<string>)
    ensures 1 <= |libs| <= |files| + 1 && libs[0] == DefaultLib
    decreases |files|
  {
    if files == [] then [DefaultLib]
    else
      var libs := Libraries(files[..|files| - 1]);
      var lib := files[|files| - 1].logicalName;
      if lib in libs then libs else libs + [lib]
  }

  /** `default_lib` comes first, no library is listed twice, and the list
      holds exactly `default_lib` and the files' libraries. */
  lemma {:induction false} LibrariesWellFormed(files: seq<SourceFile>)
    ensures |Libraries(files)| >= 1 && Libraries(files)[0] == DefaultLib
    ensures forall a, b :: 0 <= a < b < |Libraries(files)| ==> Libraries(files)[a] != Libraries(files)[b]
    ensures forall i :: 0 <= i < |files| ==> files[i].logicalName in Libraries(files)
    ensures forall lib :: lib in Libraries(files) ==>
      lib == DefaultLib || exists i :: 0 <= i < |files| && files[i].logicalName == lib
    decreases |files|
  {
    if files != [] {
      var init := files[..|files| - 1];
      LibrariesWellFormed(init);
      forall i | 0 <= i < |files|
        ensures files[i].logicalName in Libraries(files)
      {
        if i < |files| - 1 {
          assert files[i] == init[i];
        }
      }
      forall lib | lib in Libraries(files)
        ensures lib == DefaultLib || exists i :: 0 <= i < |files| && files[i].logicalName == lib
      {
        if lib in Libraries(init) && lib != DefaultLib {
          var i :| 0 <= i < |init| && init[i].logicalName == lib;
          assert files[i] == init[i];
        }
      }
    }
  }

  /** Libraries are listed in the order of their first use: walking more
      files only adds to the end of the list. */
  lemma {:induction false} LibrariesGrowAtTheEnd(files: seq<SourceFile>, n: nat)
    requires n <= |files|
    ensures Libraries(files[..n]) <= Libraries(files)
    decreases |files| - n
  {
    if n < |files| {
      LibrariesGrowAtTheEnd(files, n + 1);
      assert files[..n + 1][..n] == files[..n];
    } else {
      assert files[..n] == files;
    }
  }

  /** After defaulting, `default_lib` heads the list and every file's
      library is a listed, non-empty name. */
  lemma DefaultedLibraries(files: seq<SourceFile>)
    ensures var fs := WithDefaultLibraries(files);
      && Libraries(fs)[0] == DefaultLib
      && (forall i :: 0 <= i < |fs| ==> fs[i].logicalName != "" && fs[i].logicalName in Libraries(fs))
  {
    LibrariesWellFormed(WithDefaultLibraries(files));
  }

  // ----- Script fragments ------------------------------------------------

  /** The index of the first file whose name contains `needle`. */
  function FirstContaining(files: seq<SourceFile>, needle: string): (r: Option<nat>)
    ensures r.Some? ==>
      && r.value < |files|
      && Contains(files[r.value].name, needle)
      && forall j :: 0 <= j < r.value ==> !Contains(files[j].name, needle)
    ensures r.None? ==> forall j :: 0 <= j < |files| ==> !Contains(files[j].name, needle)
    decreases |files|
  {
    if files == [] then None
    else if Contains(files[0].name, needle) then Some(0)
    else match FirstContaining(files[1..], needle)
      case None => None
      case Some(j) => Some(j + 1)
  }

  /** The options and the template loader's lookup roots. */
  datatype FragmentState = FragmentState(options: seq<Member>, roots: seq<string>)

  function NotFound(key: string): string
  {
    key + " file not found in target filesets"
  }

  /** Resolving option `i`: the first file whose name contains the option's
      value is resolved against the work root; the option becomes the bare
      file name and exactly one root, the file's directory, is appended. No
      such file is an error naming the option. */
  function ResolveOption(st: FragmentState, i: nat, files: seq<SourceFile>, workRoot: PosixPath,
                         resolve: Resolver): (r: Result<FragmentState>)
    requires i < |st.options|
    ensures r.Err? <==> FirstContaining(files, st.options[i].value).None?
    ensures r.Err? ==> r.message == NotFound(st.options[i].key)
    ensures r.Ok? ==>
      var p := resolve(workRoot, files[FirstContaining(files, st.options[i].value).value].name);
      && r.value.options == st.options[i := Member(st.options[i].key, p.basename)]
      && r.value.roots == st.roots + [p.parent]
  {
    match FirstContaining(files, st.options[i].value)
    case None => Err(NotFound(st.options[i].key))
    case Some(j) =>
      var p := resolve(workRoot, files[j].name);
      Ok(FragmentState(st.options[i := Member(st.options[i].key, p.basename)], st.roots + [p.parent]))
  }

  /** Where the resolution stops, and the error that stopped it, if any. */
  datatype Resolution = Resolution(state: FragmentState, error: Option<string>)

  /** Resolving the fragment options from index `i` on, in option order,
      stopping at the first one that is not found. */
  function ResolveFrom(st: FragmentState, i: nat, files: seq<SourceFile>, workRoot: PosixPath,
                       resolve: Resolver): (r: Resolution)
    requires i <= |st.options|
    ensures |r.state.options| == |st.options|
    ensures |st.roots| <= |r.state.roots| <= |st.roots| + (|st.options| - i)
    decreases |st.options| - i
  {
    if i == |st.options| then Resolution(st, None)
    else if st.options[i].key !in FragmentKeys then ResolveFrom(st, i + 1, files, workRoot, resolve)
    else match ResolveOption(st, i, files, workRoot, resolve)
      case Err(m) => Resolution(st, Some(m))
      case Ok(next) => ResolveFrom(next, i + 1, files, workRoot, resolve)
  }

  /** The roots a complete resolution appends: one per fragment option, in
      option order. */
  function FragmentParents(options: seq<Member>, files: seq<SourceFile>, workRoot: PosixPath,
                           resolve: Resolver): seq<string>
    decreases |options|
  {
    if options == [] then []
    else
      var o := options[0];
      var found := FirstContaining(files, o.value);
      (if o.key in FragmentKeys && found.Some? then [resolve(workRoot, files[found.value].name).parent] else [])
      + FragmentParents(options[1..], files, workRoot, resolve)
  }

  /** Only the fragment options change, keys and order stay, and roots are
      only ever appended. */
  lemma {:induction false} ResolutionTouchesOnlyFragments(
    st: FragmentState, i: nat, files: seq<SourceFile>, workRoot: PosixPath, resolve: Resolver)
    requires i <= |st.options|
    ensures var r := ResolveFrom(st, i, files, workRoot, resolve);
      && |r.state.options| == |st.options|
      && (forall k :: 0 <= k < |st.options| ==> r.state.options[k].key == st.options[k].key)
      && (forall k :: 0 <= k < |st.options| && (k < i || st.options[k].key !in FragmentKeys) ==>
            r.state.options[k] == st.options[k])
      && st.roots <= r.state.roots
    decreases |st.options| - i
  {
    if i < |st.options| {
      if st.options[i].key !in FragmentKeys {
        ResolutionTouchesOnlyFragments(st, i + 1, files, workRoot, resolve);
      } else if ResolveOption(st, i, files, workRoot, resolve).Ok? {
        ResolutionTouchesOnlyFragments(ResolveOption(st, i, files, workRoot, resolve).value, i + 1, files, workRoot, resolve);
      }
    }
  }

  /** The index of the first fragment option whose value no file name
      contains. */
  function FirstMissing(options: seq<Member>, files: seq<SourceFile>): (r: Option<nat>)
    ensures r.Some? ==>
      && r.value < |options|
      && options[r.value].key in FragmentKeys
      && FirstContaining(files, options[r.value].value).None?
      && forall m :: 0 <= m < r.value && options[m].key in FragmentKeys ==>
           FirstContaining(files, options[m].value).Some?
    ensures r.None? ==>
      forall m :: 0 <= m < |options| && options[m].key in FragmentKeys ==>
        FirstContaining(files, options[m].value).Some?
    decreases |options|
  {
    if options == [] then None
    else if options[0].key in FragmentKeys && FirstContaining(files, options[0].value).None? then Some(0)
    else match FirstMissing(options[1..], files)
      case None => None
      case Some(m) => Some(m + 1)
  }

  /** The resolution stops exactly at the first fragment option that
      matches no file name, with the error naming that option. */
  lemma {:induction false} ResolutionFailsOnMissingFragment(
    st: FragmentState, i: nat, files: seq<SourceFile>, workRoot: PosixPath, resolve: Resolver)
    requires i <= |st.options|
    ensures ResolveFrom(st, i, files, workRoot, resolve).error ==
      match FirstMissing(st.options[i..], files)
      case None => None
      case Some(m) => Some(NotFound(st.options[i + m].key))
    decreases |st.options| - i
  {
    var rest := st.options[i..];
    if i == |st.options| {
      assert rest == [];
    } else {
      assert rest[0] == st.options[i] && rest[1..] == st.options[i + 1..];
      if st.options[i].key !in FragmentKeys {
        ResolutionFailsOnMissingFragment(st, i + 1, files, workRoot, resolve);
      } else if ResolveOption(st, i, files, workRoot, resolve).Ok? {
        var next := ResolveOption(st, i, files, workRoot, resolve).value;
        ResolutionFailsOnMissingFragment(next, i + 1, files, workRoot, resolve);
        assert next.options[i + 1..] == st.options[i + 1..];
      }
    }
  }

  /** A complete resolution sets each fragment option to the bare name of
      the first file containing its old value, and appends exactly one root
      per fragment option, in option order. */
  lemma {:induction false} ResolutionResult(
    st: FragmentState, i: nat, files: seq<SourceFile>, workRoot: PosixPath, resolve: Resolver)
    requires i <= |st.options|
    requires ResolveFrom(st, i, files, workRoot, resolve).error.None?
    ensures var r := ResolveFrom(st, i, files, workRoot, resolve);
      && |r.state.options| == |st.options|
      && (forall k :: i <= k < |st.options| && st.options[k].key in FragmentKeys ==>
            && FirstContaining(files, st.options[k].value).Some?
            && r.state.options[k].value ==
                 resolve(workRoot, files[FirstContaining(files, st.options[k].value).value].name).basename)
      && r.state.roots == st.roots + FragmentParents(st.options[i..], files, workRoot, resolve)
    decreases |st.options| - i
  {
    if i == |st.options| {
      assert st.options[i..] == [];
    } else {
      assert st.options[i..][0] == st.options[i] && st.options[i..][1..] == st.options[i + 1..];
      if st.options[i].key !in FragmentKeys {
        ResolutionResult(st, i + 1, files, workRoot, resolve);
      } else {
        var next := ResolveOption(st, i, files, workRoot, resolve).value;
        ResolutionResult(next, i + 1, files, workRoot, resolve);
        ResolutionTouchesOnlyFragments(next, i + 1, files, workRoot, resolve);
        assert next.options[i + 1..] == st.options[i + 1..];
      }
    }
  }

  // ----- The backend -----------------------------------------------------

  /** The variables handed to the `run.py` template. */
  datatype RunPyVars = RunPyVars(srcFiles: seq<SourceFile>, libraries: seq<string>, toolOptions: seq<Member>)

  class Vunit {
    const workRoot: PosixPath
    /** The fileset, as dictionaries the configure step updates in place. */
    var files: seq<SourceFile>
    /** The scalar tool options, in the order of the options dictionary. */
    var toolOptions: seq<Member>
    /** The `vuargs` list option, when set. */
    var vuargs: Option<seq<string>>
    /** The template loader's chain of lookup roots, searched in order. */
    var loaderRoots: seq<string>

    constructor (workRoot: PosixPath, files: seq<SourceFile>, toolOptions: seq<Member>,
                 vuargs: Option<seq<string>>, loaderRoots: seq<string>)
      ensures this.workRoot == workRoot && this.files == files && this.toolOptions == toolOptions
      ensures this.vuargs == vuargs && this.loaderRoots == loaderRoots
    {
      this.workRoot := workRoot;
      this.files := files;
      this.toolOptions := toolOptions;
      this.vuargs := vuargs;
      this.loaderRoots := loaderRoots;
    }

    /** Puts every file without a library in `default_lib` and lists the
        libraries in order of first use. */
    method AssignLibraries() returns (libraries: seq<string>)
      modifies this
      ensures files == WithDefaultLibraries(old(files))
      ensures libraries == Libraries(files)
      ensures toolOptions == old(toolOptions) && vuargs == old(vuargs) && loaderRoots == old(loaderRoots)
    {
      ghost var original := files;
      libraries := [DefaultLib];
      var i := 0;
      while i < |files|
        invariant 0 <= i <= |files| == |original|
        invariant forall k :: 0 <= k < i ==> files[k] == WithDefaultLibrary(original[k])
        invariant forall k :: i <= k < |files| ==> files[k] == original[k]
        invariant libraries == Libraries(files[..i])
        invariant toolOptions == old(toolOptions) && vuargs == old(vuargs) && loaderRoots == old(loaderRoots)
      {
        ghost var before := files;
        if files[i].logicalName == "" {
          files := files[i := files[i].(logicalName := DefaultLib)];
        }
        assert files[..i] == before[..i];
        assert files[..i + 1] == before[..i] + [files[i]];
        if files[i].logicalName !in libraries {
          libraries := libraries + [files[i].logicalName];
        }
        i := i + 1;
      }
      assert files[..i] == files;
    }

    /** Looks for the fragment named by option `i` among the files. */
    method CheckForOptionalFiles(i: nat, resolve: Resolver) returns (error: Option<string>)
      requires i < |toolOptions|
      modifies this
      ensures var r := ResolveOption(FragmentState(old(toolOptions), old(loaderRoots)), i, files, workRoot, resolve);
        && (r.Ok? ==> error.None? && toolOptions == r.value.options && loaderRoots == r.value.roots)
        && (r.Err? ==> error == Some(r.message) && toolOptions == old(toolOptions) && loaderRoots == old(loaderRoots))
      ensures files == old(files) && vuargs == old(vuargs)
    {
      var needle := toolOptions[i].value;
      var j := 0;
      while j < |files|
        invariant 0 <= j <= |files|
        invariant forall k :: 0 <= k < j ==> !Contains(files[k].name, needle)
        invariant toolOptions == old(toolOptions) && loaderRoots == old(loaderRoots)
        invariant files == old(files) && vuargs == old(vuargs)
      {
        if Contains(files[j].name, needle) {
          assert FirstContaining(files, needle) == Some(j);
          var p := resolve(workRoot, files[j].name);
          loaderRoots := loaderRoots + [p.parent];
          toolOptions := toolOptions[i := Member(toolOptions[i].key, p.basename)];
          return None;
        }
        j := j + 1;
      }
      error := Some(NotFound(toolOptions[i].key));
    }

    /** Resolves the fragment options in option order, stopping at the
        first that is not found. */
    method ResolveFragments(resolve: Resolver) returns (error: Option<string>)
      requires DistinctKeys(toolOptions)
      modifies this
      ensures DistinctKeys(toolOptions)
      ensures var r := ResolveFrom(FragmentState(old(toolOptions), old(loaderRoots)), 0, files, workRoot, resolve);
        toolOptions == r.state.options && loaderRoots == r.state.roots && error == r.error
      ensures files == old(files) && vuargs == old(vuargs)
    {
      var i := 0;
      while i < |toolOptions|
        invariant 0 <= i <= |toolOptions|
        invariant ResolveFrom(FragmentState(toolOptions, loaderRoots), i, files, workRoot, resolve) ==
                  ResolveFrom(FragmentState(old(toolOptions), old(loaderRoots)), 0, files, workRoot, resolve)
        invariant |toolOptions| == |old(toolOptions)|
        invariant forall k :: 0 <= k < |toolOptions| ==> toolOptions[k].key == old(toolOptions)[k].key
        invariant files == old(files) && vuargs == old(vuargs)
      {
        if toolOptions[i].key in FragmentKeys {
          error := CheckForOptionalFiles(i, resolve);
          if error.Some? {
            return;
          }
        }
        i := i + 1;
      }
      error := None;
    }

    /** The configure phase. The files are put in libraries first; then the
        fragments are resolved, and a missing one aborts the phase before
        `run.py` is rendered. */
    method Configure(resolve: Resolver) returns (r: Result<RunPyVars>)
      requires DistinctKeys(toolOptions)
      modifies this
      ensures DistinctKeys(toolOptions)
      ensures files == WithDefaultLibraries(old(files)) && vuargs == old(vuargs)
      ensures var res := ResolveFrom(FragmentState(old(toolOptions), old(loaderRoots)), 0, files, workRoot, resolve);
        && toolOptions == res.state.options && loaderRoots == res.state.roots
        && (res.error.Some? ==> r == Err(res.error.value))
        && (res.error.None? ==> r == Ok(RunPyVars(files, Libraries(files), toolOptions)))
    {
      var libraries := AssignLibraries();
      var error := ResolveFragments(resolve);
      if error.Some? {
        return Err(error.value);
      }
      r := Ok(RunPyVars(files, libraries, toolOptions));
    }

    /** The run phase: `python run.py` followed by the `vuargs` option, none
        when it is unset. */
    function RunInvocation(): (inv: Invocation)
      reads this
      ensures inv.cmd == "python" && |inv.args| >= 1 && inv.args[0] == "run.py"
      ensures vuargs.Some? ==> inv.args[1..] == vuargs.value
      ensures vuargs.None? ==> inv.args == ["run.py"]
    {
      Invocation("python", ["run.py"] + (if vuargs.Some? then vuargs.value else []))
    }
  }

  /** The build phase: `python run.py --compile -k`, compiling only and
      going on past errors. */
  function BuildInvocation(): (inv: Invocation)
    ensures inv.cmd == "python" && inv.args == ["run.py", "--compile", "-k"]
  {
    Invocation("python", ["run.py", "--compile", "-k"])
  }
}
