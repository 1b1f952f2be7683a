# Edalize backends: Vivado, VUnit and ALINT-PRO file dispatch and configure

This project models, in Dafny, the configure logic of three edalize
backends. Each takes the ordered fileset of a build (records of
`name`, `file_type` and `logical_name`) and the backend's tool options. It
produces the directives, library lists, renamed or reclassified files and
template-loader roots that its templates are rendered from, and the
argument vectors of its build and run phases.

- `eda_common.dfy` (module `Eda`) holds the shared entities: the source-file
  record, `Option`/`Result`, the invocation `(cmd, args)`, the outcome of
  `pathlib`'s `resolve()`, a parsed POSIX path, and Python's `in` on
  strings. It also has `Collect`/`Positions`, the shape of a loop that
  appends whatever a step yields, with lemmas that relate the two.
- `vivado.dfy` (module `Vivado`) models the file-type dispatcher
  (`src_file_filter` with its inner `_vhdl_source`). It is pure: a
  dictionary lookup on the type tag's text before the first `-`, with a
  VHDL command that depends on the revision and the library. Unknown types
  log a warning, which the model returns as a value. The directive loop of
  `configure_main` is a method with a loop invariant. Around it sit the
  yosys-flow injection, the `has_vhdl2008`/`has_xci` flags, the Makefile's
  `edif` dependency suffix and the programming run's argument vector.
- `vunit.dfy` (module `VUnit`) models the backend object as class `Vunit`.
  Its fields include the three that `configure_main` updates in place:
  - `files`, whose `logical_name` is defaulted to `default_lib`;
  - `toolOptions`, whose fragment options are rewritten to bare file names;
  - `loaderRoots`, the template loader's chain, which only grows.

  `AssignLibraries`, `CheckForOptionalFiles` and `ResolveFragments` are the
  three loops of the source. They are proved against the functions
  `Libraries`, `ResolveOption` and `ResolveFrom`, and the lemmas state what
  the source promises about those functions. A fragment that is not found
  aborts configure with an `Err` before any `run.py` variables exist.
- `alintpro.dfy` (module `AlintPro`) models the backend object as class
  `AlintPro`, whose `loaderRoots` field is the loader chain. Configure
  first registers `parent(work_root)/src`, then handles the waiver files in
  order. Each waiver's directory is registered, the waiver is renamed to its
  bare name, and it is removed from the compiled list with `list.remove`.
  The lemmas prove that this loop leaves exactly the non-waiver files, in
  their original order. The module also covers name sanitising and the
  GUI/console choice of the run phase.

The filesystem's `resolve()` is an argument of type
`Resolver = (work_root, name) -> (parent, basename)`, so every property holds
for every filesystem. Under the yosys flow, two directives follow the file
directives: `read_edif <toplevel>.edif`, then `set_property design_mode
GateLvl [current_fileset]` (`edalize/vivado.py:72-73`).

Note that `has_xci` and `has_vhdl2008` test the type tag exactly
(`edalize/vivado.py:76-77`), while dispatch uses the text before the first
`-`. A file tagged `xci-foo` is therefore read with `read_ip`, yet it does
not set `has_xci`. `Vivado.Configure` states both behaviours as written.

## Model

| member | source | states |
|---|---|---|
| `Vivado.TypeKey` | edalize/vivado.py:159 | the dispatch key is a prefix of the type tag with no `-`, and the tag continues with `-` wherever the key stops short of it |
| `Vivado.TypeKeyUnique` | edalize/vivado.py:159 | those two conditions determine the key uniquely, so `TypeKey` is exactly "the text before the first `-`" |
| `Vivado.RevisionSuffixIsDropped` | edalize/vivado.py:159 | `vhdlSource-2008` dispatches under the key `vhdlSource` |
| `Vivado.VhdlCommandShape` | edalize/vivado.py:137-143 | the VHDL command starts with `read_vhdl`; ` -vhdl2008` follows it iff the tag is exactly `vhdlSource-2008`; it ends in ` -library L` iff the file names a non-empty library `L` |
| `Vivado.FileTypes` | edalize/vivado.py:145-156 | the table's keys are exactly the keys `Recognised` under the flow (three always, the three HDL sources only under `vivado`), and every command in it is non-empty |
| `Vivado.IgnoreTypes` | edalize/vivado.py:150-158 | the ignore list holds exactly the keys `Ignored` under the flow (`user`, plus the two Verilog keys under any other flow), and none of them is in the dispatch table |
| `Vivado.SrcFileFilter` | edalize/vivado.py:136-168 | the directive is non-empty iff the key is recognised under the flow (xci, xdc, tclSource always; the HDL sources only under `vivado`), and then it ends in `" " + name`; a warning is produced iff the key is neither recognised nor ignored, and it names the file and its full type tag |
| `Vivado.DispatchTableEveryFlow` | edalize/vivado.py:145-161 | under every flow `xci`, `xdc` and `tclSource` give `read_ip`, `read_xdc` and `source` followed by the file name |
| `Vivado.DispatchTableVivadoFlow` | edalize/vivado.py:137-161 | under the Vivado flow Verilog gives `read_verilog`, SystemVerilog `read_verilog -sv`, and VHDL `read_vhdl`, plus ` -vhdl2008` iff the tag is exactly `vhdlSource-2008`, plus ` -library L` iff the library is non-empty, then the name |
| `Vivado.OtherFlowSkipsHdl` | edalize/vivado.py:150-168 | under any other flow, Verilog, SystemVerilog and `user` files yield nothing and no warning, while a VHDL file is an unknown type that yields nothing and one warning |
| `Vivado.DirectivesInFilesetOrder` | edalize/vivado.py:62-66 | the collected directives match one to one, in increasing fileset order, the files whose key is recognised, and each is that file's directive |
| `Vivado.WarningsInFilesetOrder` | edalize/vivado.py:164-168 | exactly one warning per file of unknown type, in fileset order, each naming that file |
| `Vivado.UnknownTypeIsSoft` | edalize/vivado.py:164-168 | a lone file of unknown type gives no directive and exactly one warning, without aborting |
| `Vivado.UnknownTypeExample` | edalize/vivado.py:159-168 | the type `unknown_type` is neither recognised nor ignored under any flow |
| `Vivado.Flow` | edalize/vivado.py:58 | the flow is the `synth` option when set; the HDL sources are read by Vivado iff the option is unset or `vivado` |
| `Vivado.CollectDirectives` | edalize/vivado.py:62-66 | the loop appends exactly the non-empty directives and logs exactly the warnings, in fileset order |
| `Vivado.Configure` | edalize/vivado.py:57-77 | `synth` defaults to `vivado`; iff it is `yosys`, `read_edif <toplevel>.edif` and `set_property design_mode GateLvl [current_fileset]` follow the file directives and the Makefile suffix is ` $(NAME).edif` (otherwise `""`); `has_vhdl2008`/`has_xci` hold iff some tag is exactly `vhdlSource-2008`/`xci` |
| `Vivado.ProgramInvocation` | edalize/vivado.py:176-185 | with `hw_device` set, programming runs `vivado -mode batch -source <name>_pgm.tcl`; with it unset, the script writer's lookup fails with the missing-key error `'hw_device'` and Vivado is not started |
| `Eda.ContainsAt` | edalize/vunit.py:49 | the substring test behind `opt in f['name']` holds iff the value occurs at some position of the name |
| `VUnit.WithDefaultLibrary` | edalize/vunit.py:42-43 | a file without a library goes into `default_lib`; every other file is left unchanged; the result always has a non-empty library |
| `VUnit.Libraries` | edalize/vunit.py:40-45 | the library list starts with `default_lib` and grows by at most one entry per file |
| `VUnit.LibrariesWellFormed` | edalize/vunit.py:40-45 | the library list starts with `default_lib`, has no duplicates, contains every file's library, and contains nothing else |
| `VUnit.LibrariesGrowAtTheEnd` | edalize/vunit.py:41-45 | the list for a prefix of the files is a prefix of the full list, so libraries appear in order of first use |
| `VUnit.DefaultedLibraries` | edalize/vunit.py:40-45 | after defaulting, `default_lib` is first and every file's library is non-empty and listed |
| `VUnit.FirstContaining` | edalize/vunit.py:48-49 | finds the first file whose name contains the option value, or reports that no file name contains it |
| `VUnit.ResolveOption` | edalize/vunit.py:47-64 | on success the option becomes the basename of the resolved path of that first file and exactly one root (its parent) is appended; otherwise the error is `<opt> file not found in target filesets` |
| `VUnit.FirstMissing` | edalize/vunit.py:63-69 | gives the first fragment option whose value no file name contains, or reports that every fragment option is found |
| `VUnit.ResolveFrom` | edalize/vunit.py:66-69 | the options loop keeps the number of options and appends at most one loader root per remaining option |
| `VUnit.ResolutionTouchesOnlyFragments` | edalize/vunit.py:66-69 | only `pre_flow_fragment`/`post_flow_fragment` options change; keys, order and every other option are kept, and roots are only appended |
| `VUnit.ResolutionFailsOnMissingFragment` | edalize/vunit.py:63-69 | the resolution fails iff some fragment option matches no file name, and then with the error naming the first such option |
| `VUnit.ResolutionResult` | edalize/vunit.py:47-69 | a complete resolution sets each fragment option to the basename of the first matching file and appends one root per fragment option, in option order (one per fragment key, since the options' keys are distinct) |
| `VUnit.Vunit.AssignLibraries` | edalize/vunit.py:40-45 | the files become their defaulted selves and the returned list is the library list of the updated files; other state is unchanged |
| `VUnit.Vunit.CheckForOptionalFiles` | edalize/vunit.py:47-64 | the search loop does what `ResolveOption` says: updates option and loader chain on a hit, changes nothing and reports the error on a miss |
| `VUnit.Vunit.ResolveFragments` | edalize/vunit.py:66-69 | given options with distinct keys, as a dictionary holds them, the loop over the options ends in the state and with the error that `ResolveFrom` gives, and the keys stay distinct |
| `VUnit.Vunit.Configure` | edalize/vunit.py:35-82 | libraries are assigned first; a missing fragment yields `Err` with its message and no `run.py` variables; otherwise the variables are the files, their library list and the resolved options; option keys are distinct before and after |
| `VUnit.BuildInvocation` | edalize/vunit.py:84-88 | the build phase runs `python run.py --compile -k` |
| `VUnit.Vunit.RunInvocation` | edalize/vunit.py:90-94 | the run phase runs `python run.py` followed by `vuargs`, or nothing more when `vuargs` is unset |
| `AlintPro.Waivers` | edalize/alintpro.py:46 | the waiver list is no longer than the fileset and holds only files of type `waiver` (their fileset order comes from the definition, a front-to-back filter) |
| `AlintPro.NonWaivers` | edalize/alintpro.py:47-58 | the list that remains is no longer than the fileset and holds only non-waiver files (their fileset order comes from the definition, a front-to-back filter) |
| `AlintPro.WaiversSplitFileset` | edalize/alintpro.py:46-58 | waivers and remaining files together are the fileset, as a multiset: no file is lost or made up |
| `AlintPro.RemoveOneCopy` | edalize/alintpro.py:58 | `list.remove(x)` on a list holding `x` takes out exactly one copy of `x` (length one less, multiset minus `{x}`); on a list without `x` it changes nothing (the source would raise `ValueError`, which `AlintPro.WaiverStillPresent` shows cannot happen) |
| `AlintPro.WaiverStillPresent` | edalize/alintpro.py:58 | when the loop reaches the k-th waiver, that waiver is still in the compiled list, so `src_files.remove(f)` never raises `ValueError` |
| `AlintPro.RemoveNextWaiver` | edalize/alintpro.py:58 | `remove(f)` on the k-th waiver removes exactly the first waiver still in the list |
| `AlintPro.DropAllWaivers` | edalize/alintpro.py:47-58 | removing every waiver in turn leaves exactly the non-waiver files, in their original order |
| `AlintPro.WaiverRoots` | edalize/alintpro.py:51-54 | one loader root per waiver, in waiver order, each the parent of that waiver's resolved path |
| `AlintPro.RenamedWaivers` | edalize/alintpro.py:49-56 | each waiver handed to the template keeps its type and library but is named by the basename of its resolved path |
| `AlintPro.SrcRoot` | edalize/alintpro.py:39-44 | the first root registered is `str(parent(work_root) / 'src')`: `src` when the parent is `.`, `/src` when it is `/`, and otherwise the parent's string followed by `/src` |
| `AlintPro.SrcRootBesideWorkRoot` | edalize/alintpro.py:39 | with the work root `/a/b`, the source root is `/a/src` |
| `Eda.PosixPath.Parent` | edalize/alintpro.py:39 | `Path.parent`: `.` and `/` are their own parents, and otherwise the last component is dropped and rootedness kept |
| `Eda.PosixPath.Child` | edalize/alintpro.py:39 | `path / name` appends one component, and its parent is the path again |
| `Eda.PosixPath.ToString` | edalize/alintpro.py:39-43 | `str(path)`: `.` or `/` for no components, ending with the last component, with a leading `/` when rooted |
| `Eda.LeadingSlashIffRooted` | edalize/alintpro.py:39-43 | for a well-formed path (non-empty components without `/`, as parsing yields), `str(path)` starts with `/` iff the path is rooted |
| `Eda.ChildToString` | edalize/alintpro.py:39-43 | `str(path / name)` is `name` below `.`, `/name` below `/`, and otherwise `str(path) + "/" + name` |
| `AlintPro.SanitisedName` | edalize/alintpro.py:61 | the template name has the backend name's length, contains no `.`, has `_` wherever the name has `.`, and agrees with the name everywhere else |
| `Eda.ReplaceChar` | edalize/alintpro.py:61 | `str.replace` of one character by another: same length, the character replaced at every position where it occurs, every other position kept |
| `AlintPro.AlintPro.Configure` | edalize/alintpro.py:34-66 | the loader chain becomes old chain + `[parent(work_root)/src]` + one root per waiver; the compiled list is the non-waiver files in order; the waiver list is the renamed waivers in order; the name is sanitised |
| `AlintPro.AlintPro.MoveWaivers` | edalize/alintpro.py:47-58 | the waiver loop appends the waiver roots, renames the waivers, and leaves exactly the non-waiver files |
| `AlintPro.AlintPro.Build` | edalize/alintpro.py:72-73 | the build phase changes nothing |
| `AlintPro.AlintPro.RunInvocation` | edalize/alintpro.py:75-88 | GUI set: `alint.exe` with exactly `-do alintpro.do`; unset: `alintcon.exe` with exactly `-batch -do alintpro.do`; both under the install directory |

## Left out

- Template rendering and the template text (Jinja2, `render_template`, `get_template`): an external library. The loader is modelled only as its chain of root strings.
- File writes: the Makefile body (only its `edif` dependency suffix is modelled), the yosys script (`_write_yosys_file`), and the programming script (`_write_program_tcl_file`). Only the script writer's failing `hw_device` lookup is modelled; `hw_device` is not in the option schema at `edalize/vivado.py:46-47`. These are I/O, and the yosys script depends on `_param_value_str`, which is in `edalize/edatool.py`. `edalize/edatool.py` is not part of this model.
- `pathlib.Path.resolve()`: it depends on the disk and on symbolic links. It is the `Resolver` argument.
- Parsing `work_root` into a path: the model takes it already parsed (`PosixPath`), because `pathlib`'s collapsing of repeated separators happens at parsing. On Windows, `str()` of a path would use `\` separators; the model renders `/`.
- `_run_tool`, the process call: only its `(cmd, args)` is modelled, and the exit status is not.
- `_get_fileset_files` and its `force_slash` normalisation: they live in the base class. The Vivado and ALINT-PRO configure steps take their output as the `srcFiles` argument. For VUnit, the `src_files` handed to `run.py` are modelled as the backend's updated `files`. The base class drops entries marked `is_include_file` from that list, but the library loop and the fragment search (`edalize/vunit.py:41`, `:48`) see every entry; the model does not drop them.
- Template variables that pass through unchanged are not carried: `incdirs`, `vlogparam`, `vlogdefine` and `tool_options` for Vivado, and `tool_options` for ALINT-PRO.
- Logging configuration and ALINT-PRO's debug message with the loader path. Vivado's unknown-type warnings are modelled as returned strings.
- `get_doc` and the option schemas: static documentation, and the schema check belongs to the base class.
- VUnit.Vunit.AssignLibraries: every file entry is assumed to carry a `logical_name` key, with `""` meaning no library. The source reads the key directly (`edalize/vunit.py:42`), so an entry without the key raises `KeyError` and configure aborts, although the comment at `edalize/vunit.py:38-39` says such files go into `default_lib`. The model's file record always has the field, so it cannot express this failure.
- Python object identity: ALINT-PRO's waiver records are values. `list.remove` is applied to the record as it was before renaming, which `AlintPro.RemoveNextWaiver` shows to be the entry the source removes.
- Option value types: VUnit's options dictionary is modelled as an ordered list of string-valued members plus the `vuargs` list. Vivado's options are modelled as `synth` (configure) and `hw_device` (the programming run); `part` only reaches the templates. ALINT-PRO's `gui` flag is a boolean, and an unset flag reads as false.
- Vivado's `run(remaining)` ignores its argument, and so does the model.
