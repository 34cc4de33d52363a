# Psychtoolbox-3 Python build script, modelled in Dafny

This project models the build script `PsychSourceGL/Source/setup.py`, which
turns Psychtoolbox-3 "mex" sources into five CPython extension modules:
GetSecs, WaitSecs, PsychPortAudio, PsychHID and IOPort. It models what the
script computes before it calls `distutils.setup`:

- **source discovery** (`get_sourcefiles`): the `*.c` and `*.cpp` entries of
  one directory listing, each joined to the directory, in listing order;
- **per-module composition** (`get_basemacros`, `get_baseincludedirs`,
  `get_basesources`, and the shared lists `base_macros`,
  `basefiles_common` and `baseincludes_common`);
- **platform resolution**: the Linux, Windows and Darwin blocks as one
  `Profile` record per platform, with lookup returning `Option`;
- **the five `Extension` descriptors and the `setup(...)` arguments**: the
  `ext_modules` order and the package data.

The whole script is one total function, `Setup.BuildPlan`. It takes the host
facts the script reads: `platform.system()`, `sys.maxsize`,
`numpy.get_include()` and a file-system snapshot. It returns either the plan
or the first error the script would raise.

Modules (one file each):

| file | module | models |
|---|---|---|
| `wrappers.dfy` | `Wrappers` | `Option` and `Result` |
| `fnmatch.dfy` | `Fnmatch` | `fnmatch.fnmatch` for `*` and `?` |
| `paths.dfy` | `Paths` | two-argument `os.path.join` on POSIX |
| `host.dfy` | `Host` | the file system, `os.access`, `os.listdir` and the build errors |
| `sources.dfy` | `Sources` | `get_sourcefiles` |
| `composition.dfy` | `Composition` | macros, include dirs, base sources |
| `profiles.dfy` | `Profiles` | the three platform blocks and `is_64bits` |
| `setup.dfy` | `Setup` | the descriptors, source gathering and the plan |
| `scenario.dfy` | `Scenario` | a worked GetSecs-on-Linux example |

### Behaviour as the script has it

- **Glue file position.** `basefiles_common` is the common-base listing
  followed by `Common/Base/PythonGlue/PsychScriptingGluePython.c`. So in
  every module the glue file sits between the common-base sources and the
  OS-base sources.
- **Macro names.** The identity macro is `PTBMODULE_<name>` (for example
  `PTBMODULE_GetSecs`). It is followed by `PTBMODULENAME=<name>` and the
  two language markers.
- **Include directory order.** `Common/<name>`, the numpy include directory,
  `Common/Base`, `Common/Screen`, `<os>/Base`, `<os>/<name>`. PsychHID then
  adds its HID include directories.
- **No duplicate-module error.** The module list is fixed, and its five names
  are distinct (`Setup.PlanNamesAndCompileArgs`).
- **No pre-link flags on any descriptor.** The macOS block sets the `LDFLAGS`
  environment variable instead. The model keeps that value as the profile's
  `ldflags` field.
- **Error order follows the script.**
  - `./Common/Base` is listed (line 49) before the platform is checked. A
    missing common-base directory therefore wins over an unsupported
    platform.
  - An unsupported platform makes the script fail with a `NameError`; this
    is modelled as `UnsupportedPlatform`.
  - Module sources are gathered in definition order (GetSecs, WaitSecs,
    PsychPortAudio, PsychHID, IOPort). This differs from the `ext_modules`
    order (WaitSecs, GetSecs, IOPort, PsychHID, PsychPortAudio).
  - Within one module, the override path `./<os>/<name>` is probed and
    listed first, then `./<os>/Base/`, then `./Common/<name>`.
  - `os.listdir` fails with `MissingDirectory` or, when the path names a
    file, `NotADirectory`.

## Model

| member | source | states |
|---|---|---|
| Fnmatch.Match | PsychSourceGL/Source/setup.py:17 | `fnmatch.fnmatch` on POSIX for `*` and `?`: a pattern without `*` only matches names of its own length (the meaning of `*`-patterns is `Fnmatch.StarSuffixMatch`) |
| Fnmatch.LiteralMatch | PsychSourceGL/Source/setup.py:14-17 | a pattern without wildcards matches a name iff the name is spelled exactly like it |
| Fnmatch.StarSuffixMatch | PsychSourceGL/Source/setup.py:14-17 | the pattern `*` followed by a wildcard-free literal matches a name exactly when the name ends in that literal, which is the meaning of `*.c` and `*.cpp` |
| Sources.SourceNameBySuffix | PsychSourceGL/Source/setup.py:14-17 | a listing entry passes the two-pattern test iff it ends in `.c` or `.cpp` (both directions) |
| Sources.SourceNameEdgeCases | PsychSourceGL/Source/setup.py:14-17 | `.c` and `main.cpp` are kept; `x.cc`, `x.c.bak` and upper-case `X.C` are not (matching is case-sensitive) |
| Paths.Join | PsychSourceGL/Source/setup.py:18 | the joined path ends in the entry name, and an absolute entry name replaces the directory |
| Paths.JoinPlainName | PsychSourceGL/Source/setup.py:18 | joining a name without separators gives the directory, followed by a separator unless the directory is empty or already ends in one, then the name; the result is a direct entry of the directory |
| Sources.FilterSources | PsychSourceGL/Source/setup.py:12-25 | the filtered listing is never longer than the listing |
| Sources.FilterMembers | PsychSourceGL/Source/setup.py:16-18 | every source entry's joined path is in the result, and every result element is the joined path of some source entry of the listing |
| Sources.FilterAppend | PsychSourceGL/Source/setup.py:16-18 | filtering the concatenation of two listings is the concatenation of the filtered listings, so listing order is kept and nothing is reordered |
| Sources.FilterYieldsSourcePaths | PsychSourceGL/Source/setup.py:16-18 | every returned path ends in `.c` or `.cpp` |
| Sources.FilterYieldsDirectEntries | PsychSourceGL/Source/setup.py:16-25 | for a listing of plain names, every returned path is a direct entry of the listed directory; nothing comes from a subdirectory |
| Sources.CollectSourceFiles | PsychSourceGL/Source/setup.py:13-25 | the append loop over a listing returns exactly the filtered listing |
| Sources.GetSourceFiles | PsychSourceGL/Source/setup.py:12-25 | succeeds iff the path is a listable directory, then returns the filter of its listing; otherwise fails with `os.listdir`'s error for that path (NotADirectory for a file, MissingDirectory otherwise) |
| Host.ListDir | PsychSourceGL/Source/setup.py:16 | a directory yields its listing; a file gives NotADirectory; a missing path gives MissingDirectory |
| Composition.GetBaseMacros | PsychSourceGL/Source/setup.py:27-28 | four macros, no symbol defined twice, ending with `base_macros`; the first macro identifies the module by name after the `PTBMODULE_` prefix, and no other macro is an identity macro |
| Composition.BaseMacrosLookup | PsychSourceGL/Source/setup.py:27-42 | read as a mapping, `PTBMODULE_<name>` is defined without a value, `PTBMODULENAME` is the name, `PTBOCTAVE3MEX` has no value and `PSYCH_LANGUAGE` is `PSYCH_PYTHON` |
| Composition.BaseMacrosIdentifyModule | PsychSourceGL/Source/setup.py:27-28 | the macros ignore the OS name, and two modules get the same macros iff they have the same name |
| Composition.GetBaseIncludeDirs | PsychSourceGL/Source/setup.py:30-31 | six entries: the module's common directory, then `baseincludes_common`, then the OS base and the module's OS directory |
| Composition.SourceDirsAreIncluded | PsychSourceGL/Source/setup.py:30-38 | each directory `get_basesources` lists is, without its `./` prefix and trailing separator, on the module's include path |
| Composition.BaseFilesCommon | PsychSourceGL/Source/setup.py:49 | succeeds iff `./Common/Base` is a listable directory; then it is that directory's filtered listing followed by the glue file, and otherwise it fails with `os.listdir`'s error for `./Common/Base` |
| Composition.OverrideSources | PsychSourceGL/Source/setup.py:34-36 | nothing at the override path contributes no sources; something there is listed, and the listing's error, if any, is kept |
| Composition.GetBaseSources | PsychSourceGL/Source/setup.py:33-38 | succeeds iff the OS base and module common directories are listable and the override path, if anything exists there, is a directory; an override that is a file is reported first, then the `os.listdir` error of a missing OS base, then that of the module common directory |
| Composition.BaseSourcesOrder | PsychSourceGL/Source/setup.py:33-38 | the result is the common files, the OS base sources, the module common sources and, only if something exists at the override path, the override sources, concatenated in that order without deduplication |
| Composition.OverrideAppendedLast | PsychSourceGL/Source/setup.py:34-38 | adding an override directory leaves every other source in place and appends its sources at the end |
| Composition.BaseSourcesAreSourceFiles | PsychSourceGL/Source/setup.py:33-49 | with `basefiles_common` as the common part, a module's sources contain the glue file (so they are never empty) and all end in `.c` or `.cpp` |
| Profiles.Is64Bits | PsychSourceGL/Source/setup.py:52 | `is_64bits` holds for the `sys.maxsize` of a 64-bit interpreter (2^63 - 1) and fails for that of a 32-bit one (2^31 - 1) |
| Profiles.Resolve | PsychSourceGL/Source/setup.py:56-162 | a profile exists iff the system is Linux, Windows or Darwin; Darwin's directory name is `OSX`; `-Wno-date-time` is used off Windows only, and Windows compiles with no extra arguments; Linux picks the PortAudio archive by width and macOS the macOS one; only macOS sets `LDFLAGS`, and only Windows ships extra files |
| Profiles.OsnameIdentifiesPlatform | PsychSourceGL/Source/setup.py:56-113 | two supported systems get the same OS directory name iff they are the same system |
| Profiles.WidthSelectsOnlyLinuxAudio | PsychSourceGL/Source/setup.py:52-72 | pointer width changes nothing except the Linux audio archive, which is the 64-bit one exactly on a 64-bit interpreter |
| Setup.Describe | PsychSourceGL/Source/setup.py:164-217 | a descriptor carries the module's name, its gathered sources and the profile's compile arguments, and it links at least the base libraries |
| Setup.DescribeIsByCapability | PsychSourceGL/Source/setup.py:164-217 | the five descriptors are all one uniform rule: base fields for every module, audio extras for PsychPortAudio only, HID extras for PsychHID only |
| Setup.LinkInputsTraceToProfile | PsychSourceGL/Source/setup.py:171-216 | every library and object a descriptor links comes from the profile; a descriptor links exactly the base libraries iff it adds no extra libraries |
| Setup.GatherSources | PsychSourceGL/Source/setup.py:164-217 | gathering succeeds iff every module's directories are listable; then each module's sources are its `get_basesources` result; a failure is the `get_basesources` error of some module, never an unsupported platform |
| Setup.BuildPlan | PsychSourceGL/Source/setup.py:49-227 | a plan exists iff `./Common/Base` is listable, the platform is supported and every module's directories are listable; the plan has five modules; an unlistable common base fails with `os.listdir`'s error for it, before the platform is checked; then an unsupported platform fails with UnsupportedPlatform; otherwise a failure is the module-gathering error |
| Setup.GatheredSourcesWellFormed | PsychSourceGL/Source/setup.py:164-217 | each gathered module's sources start with `basefiles_common`, hold the glue file and list only `.c`/`.cpp` files |
| Setup.AssemblePlan | PsychSourceGL/Source/setup.py:219-227 | `ext_modules` has five entries, and position `i` is the descriptor of the `i`-th module of the order WaitSecs, GetSecs, IOPort, PsychHID, PsychPortAudio, built from that module's own sources |
| Setup.PlanNamesAndCompileArgs | PsychSourceGL/Source/setup.py:164-226 | the five plan entries are named after the plan order, no two share a name, and all use the profile's compile arguments |
| Setup.PlanPackage | PsychSourceGL/Source/setup.py:219-225 | the package, its name and the extension package are `Psychtoolbox4Python`, and the package data is the platform's extra files |
| Setup.PlanPlainModules | PsychSourceGL/Source/setup.py:164-217 | WaitSecs, GetSecs and IOPort link the base libraries only, with no library dirs, link arguments or objects |
| Setup.PlanHidModule | PsychSourceGL/Source/setup.py:197-207 | PsychHID appends the HID include dirs and links the base and HID libraries, HID library dirs and HID objects |
| Setup.PlanAudioModule | PsychSourceGL/Source/setup.py:184-195 | PsychPortAudio links the base and audio libraries, audio library dirs, link arguments and objects |
| Setup.PlanEntryIsDescribedModule | PsychSourceGL/Source/setup.py:164-226 | end to end: entry `i` of a successful plan is the descriptor of the `i`-th module of the plan order, built against the resolved platform profile from that module's `get_basesources` result |
| Setup.PlanOrderDistinct | PsychSourceGL/Source/setup.py:226 | no module appears twice in `ext_modules` |
| Setup.ModuleNameInjective | PsychSourceGL/Source/setup.py:165-210 | the five `name` assignments give five distinct names: two modules share a name iff they are the same module |
| Setup.PlanSourcesWellFormed | PsychSourceGL/Source/setup.py:33-49 | in a successful plan, every module's sources start with `basefiles_common`, contain the glue file and are all `.c`/`.cpp` files |
| Scenario.CommonBaseExample | PsychSourceGL/Source/setup.py:12-25 | a listing of two sources around a non-source entry yields the two joined sources in listing order |
| Scenario.ModuleExample | PsychSourceGL/Source/setup.py:33-49 | for any module and OS name with no override directory, the module compiles the common sources, the glue file, the OS base source and its own common source, in that order |
| Scenario.GetSecsOnLinuxExample | PsychSourceGL/Source/setup.py:33-49 | on Linux with no override directory, GetSecs compiles the common sources, the glue file, the Linux base source and its own common source, in that order |
| Scenario.OsBaseEntryPath | PsychSourceGL/Source/setup.py:38 | the OS base directory is spelled with a trailing separator, so its entries are joined without doubling it |
| Scenario.CommonBaseEntryPath | PsychSourceGL/Source/setup.py:49 | entries of `./Common/Base` are joined with one separator |

## Left out

- **The `distutils` toolchain.** The `setup` call and the `Extension` class
  are modelled as plain records (`Setup.Plan`, `Setup.Extension`). Compiling,
  linking and packaging are outside the model.
- **The `print` calls.** They report the platform and have no effect on the
  plan.
- **The `os.environ['LDFLAGS']` assignment.** It is a process-wide side
  effect. It is recorded only as the macOS profile's `ldflags` value.
- **The commented-out recursive `os.walk` variant and the disabled
  `Py_LIMITED_API` macro.** Neither is active code.
- **`platform.system()`, `sys.maxsize` and `numpy.get_include()`.** These
  are inputs (`Setup.HostFacts`), not computed.
- **The file system.** It is a snapshot keyed by the exact path strings the
  script passes. Paths that alias the same directory (`./Linux/Base/` and
  `./Linux/Base`, symbolic links) are not identified with each other.
  `os.listdir` order is the order in the snapshot.
- **Other file-system failures.** Errors besides a missing path or a
  non-directory (permissions, I/O errors) are not modelled.
- **Fnmatch.Match:** bracket classes (`[...]`) are not interpreted, because
  the script's patterns use none.
- **Windows case and separators.** Windows case folding (`os.path.normcase`)
  and `ntpath` joining are not modelled. Matching is case-sensitive and
  joining follows POSIX on every platform.
- **Paths.Join:** only the two-argument form is modelled, since the script
  calls it with two arguments.
- **Sources.FilterSources:** its own contract bounds only the length. Its
  contents and order are stated by `Sources.FilterMembers`,
  `Sources.FilterAppend`, `Sources.FilterYieldsSourcePaths` and
  `Sources.FilterYieldsDirectEntries`.
- **Setup.GatherSources:** the contract says a failure is the error of some
  module's `get_basesources`, but not which module's error is reported when
  several modules fail. The body follows the script's definition order.
- **Setup.BuildPlan:** a module failure is reported as `Setup.GatherSources`'s
  error, so when several modules fail the contract does not say which one
  wins (see `Setup.GatherSources`).
