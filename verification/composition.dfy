/**
  The per-module composition helpers: `get_basemacros`, `get_baseincludedirs`,
  `get_basesources`, and the module-level lists they share
  (`base_macros`, `basefiles_common`, `baseincludes_common`).
 */
module Composition {
  import opened Wrappers
  import opened Fnmatch
  import opened Host
  import opened Sources

  /** One `define_macros` entry: a preprocessor symbol and its optional value. */
  datatype Macro = Macro(name: string, value: Option<string>)

  /** `base_macros`: the language markers every module is compiled with. */
  const BaseMacros: seq<Macro> := [Macro("PTBOCTAVE3MEX", None), Macro("PSYCH_LANGUAGE", Some("PSYCH_PYTHON"))]

  /** The prefix of the module-identity macro `PTBMODULE_<name>`. */
  const ModuleMacroPrefix: string := "PTBMODULE_"

  /** The glue file compiled into every module after the common base sources. */
  const GlueFile: string := "Common/Base/PythonGlue/PsychScriptingGluePython.c"

  /** No symbol is defined twice, so the macro list reads as a mapping. */
  predicate DistinctNames(ms: seq<Macro>) {
    forall i, j :: 0 <= i < j < |ms| ==> ms[i].name != ms[j].name
  }

  /** The value a symbol is defined with: `None` if it is not defined,
      `Some(None)` if it is defined without a value. */
  function Lookup(ms: seq<Macro>, symbol: string): Option<Option<string>> {
    if ms == [] then None
    else if ms[0].name == symbol then Some(ms[0].value)
    else Lookup(ms[1..], symbol)
  }

  /** A macro naming the module it is compiled into. */
  predicate IsModuleIdentity(m: Macro) {
    ModuleMacroPrefix <= m.name
  }

  /** `get_basemacros(name, osname)`: the module's identity and name macros
      ahead of the shared language markers. */
  function GetBaseMacros(name: string, osname: string): (r: seq<Macro>)
    ensures |r| == 4 && r[2..] == BaseMacros
    ensures DistinctNames(r)
    ensures IsModuleIdentity(r[0]) && r[0].name[|ModuleMacroPrefix|..] == name
    ensures forall i :: 0 < i < |r| ==> !IsModuleIdentity(r[i])
  {
    var identity := ModuleMacroPrefix + name;
    assert identity[9] == '_' != "PTBMODULENAME"[9];
    assert identity[1] == 'T' != "PSYCH_LANGUAGE"[1];
    assert identity[3] == 'M' != "PTBOCTAVE3MEX"[3];
    [Macro(identity, None), Macro("PTBMODULENAME", Some(name))] + BaseMacros
  }

  /** Read as a mapping, the macros define the module identity without a value,
      the module name, and the two language markers. */
  lemma BaseMacrosLookup(name: string, osname: string)
    ensures Lookup(GetBaseMacros(name, osname), ModuleMacroPrefix + name) == Some(None)
    ensures Lookup(GetBaseMacros(name, osname), "PTBMODULENAME") == Some(Some(name))
    ensures Lookup(GetBaseMacros(name, osname), "PTBOCTAVE3MEX") == Some(None)
    ensures Lookup(GetBaseMacros(name, osname), "PSYCH_LANGUAGE") == Some(Some("PSYCH_PYTHON"))
  {
    var r := GetBaseMacros(name, osname);
    var r1 := r[1..];
    var r2 := r1[1..];
    var r3 := r2[1..];
    assert r1[0] == Macro("PTBMODULENAME", Some(name));
    assert r2[0] == Macro("PTBOCTAVE3MEX", None);
    assert r3[0] == Macro("PSYCH_LANGUAGE", Some("PSYCH_PYTHON"));
    assert r[0].name != r1[0].name && r[0].name != r2[0].name && r[0].name != r3[0].name;
    assert Lookup(r, "PTBMODULENAME") == Lookup(r1, "PTBMODULENAME");
    assert Lookup(r, "PTBOCTAVE3MEX") == Lookup(r2, "PTBOCTAVE3MEX");
    assert Lookup(r, "PSYCH_LANGUAGE") == Lookup(r1, "PSYCH_LANGUAGE");
    assert Lookup(r1, "PSYCH_LANGUAGE") == Lookup(r2, "PSYCH_LANGUAGE");
    assert Lookup(r2, "PSYCH_LANGUAGE") == Lookup(r3, "PSYCH_LANGUAGE");
  }

  /** The macros do not depend on the OS, and they tell modules apart. */
  lemma BaseMacrosIdentifyModule(a: string, b: string, osA: string, osB: string)
    ensures GetBaseMacros(a, osA) == GetBaseMacros(a, osB)
    ensures GetBaseMacros(a, osA) == GetBaseMacros(b, osB) <==> a == b
  {
    if GetBaseMacros(a, osA) == GetBaseMacros(b, osB) {
      assert GetBaseMacros(a, osA)[1] == GetBaseMacros(b, osB)[1];
    }
  }

  /** `baseincludes_common`: the array library's headers and the shared
      infrastructure headers. */
  function BaseIncludesCommon(numpyInclude: string): seq<string> {
    [numpyInclude, "Common/Base", "Common/Screen"]
  }

  /** The four project directories a module is built from, project-relative. */
  function ModuleCommonDir(name: string): string { "Common/" + name }
  function OsBaseDir(osname: string): string { osname + "/Base" }
  function ModuleOsDir(name: string, osname: string): string { osname + "/" + name }
  const CommonBaseDir: string := "Common/Base"

  /** `get_baseincludedirs(name, osname)`: the module's common headers, the
      shared headers, then the OS base and the module's OS headers. */
  function GetBaseIncludeDirs(name: string, osname: string, numpyInclude: string): (r: seq<string>)
    ensures |r| == 6
    ensures r[0] == ModuleCommonDir(name)
    ensures r[1..4] == BaseIncludesCommon(numpyInclude)
    ensures r[4..] == [OsBaseDir(osname), ModuleOsDir(name, osname)]
  {
    [ModuleCommonDir(name)] + BaseIncludesCommon(numpyInclude) + [OsBaseDir(osname)] + [ModuleOsDir(name, osname)]
  }

  /** The paths `get_basesources` lists: the script prefixes `./` and spells the
      OS base directory with a trailing separator. */
  const CommonBasePath: string := "./" + CommonBaseDir
  function OsBasePath(osname: string): string { "./" + OsBaseDir(osname) + "/" }
  function ModuleCommonPath(name: string): string { "./" + ModuleCommonDir(name) }
  function OverridePath(name: string, osname: string): string { "./" + ModuleOsDir(name, osname) }

  /** Every directory a module's sources are listed from is on its include path. */
  lemma SourceDirsAreIncluded(name: string, osname: string, numpyInclude: string)
    ensures CommonBaseDir in GetBaseIncludeDirs(name, osname, numpyInclude)
    ensures OsBaseDir(osname) in GetBaseIncludeDirs(name, osname, numpyInclude)
    ensures ModuleCommonDir(name) in GetBaseIncludeDirs(name, osname, numpyInclude)
    ensures ModuleOsDir(name, osname) in GetBaseIncludeDirs(name, osname, numpyInclude)
  {
    var r := GetBaseIncludeDirs(name, osname, numpyInclude);
    assert r[2] == CommonBaseDir;
    assert r[4] == OsBaseDir(osname);
    assert r[5] == ModuleOsDir(name, osname);
  }

  /** `basefiles_common`: the common base sources followed by the glue file. */
  function BaseFilesCommon(fs: FileSystem): (r: Result<seq<string>, BuildError>)
    ensures r.Success? <==> CommonBasePath in fs.dirs
    ensures r.Success? ==> |r.value| >= 1 && r.value[|r.value| - 1] == GlueFile
    ensures r.Success? ==> r.value[..|r.value| - 1] == FilterSources(CommonBasePath, fs.dirs[CommonBasePath])
    ensures r.Failure? ==> !r.error.UnsupportedPlatform? && r.error.path == CommonBasePath
    ensures r.Failure? ==> r.error == ListDir(fs, CommonBasePath).error
  {
    var listed :- GetSourceFiles(fs, CommonBasePath);
    assert (listed + [GlueFile])[..|listed|] == listed;
    Success(listed + [GlueFile])
  }

  /** The override directory contributes only when something exists there. */
  function OverrideSources(fs: FileSystem, name: string, osname: string): (r: Result<seq<string>, BuildError>)
    ensures !Exists(fs, OverridePath(name, osname)) ==> r == Success([])
    ensures Exists(fs, OverridePath(name, osname)) ==> r == GetSourceFiles(fs, OverridePath(name, osname))
  {
    var path := OverridePath(name, osname);
    if Exists(fs, path) then GetSourceFiles(fs, path) else Success([])
  }

  /** The directories a module's sources need are all listable. */
  predicate ModuleDirsListable(fs: FileSystem, name: string, osname: string) {
    && (Exists(fs, OverridePath(name, osname)) ==> OverridePath(name, osname) in fs.dirs)
    && OsBasePath(osname) in fs.dirs
    && ModuleCommonPath(name) in fs.dirs
  }

  /** The filtered listing of a directory known to be listable. */
  function Listed(fs: FileSystem, path: string): (r: seq<string>)
    requires path in fs.dirs
    ensures GetSourceFiles(fs, path) == Success(r)
  {
    FilterSources(path, fs.dirs[path])
  }

  /** `get_basesources(name, osname)`: the override directory is probed and
      listed first, then the OS base and module common directories; the
      result concatenates the common files, the OS base, the module common and
      the override sources. A missing or non-directory path aborts. */
  function GetBaseSources(fs: FileSystem, name: string, osname: string, common: seq<string>): (r: Result<seq<string>, BuildError>)
    ensures r.Success? <==> ModuleDirsListable(fs, name, osname)
    ensures r.Failure? ==> !r.error.UnsupportedPlatform?
    ensures r.Failure? && Exists(fs, OverridePath(name, osname)) && OverridePath(name, osname) !in fs.dirs ==>
              r.error == NotADirectory(OverridePath(name, osname))
    ensures r.Failure? && (Exists(fs, OverridePath(name, osname)) ==> OverridePath(name, osname) in fs.dirs) ==>
              r.error.path in {OsBasePath(osname), ModuleCommonPath(name)}
    ensures r.Failure? && (Exists(fs, OverridePath(name, osname)) ==> OverridePath(name, osname) in fs.dirs) && OsBasePath(osname) !in fs.dirs ==>
              r.error.path == OsBasePath(osname)
    ensures r.Failure? && (Exists(fs, OverridePath(name, osname)) ==> OverridePath(name, osname) in fs.dirs) ==>
              r.error == (if OsBasePath(osname) !in fs.dirs then ListDir(fs, OsBasePath(osname)).error
                          else ListDir(fs, ModuleCommonPath(name)).error)
  {
    var extra :- OverrideSources(fs, name, osname);
    var osBase :- GetSourceFiles(fs, OsBasePath(osname));
    var moduleCommon :- GetSourceFiles(fs, ModuleCommonPath(name));
    Success(common + osBase + moduleCommon + extra)
  }

  /** The order of a module's sources: the common files, the OS base sources,
      the module's common sources and, only when something exists at the
      override path, the override sources last; nothing is deduplicated. */
  lemma BaseSourcesOrder(fs: FileSystem, name: string, osname: string, common: seq<string>)
    requires ModuleDirsListable(fs, name, osname)
    ensures GetBaseSources(fs, name, osname, common).Success?
    ensures common <= GetBaseSources(fs, name, osname, common).value
    ensures !Exists(fs, OverridePath(name, osname)) ==>
              GetBaseSources(fs, name, osname, common).value
              == common + Listed(fs, OsBasePath(osname)) + Listed(fs, ModuleCommonPath(name))
    ensures Exists(fs, OverridePath(name, osname)) ==>
              GetBaseSources(fs, name, osname, common).value
              == common + Listed(fs, OsBasePath(osname)) + Listed(fs, ModuleCommonPath(name))
                 + Listed(fs, OverridePath(name, osname))
  {
  }

  /** The file system with nothing at the module's override path. */
  function WithoutOverride(fs: FileSystem, name: string, osname: string): FileSystem {
    var path := OverridePath(name, osname);
    FileSystem(fs.dirs - {path}, fs.files - {path})
  }

  /** Adding an override directory only appends its sources at the very end:
      the same module without it yields exactly the sources before them. */
  lemma OverrideAppendedLast(fs: FileSystem, name: string, osname: string, common: seq<string>)
    requires OverridePath(name, osname) != OsBasePath(osname)
    requires OverridePath(name, osname) != ModuleCommonPath(name)
    requires OverridePath(name, osname) in fs.dirs
    requires GetBaseSources(fs, name, osname, common).Success?
    ensures GetBaseSources(WithoutOverride(fs, name, osname), name, osname, common).Success?
    ensures GetBaseSources(fs, name, osname, common).value
            == GetBaseSources(WithoutOverride(fs, name, osname), name, osname, common).value
               + Listed(fs, OverridePath(name, osname))
  {
    var fs' := WithoutOverride(fs, name, osname);
    BaseSourcesOrder(fs, name, osname, common);
    assert !Exists(fs', OverridePath(name, osname));
    assert fs'.dirs[OsBasePath(osname)] == fs.dirs[OsBasePath(osname)];
    assert fs'.dirs[ModuleCommonPath(name)] == fs.dirs[ModuleCommonPath(name)];
    BaseSourcesOrder(fs', name, osname, common);
  }

  /** A module's sources always hold the glue file, so they are never empty,
      and every one of them is a `.c` or `.cpp` file. */
  lemma BaseSourcesAreSourceFiles(fs: FileSystem, name: string, osname: string)
    requires BaseFilesCommon(fs).Success?
    requires GetBaseSources(fs, name, osname, BaseFilesCommon(fs).value).Success?
    ensures GlueFile in GetBaseSources(fs, name, osname, BaseFilesCommon(fs).value).value
    ensures forall x :: x in GetBaseSources(fs, name, osname, BaseFilesCommon(fs).value).value ==> HasSourceSuffix(x)
  {
    var common := BaseFilesCommon(fs).value;
    BaseSourcesOrder(fs, name, osname, common);
    var r := GetBaseSources(fs, name, osname, common).value;
    assert common[|common| - 1] == GlueFile;
    assert r[|common| - 1] == GlueFile;
    assert HasSourceSuffix(GlueFile) by {
      assert GlueFile[|GlueFile| - 2..] == ".c";
    }
    assert common == common[..|common| - 1] + [GlueFile];
    FilterYieldsSourcePaths(CommonBasePath, fs.dirs[CommonBasePath]);
    FilterYieldsSourcePaths(OsBasePath(osname), fs.dirs[OsBasePath(osname)]);
    FilterYieldsSourcePaths(ModuleCommonPath(name), fs.dirs[ModuleCommonPath(name)]);
    if Exists(fs, OverridePath(name, osname)) {
      FilterYieldsSourcePaths(OverridePath(name, osname), fs.dirs[OverridePath(name, osname)]);
    }
  }
}
