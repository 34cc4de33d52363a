/**
  The five extension module descriptors and the plan handed to `setup`.
 */
module Setup {
  import opened Wrappers
  import opened Host
  import opened Sources
  import opened Composition
  import opened Profiles

  /** The extension modules the script builds. */
  datatype Module = GetSecs | WaitSecs | PsychPortAudio | PsychHID | IOPort

  function ModuleName(m: Module): string {
    match m
    case GetSecs => "GetSecs"
    case WaitSecs => "WaitSecs"
    case PsychPortAudio => "PsychPortAudio"
    case PsychHID => "PsychHID"
    case IOPort => "IOPort"
  }

  /** One `Extension(...)` record; arguments the script leaves out are empty. */
  datatype Extension = Extension(
    name: string,
    compileArgs: seq<string>,
    macros: seq<Macro>,
    includeDirs: seq<string>,
    sources: seq<string>,
    libraryDirs: seq<string>,
    libraries: seq<string>,
    linkArgs: seq<string>,
    objects: seq<string>)

  /** The descriptor the script writes out for module `m`, given the active
      profile, the array library's include path and the module's sources. */
  function Describe(m: Module, p: Profile, numpyInclude: string, sources: seq<string>): (e: Extension)
    ensures e.name == ModuleName(m) && e.sources == sources
    ensures e.compileArgs == p.baseCompileArgs
    ensures p.baseLibs <= e.libraries
  {
    var name := ModuleName(m);
    var macros := GetBaseMacros(name, p.osname);
    var includes := GetBaseIncludeDirs(name, p.osname, numpyInclude);
    match m
    case GetSecs | WaitSecs | IOPort =>
      Extension(name, p.baseCompileArgs, macros, includes, sources, [], p.baseLibs, [], [])
    case PsychPortAudio =>
      Extension(name, p.baseCompileArgs, macros, includes, sources,
                p.audioLibDirs, p.baseLibs + p.audioLibs, p.audioLinkArgs, p.audioObjects)
    case PsychHID =>
      Extension(name, p.baseCompileArgs, macros, includes + p.hidIncludes, sources,
                p.hidLibDirs, p.baseLibs + p.hidLibs, [], p.hidObjects)
  }

  /** The optional features a module pulls platform extras in for. */
  datatype Capability = Audio | Hid

  function Capabilities(m: Module): set<Capability> {
    match m
    case PsychPortAudio => {Audio}
    case PsychHID => {Hid}
    case _ => {}
  }

  /** `xs` when the capability is declared, nothing otherwise. */
  function IfDeclared(c: Capability, caps: set<Capability>, xs: seq<string>): seq<string> {
    if c in caps then xs else []
  }

  /** A descriptor built uniformly from declared capabilities: every module
      gets the base fields, and each capability adds its profile extras. */
  function ByCapability(name: string, caps: set<Capability>, p: Profile, numpyInclude: string, sources: seq<string>): Extension {
    Extension(
      name := name,
      compileArgs := p.baseCompileArgs,
      macros := GetBaseMacros(name, p.osname),
      includeDirs := GetBaseIncludeDirs(name, p.osname, numpyInclude) + IfDeclared(Hid, caps, p.hidIncludes),
      sources := sources,
      libraryDirs := IfDeclared(Audio, caps, p.audioLibDirs) + IfDeclared(Hid, caps, p.hidLibDirs),
      libraries := p.baseLibs + IfDeclared(Audio, caps, p.audioLibs) + IfDeclared(Hid, caps, p.hidLibs),
      linkArgs := IfDeclared(Audio, caps, p.audioLinkArgs),
      objects := IfDeclared(Audio, caps, p.audioObjects) + IfDeclared(Hid, caps, p.hidObjects))
  }

  /** The five hand-written descriptors are exactly the capability-driven ones:
      GetSecs, WaitSecs and IOPort declare nothing, PsychPortAudio declares
      audio and PsychHID declares HID. */
  lemma DescribeIsByCapability(m: Module, p: Profile, numpyInclude: string, sources: seq<string>)
    ensures Describe(m, p, numpyInclude, sources) == ByCapability(ModuleName(m), Capabilities(m), p, numpyInclude, sources)
  {
    match m
    case GetSecs =>
    case WaitSecs =>
    case IOPort =>
    case PsychPortAudio =>
      assert p.audioLibDirs + [] == p.audioLibDirs;
      assert p.baseLibs + p.audioLibs + [] == p.baseLibs + p.audioLibs;
      assert p.audioObjects + [] == p.audioObjects;
    case PsychHID =>
      assert [] + p.hidLibDirs == p.hidLibDirs;
      assert p.baseLibs + [] + p.hidLibs == p.baseLibs + p.hidLibs;
      assert [] + p.hidObjects == p.hidObjects;
  }

  /** Every library and object a descriptor links traces back to the profile. */
  lemma LinkInputsTraceToProfile(m: Module, p: Profile, numpyInclude: string, sources: seq<string>)
    ensures forall l :: l in Describe(m, p, numpyInclude, sources).libraries ==>
              l in p.baseLibs || l in p.audioLibs || l in p.hidLibs
    ensures forall o :: o in Describe(m, p, numpyInclude, sources).objects ==>
              o in p.audioObjects || o in p.hidObjects
    ensures Describe(m, p, numpyInclude, sources).libraries == p.baseLibs <==>
              (m !in {PsychPortAudio, PsychHID} || (m == PsychPortAudio && p.audioLibs == []) || (m == PsychHID && p.hidLibs == []))
  {
    var e := Describe(m, p, numpyInclude, sources);
    if m == PsychPortAudio && e.libraries == p.baseLibs {
      assert |p.audioLibs| == 0;
    }
    if m == PsychHID && e.libraries == p.baseLibs {
      assert |p.hidLibs| == 0;
    }
  }

  /** The order of `ext_modules` handed to `setup`. The script defines (and so
      gathers sources for) the modules in a different order: GetSecs,
      WaitSecs, PsychPortAudio, PsychHID, IOPort. */
  const PlanOrder: seq<Module> := [WaitSecs, GetSecs, IOPort, PsychHID, PsychPortAudio]

  /** No module is listed twice in the plan order. */
  lemma PlanOrderDistinct(i: nat, j: nat)
    requires i < j < |PlanOrder|
    ensures PlanOrder[i] != PlanOrder[j]
  {
  }

  /** Distinct modules have distinct names. */
  lemma ModuleNameInjective(m1: Module, m2: Module)
    ensures ModuleName(m1) == ModuleName(m2) <==> m1 == m2
  {
    if m1 != m2 {
      assert ModuleName(m1)[0] != ModuleName(m2)[0] || |ModuleName(m1)| != |ModuleName(m2)|;
    }
  }

  /** The host facts the script reads: `platform.system()`, `sys.maxsize`,
      `numpy.get_include()` and the file system. */
  datatype HostFacts = HostFacts(system: string, maxsize: int, numpyInclude: string, fs: FileSystem)

  /** The sources gathered for each of the five modules. */
  datatype ModuleSources = ModuleSources(
    getSecs: seq<string>,
    waitSecs: seq<string>,
    portAudio: seq<string>,
    hid: seq<string>,
    ioPort: seq<string>)

  function SourcesOf(s: ModuleSources, m: Module): seq<string> {
    match m
    case GetSecs => s.getSecs
    case WaitSecs => s.waitSecs
    case PsychPortAudio => s.portAudio
    case PsychHID => s.hid
    case IOPort => s.ioPort
  }

  /** Every module's source directories are listable under `osname`. */
  predicate AllModulesListable(fs: FileSystem, osname: string) {
    forall m: Module :: ModuleDirsListable(fs, ModuleName(m), osname)
  }

  /** Five per-module results, read back through `SourcesOf`. */
  lemma EachModuleGathered(fs: FileSystem, osname: string, common: seq<string>, s: ModuleSources)
    requires GetBaseSources(fs, ModuleName(GetSecs), osname, common) == Success(s.getSecs)
    requires GetBaseSources(fs, ModuleName(WaitSecs), osname, common) == Success(s.waitSecs)
    requires GetBaseSources(fs, ModuleName(PsychPortAudio), osname, common) == Success(s.portAudio)
    requires GetBaseSources(fs, ModuleName(PsychHID), osname, common) == Success(s.hid)
    requires GetBaseSources(fs, ModuleName(IOPort), osname, common) == Success(s.ioPort)
    ensures forall m: Module :: GetBaseSources(fs, ModuleName(m), osname, common) == Success(SourcesOf(s, m))
  {
    forall m: Module
      ensures GetBaseSources(fs, ModuleName(m), osname, common) == Success(SourcesOf(s, m))
    {
      match m
      case GetSecs =>
      case WaitSecs =>
      case PsychPortAudio =>
      case PsychHID =>
      case IOPort =>
    }
  }

  /** `get_basesources` for the five modules in the order the script defines
      them (GetSecs, WaitSecs, PsychPortAudio, PsychHID, IOPort), stopping at
      the first failure. */
  function GatherSources(fs: FileSystem, osname: string, common: seq<string>): (r: Result<ModuleSources, BuildError>)
    ensures r.Success? <==> AllModulesListable(fs, osname)
    ensures r.Success? ==> forall m: Module ::
              GetBaseSources(fs, ModuleName(m), osname, common) == Success(SourcesOf(r.value, m))
    ensures r.Failure? ==> !r.error.UnsupportedPlatform?
    ensures r.Failure? ==> exists m: Module :: GetBaseSources(fs, ModuleName(m), osname, common) == Failure(r.error)
  {
    var getSecs := GetBaseSources(fs, ModuleName(GetSecs), osname, common);
    var waitSecs := GetBaseSources(fs, ModuleName(WaitSecs), osname, common);
    var portAudio := GetBaseSources(fs, ModuleName(PsychPortAudio), osname, common);
    var hid := GetBaseSources(fs, ModuleName(PsychHID), osname, common);
    var ioPort := GetBaseSources(fs, ModuleName(IOPort), osname, common);
    if getSecs.Failure? then
      assert GetBaseSources(fs, ModuleName(GetSecs), osname, common) == Failure(getSecs.error);
      Failure(getSecs.error)
    else if waitSecs.Failure? then
      assert GetBaseSources(fs, ModuleName(WaitSecs), osname, common) == Failure(waitSecs.error);
      Failure(waitSecs.error)
    else if portAudio.Failure? then
      assert GetBaseSources(fs, ModuleName(PsychPortAudio), osname, common) == Failure(portAudio.error);
      Failure(portAudio.error)
    else if hid.Failure? then
      assert GetBaseSources(fs, ModuleName(PsychHID), osname, common) == Failure(hid.error);
      Failure(hid.error)
    else if ioPort.Failure? then
      assert GetBaseSources(fs, ModuleName(IOPort), osname, common) == Failure(ioPort.error);
      Failure(ioPort.error)
    else
      var gathered := ModuleSources(getSecs.value, waitSecs.value, portAudio.value, hid.value, ioPort.value);
      EachModuleGathered(fs, osname, common, gathered);
      Success(gathered)
  }

  /** The arguments of the `setup(...)` call. */
  datatype Plan = Plan(
    name: string,
    version: string,
    description: string,
    packages: seq<string>,
    packageDir: map<string, string>,
    packageData: map<string, seq<string>>,
    extPackage: string,
    modules: seq<Extension>)

  const PackageName: string := "Psychtoolbox4Python"

  /** One value per module, listed in plan order. */
  function InPlanOrder<T>(f: Module -> T): (r: seq<T>)
    ensures |r| == |PlanOrder|
    ensures forall i :: 0 <= i < |PlanOrder| ==> r[i] == f(PlanOrder[i])
  {
    [f(WaitSecs), f(GetSecs), f(IOPort), f(PsychHID), f(PsychPortAudio)]
  }

  /** The `setup(...)` call: the five descriptors, listed in plan order, and
      the profile's extra files as package data. */
  function AssemblePlan(p: Profile, numpyInclude: string, s: ModuleSources): (plan: Plan)
    ensures |plan.modules| == |PlanOrder|
    ensures forall i :: 0 <= i < |PlanOrder| ==>
              plan.modules[i] == Describe(PlanOrder[i], p, numpyInclude, SourcesOf(s, PlanOrder[i]))
  {
    var modules := InPlanOrder((m: Module) => Describe(m, p, numpyInclude, SourcesOf(s, m)));
    Plan(
      name := PackageName,
      version := "0.1",
      description := "Psychtoolbox-3 mex files ported to CPython extension modules.",
      packages := [PackageName],
      packageDir := map[PackageName := "../../Psychtoolbox/PsychPython"],
      packageData := p.extraFiles,
      extPackage := PackageName,
      modules := modules)
  }

  /** Everything the script needs from the host to reach `setup`. */
  predicate Buildable(h: HostFacts) {
    && CommonBasePath in h.fs.dirs
    && IsSupported(h.system)
    && AllModulesListable(h.fs, Resolve(h.system, Is64Bits(h.maxsize)).value.osname)
  }

  /** The whole script: the common base files are listed first, then the
      platform block runs, then every module's sources are gathered and the
      plan is assembled. Any failure aborts with no plan. */
  function BuildPlan(h: HostFacts): (r: Result<Plan, BuildError>)
    ensures r.Success? <==> Buildable(h)
    ensures r.Success? ==> |r.value.modules| == |PlanOrder|
    ensures CommonBasePath !in h.fs.dirs ==> r.Failure? && !r.error.UnsupportedPlatform? && r.error.path == CommonBasePath
    ensures CommonBasePath in h.fs.dirs && !IsSupported(h.system) ==> r == Failure(UnsupportedPlatform(h.system))
    ensures CommonBasePath !in h.fs.dirs ==> r == Failure(ListDir(h.fs, CommonBasePath).error)
    ensures CommonBasePath in h.fs.dirs && IsSupported(h.system) && r.Failure? ==>
              r.error == GatherSources(h.fs, PlanProfile(h).osname, BaseFilesCommon(h.fs).value).error
  {
    var common :- BaseFilesCommon(h.fs);
    var profile := Resolve(h.system, Is64Bits(h.maxsize));
    if profile.None? then Failure(UnsupportedPlatform(h.system))
    else
      var sources :- GatherSources(h.fs, profile.value.osname, common);
      Success(AssemblePlan(profile.value, h.numpyInclude, sources))
  }

  /** The profile a supported host resolves to. */
  function PlanProfile(h: HostFacts): Profile
    requires IsSupported(h.system)
  {
    Resolve(h.system, Is64Bits(h.maxsize)).value
  }

  /** A successful plan is the assembly of the gathered sources against the
      resolved profile. */
  lemma PlanUnfold(h: HostFacts)
    requires Buildable(h)
    ensures IsSupported(h.system) && BaseFilesCommon(h.fs).Success?
    ensures GatherSources(h.fs, PlanProfile(h).osname, BaseFilesCommon(h.fs).value).Success?
    ensures BuildPlan(h).value
            == AssemblePlan(PlanProfile(h), h.numpyInclude, GatherSources(h.fs, PlanProfile(h).osname, BaseFilesCommon(h.fs).value).value)
  {
  }

  /** The modules of a plan are named after the plan order, so no two share a
      name, and every one compiles with the profile's base arguments. */
  lemma PlanNamesAndCompileArgs(p: Profile, numpyInclude: string, s: ModuleSources)
    ensures |AssemblePlan(p, numpyInclude, s).modules| == |PlanOrder|
    ensures forall i :: 0 <= i < |PlanOrder| ==>
              && AssemblePlan(p, numpyInclude, s).modules[i].name == ModuleName(PlanOrder[i])
              && AssemblePlan(p, numpyInclude, s).modules[i].compileArgs == p.baseCompileArgs
    ensures forall i, j :: 0 <= i < j < |PlanOrder| ==>
              AssemblePlan(p, numpyInclude, s).modules[i].name != AssemblePlan(p, numpyInclude, s).modules[j].name
  {
    var plan := AssemblePlan(p, numpyInclude, s);
    forall i, j | 0 <= i < j < |PlanOrder|
      ensures plan.modules[i].name != plan.modules[j].name
    {
      PlanOrderDistinct(i, j);
      ModuleNameInjective(PlanOrder[i], PlanOrder[j]);
    }
  }

  /** The package data is the profile's extra files, under the package name. */
  lemma PlanPackage(p: Profile, numpyInclude: string, s: ModuleSources)
    ensures AssemblePlan(p, numpyInclude, s).packageData == p.extraFiles
    ensures AssemblePlan(p, numpyInclude, s).name == PackageName
    ensures AssemblePlan(p, numpyInclude, s).packages == [PackageName]
    ensures AssemblePlan(p, numpyInclude, s).extPackage == PackageName
  {
  }

  /** WaitSecs, GetSecs and IOPort (the first three plan entries) link the base
      libraries and nothing else. */
  lemma PlanPlainModules(p: Profile, numpyInclude: string, s: ModuleSources, i: nat)
    requires i < 3
    ensures AssemblePlan(p, numpyInclude, s).modules[i].name in {"WaitSecs", "GetSecs", "IOPort"}
    ensures AssemblePlan(p, numpyInclude, s).modules[i].libraries == p.baseLibs
    ensures AssemblePlan(p, numpyInclude, s).modules[i].libraryDirs == []
    ensures AssemblePlan(p, numpyInclude, s).modules[i].linkArgs == []
    ensures AssemblePlan(p, numpyInclude, s).modules[i].objects == []
  {
  }

  /** PsychHID (the fourth plan entry) adds the HID include dirs after the base
      ones and links the HID library dirs, libraries and objects. */
  lemma PlanHidModule(p: Profile, numpyInclude: string, s: ModuleSources)
    ensures AssemblePlan(p, numpyInclude, s).modules[3].name == "PsychHID"
    ensures AssemblePlan(p, numpyInclude, s).modules[3].includeDirs
            == GetBaseIncludeDirs("PsychHID", p.osname, numpyInclude) + p.hidIncludes
    ensures AssemblePlan(p, numpyInclude, s).modules[3].libraries == p.baseLibs + p.hidLibs
    ensures AssemblePlan(p, numpyInclude, s).modules[3].libraryDirs == p.hidLibDirs
    ensures AssemblePlan(p, numpyInclude, s).modules[3].objects == p.hidObjects
  {
  }

  /** PsychPortAudio (the last plan entry) links the audio library dirs,
      libraries, link arguments and objects after the base libraries. */
  lemma PlanAudioModule(p: Profile, numpyInclude: string, s: ModuleSources)
    ensures AssemblePlan(p, numpyInclude, s).modules[4].name == "PsychPortAudio"
    ensures AssemblePlan(p, numpyInclude, s).modules[4].libraries == p.baseLibs + p.audioLibs
    ensures AssemblePlan(p, numpyInclude, s).modules[4].libraryDirs == p.audioLibDirs
    ensures AssemblePlan(p, numpyInclude, s).modules[4].linkArgs == p.audioLinkArgs
    ensures AssemblePlan(p, numpyInclude, s).modules[4].objects == p.audioObjects
  {
  }

  /** End to end: entry `i` of a successful plan is the descriptor of the
      `i`-th module in plan order, built against the resolved profile from
      that module's `get_basesources` result. */
  lemma PlanEntryIsDescribedModule(h: HostFacts, i: nat)
    requires Buildable(h) && i < |PlanOrder|
    ensures BaseFilesCommon(h.fs).Success?
    ensures GetBaseSources(h.fs, ModuleName(PlanOrder[i]), PlanProfile(h).osname, BaseFilesCommon(h.fs).value).Success?
    ensures BuildPlan(h).value.modules[i]
            == Describe(PlanOrder[i], PlanProfile(h), h.numpyInclude,
                        GetBaseSources(h.fs, ModuleName(PlanOrder[i]), PlanProfile(h).osname, BaseFilesCommon(h.fs).value).value)
  {
    PlanUnfold(h);
  }

  /** Every gathered source list starts with the common base files, holds the
      glue file and lists only `.c` and `.cpp` files. */
  lemma GatheredSourcesWellFormed(fs: FileSystem, osname: string, m: Module)
    requires BaseFilesCommon(fs).Success?
    requires GatherSources(fs, osname, BaseFilesCommon(fs).value).Success?
    ensures BaseFilesCommon(fs).value <= SourcesOf(GatherSources(fs, osname, BaseFilesCommon(fs).value).value, m)
    ensures GlueFile in SourcesOf(GatherSources(fs, osname, BaseFilesCommon(fs).value).value, m)
    ensures forall x :: x in SourcesOf(GatherSources(fs, osname, BaseFilesCommon(fs).value).value, m) ==> HasSourceSuffix(x)
  {
    var common := BaseFilesCommon(fs).value;
    assert GetBaseSources(fs, ModuleName(m), osname, common)
           == Success(SourcesOf(GatherSources(fs, osname, common).value, m));
    BaseSourcesOrder(fs, ModuleName(m), osname, common);
    BaseSourcesAreSourceFiles(fs, ModuleName(m), osname);
  }

  /** Every module of a successful plan compiles a list of `.c` and `.cpp`
      files that starts with the common base files, which end in the glue
      file, so no module's source list is empty. */
  lemma PlanSourcesWellFormed(h: HostFacts, i: nat)
    requires Buildable(h) && i < |PlanOrder|
    ensures BaseFilesCommon(h.fs).Success?
    ensures BaseFilesCommon(h.fs).value <= BuildPlan(h).value.modules[i].sources
    ensures GlueFile in BuildPlan(h).value.modules[i].sources
    ensures forall x :: x in BuildPlan(h).value.modules[i].sources ==> HasSourceSuffix(x)
  {
    PlanUnfold(h);
    var gathered := GatherSources(h.fs, PlanProfile(h).osname, BaseFilesCommon(h.fs).value);
    GatheredSourcesWellFormed(h.fs, PlanProfile(h).osname, PlanOrder[i]);
    assert BuildPlan(h).value.modules[i].sources == SourcesOf(gathered.value, PlanOrder[i]);
  }
}
