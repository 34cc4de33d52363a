/**
  The per-platform blocks of the build script: what each supported host links
  every module against, compiles with, and adds for audio (PsychPortAudio)
  and HID (PsychHID) support.
 */
module Profiles {
  import opened Wrappers

  /** Everything one platform block defines. `ldflags` records the value the
      macOS block puts into the `LDFLAGS` environment variable. */
  datatype Profile = Profile(
    osname: string,
    baseLibs: seq<string>,
    baseCompileArgs: seq<string>,
    audioLibDirs: seq<string>,
    audioLinkArgs: seq<string>,
    audioLibs: seq<string>,
    audioObjects: seq<string>,
    hidIncludes: seq<string>,
    hidLibDirs: seq<string>,
    hidLibs: seq<string>,
    hidObjects: seq<string>,
    extraFiles: map<string, seq<string>>,
    ldflags: Option<string>)

  /** The warning suppression for non-reproducible `__DATE__`/`__TIME__` use. */
  const NoDateTime: string := "-Wno-date-time"

  const PortAudio64Linux: string := "../Cohorts/PortAudio/libportaudio64Linux.a"
  const PortAudio32Linux: string := "../Cohorts/PortAudio/libportaudio32Linux.a"
  const PortAudioMac: string := "../Cohorts/PortAudio/libportaudio_osx_64.a"
  const MacFrameworks: string := "-framework Carbon -framework CoreAudio"

  /** `sys.maxsize` on 64-bit and on 32-bit CPython builds. */
  const MaxSize64: int := 0x7FFF_FFFF_FFFF_FFFF
  const MaxSize32: int := 0x7FFF_FFFF

  /** `is_64bits`: a pointer-sized maximum above 2^32 means a 64-bit interpreter. */
  function Is64Bits(maxsize: int): (r: bool)
    ensures maxsize == MaxSize64 ==> r
    ensures maxsize == MaxSize32 ==> !r
  {
    maxsize > 0x1_0000_0000
  }

  /** The `platform.system()` values a block exists for. */
  predicate IsSupported(system: string) {
    system == "Linux" || system == "Windows" || system == "Darwin"
  }

  function LinuxProfile(is64: bool): Profile {
    Profile(
      osname := "Linux",
      baseLibs := ["c", "rt"],
      baseCompileArgs := [NoDateTime],
      audioLibDirs := [],
      audioLinkArgs := [],
      audioLibs := ["asound"],
      audioObjects := if is64 then [PortAudio64Linux] else [PortAudio32Linux],
      hidIncludes := ["/usr/include/libusb-1.0"],
      hidLibDirs := [],
      hidLibs := ["dl", "usb-1.0", "X11", "Xi", "util"],
      hidObjects := [],
      extraFiles := map[],
      ldflags := None)
  }

  const WindowsProfile: Profile := Profile(
    osname := "Windows",
    baseLibs := ["kernel32", "user32", "advapi32", "winmm"],
    baseCompileArgs := [],
    audioLibDirs := ["../Cohorts/PortAudio"],
    audioLinkArgs := [],
    audioLibs := ["delayimp", "portaudio_x64"],
    audioObjects := [],
    hidIncludes := ["../Cohorts/libusb1-win32/include/libusb-1.0"],
    hidLibDirs := ["../Cohorts/libusb1-win32/MS64/dll"],
    hidLibs := ["dinput8", "libusb-1.0", "setupapi"],
    hidObjects := [],
    extraFiles := map["Psychtoolbox4Python" := ["portaudio_x64.dll", "libusb-1.0.dll"]],
    ldflags := None)

  const MacProfile: Profile := Profile(
    osname := "OSX",
    baseLibs := [],
    baseCompileArgs := [NoDateTime, "-mmacosx-version-min=10.11"],
    audioLibDirs := [],
    audioLinkArgs := [],
    audioLibs := [],
    audioObjects := [PortAudioMac],
    hidIncludes := ["../Cohorts/HID_Utilities_64Bit/", "../Cohorts/HID_Utilities_64Bit/IOHIDManager"],
    hidLibDirs := [],
    hidLibs := [],
    hidObjects := ["../Cohorts/HID_Utilities_64Bit/build/Release/libHID_Utilities64.a"],
    extraFiles := map[],
    ldflags := Some(MacFrameworks))

  /** The three `if platform.system() == ...` blocks: the profile of the block
      that runs, or `None` when no block runs. */
  function Resolve(system: string, is64: bool): (r: Option<Profile>)
    ensures r.Some? <==> IsSupported(system)
    ensures r.Some? ==> r.value.osname == (if system == "Darwin" then "OSX" else system)
    ensures r.Some? ==> (NoDateTime in r.value.baseCompileArgs <==> system != "Windows")
    ensures system == "Windows" ==> r.Some? && r.value.baseCompileArgs == []
    ensures system == "Linux" ==> r.Some? && r.value.audioObjects == [if is64 then PortAudio64Linux else PortAudio32Linux]
    ensures system == "Darwin" ==> r.Some? && r.value.audioObjects == [PortAudioMac]
    ensures r.Some? ==> (r.value.ldflags.Some? <==> system == "Darwin")
    ensures r.Some? ==> (|r.value.extraFiles| > 0 <==> system == "Windows")
  {
    if system == "Linux" then Some(LinuxProfile(is64))
    else if system == "Windows" then Some(WindowsProfile)
    else if system == "Darwin" then
      assert |MacProfile.extraFiles| == 0;
      Some(MacProfile)
    else None
  }

  /** Distinct platforms get distinct OS directory names, so a profile's
      `osname` identifies the platform it came from. */
  lemma OsnameIdentifiesPlatform(s1: string, s2: string, w1: bool, w2: bool)
    requires Resolve(s1, w1).Some? && Resolve(s2, w2).Some?
    ensures Resolve(s1, w1).value.osname == Resolve(s2, w2).value.osname <==> s1 == s2
  {
  }

  /** Pointer width matters only for the Linux audio archive: the 64-bit one
      is chosen exactly on a 64-bit interpreter, and every other field, and
      every other platform's profile, is the same for both widths. */
  lemma WidthSelectsOnlyLinuxAudio(system: string)
    ensures system != "Linux" ==> Resolve(system, true) == Resolve(system, false)
    ensures system == "Linux" ==>
              Resolve(system, true).value == Resolve(system, false).value.(audioObjects := [PortAudio64Linux])
    ensures forall w: bool :: system == "Linux" ==> (Resolve(system, w).value.audioObjects == [PortAudio64Linux] <==> w)
  {
  }
}
