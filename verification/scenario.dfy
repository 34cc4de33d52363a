/**
  A worked example of source gathering for one module on one platform.
 */
module Scenario {
  import opened Wrappers
  import opened Fnmatch
  import opened Paths
  import opened Host
  import opened Sources
  import opened Composition

  /** The common base listing of the example: two sources around a
      non-source entry. */
  lemma CommonBaseExample(a: string, other: string, b: string)
    requires HasSourceSuffix(a) && !HasSourceSuffix(other) && HasSourceSuffix(b)
    ensures FilterSources(CommonBasePath, [a, other, b]) == [Join(CommonBasePath, a), Join(CommonBasePath, b)]
  {
    SourceNameBySuffix(a);
    SourceNameBySuffix(other);
    SourceNameBySuffix(b);
    FilterAppend(CommonBasePath, [a], [other, b]);
    FilterAppend(CommonBasePath, [other], [b]);
    FilterSingle(CommonBasePath, a);
    FilterSingle(CommonBasePath, other);
    FilterSingle(CommonBasePath, b);
    assert [a, other, b] == [a] + [other, b];
    assert [other, b] == [other] + [b];
  }

  /** The worked example for any module and OS name: the module compiles the
      common sources `a` and `b`, the glue file, the OS base source `c` and
      its own common source `d`, in that order. */
  lemma ModuleExample(fs: FileSystem, name: string, osname: string, a: string, other: string, b: string, c: string, d: string)
    requires HasSourceSuffix(a) && !HasSourceSuffix(other) && HasSourceSuffix(b)
    requires HasSourceSuffix(c) && HasSourceSuffix(d)
    requires CommonBasePath in fs.dirs && fs.dirs[CommonBasePath] == [a, other, b]
    requires OsBasePath(osname) in fs.dirs && fs.dirs[OsBasePath(osname)] == [c]
    requires ModuleCommonPath(name) in fs.dirs && fs.dirs[ModuleCommonPath(name)] == [d]
    requires !Exists(fs, OverridePath(name, osname))
    ensures BaseFilesCommon(fs) == Success([Join(CommonBasePath, a), Join(CommonBasePath, b), GlueFile])
    ensures GetBaseSources(fs, name, osname, BaseFilesCommon(fs).value)
            == Success([Join(CommonBasePath, a), Join(CommonBasePath, b), GlueFile,
                        Join(OsBasePath(osname), c), Join(ModuleCommonPath(name), d)])
  {
    CommonBaseExample(a, other, b);
    SourceNameBySuffix(c);
    SourceNameBySuffix(d);
    FilterSingle(OsBasePath(osname), c);
    FilterSingle(ModuleCommonPath(name), d);
    var common := BaseFilesCommon(fs).value;
    assert common == [Join(CommonBasePath, a), Join(CommonBasePath, b), GlueFile];
    BaseSourcesOrder(fs, name, osname, common);
    assert Listed(fs, OsBasePath(osname)) == [Join(OsBasePath(osname), c)];
    assert Listed(fs, ModuleCommonPath(name)) == [Join(ModuleCommonPath(name), d)];
    assert GetBaseSources(fs, name, osname, common).value
           == common + [Join(OsBasePath(osname), c)] + [Join(ModuleCommonPath(name), d)]
           == [Join(CommonBasePath, a), Join(CommonBasePath, b), GlueFile,
               Join(OsBasePath(osname), c), Join(ModuleCommonPath(name), d)];
  }

  /** A worked example: GetSecs on Linux, on any file system whose common
      base directory lists sources `a` and `b` around a non-source entry,
      whose Linux base directory lists source `c`, whose GetSecs common
      directory lists source `d`, and with nothing at the override path. The
      module compiles `a`, `b`, the glue file, `c` and `d`, in that order. */
  lemma GetSecsOnLinuxExample(fs: FileSystem, a: string, other: string, b: string, c: string, d: string)
    requires HasSourceSuffix(a) && !HasSourceSuffix(other) && HasSourceSuffix(b)
    requires HasSourceSuffix(c) && HasSourceSuffix(d)
    requires CommonBasePath in fs.dirs && fs.dirs[CommonBasePath] == [a, other, b]
    requires OsBasePath("Linux") in fs.dirs && fs.dirs[OsBasePath("Linux")] == [c]
    requires ModuleCommonPath("GetSecs") in fs.dirs && fs.dirs[ModuleCommonPath("GetSecs")] == [d]
    requires !Exists(fs, OverridePath("GetSecs", "Linux"))
    ensures BaseFilesCommon(fs) == Success([Join(CommonBasePath, a), Join(CommonBasePath, b), GlueFile])
    ensures GetBaseSources(fs, "GetSecs", "Linux", BaseFilesCommon(fs).value)
            == Success([Join(CommonBasePath, a), Join(CommonBasePath, b), GlueFile,
                        Join(OsBasePath("Linux"), c), Join(ModuleCommonPath("GetSecs"), d)])
  {
    ModuleExample(fs, "GetSecs", "Linux", a, other, b, c, d);
  }

  /** The path of an entry of the Linux base directory: that directory is
      spelled with a trailing separator, so no separator is doubled. */
  lemma OsBaseEntryPath()
    ensures Join(OsBasePath("Linux"), "c.c") == "./Linux/Base/c.c"
  {
    assert OsBasePath("Linux") == "./Linux/Base/";
    assert EndsInSeparator("./Linux/Base/");
  }

  /** The path of an entry of the common base directory gains a separator. */
  lemma CommonBaseEntryPath()
    ensures Join(CommonBasePath, "a.c") == "./Common/Base/a.c"
  {
    assert CommonBasePath == "./Common/Base";
    assert !EndsInSeparator("./Common/Base");
  }
}
