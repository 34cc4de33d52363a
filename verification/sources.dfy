/**
  `get_sourcefiles`: the C and C++ source files directly inside one directory.
 */
module Sources {
  import opened Wrappers
  import opened Fnmatch
  import opened Paths
  import opened Host

  /** The two patterns a listing entry is matched against. */
  const CPattern: string := "*.c"
  const CppPattern: string := "*.cpp"

  /** An entry is a source file when it matches either pattern. */
  predicate IsSourceName(name: string) {
    Match(name, CPattern) || Match(name, CppPattern)
  }

  /** The suffix a compiled file carries. */
  predicate HasSourceSuffix(path: string) {
    EndsWith(path, ".c") || EndsWith(path, ".cpp")
  }

  /** The glob patterns select exactly the names ending in `.c` or `.cpp`. */
  lemma SourceNameBySuffix(name: string)
    ensures IsSourceName(name) <==> HasSourceSuffix(name)
  {
    assert CPattern == "*" + ".c";
    assert CppPattern == "*" + ".cpp";
    StarSuffixMatch(name, ".c");
    StarSuffixMatch(name, ".cpp");
  }

  /** The edge cases of the patterns: the bare name `.c` is kept, while `x.cc`,
      `x.c.bak` and the upper-case `X.C` are not. */
  lemma SourceNameEdgeCases()
    ensures IsSourceName(".c") && IsSourceName("main.cpp")
    ensures !IsSourceName("x.cc") && !IsSourceName("x.c.bak") && !IsSourceName("X.C")
  {
    SourceNameBySuffix(".c");
    SourceNameBySuffix("main.cpp");
    SourceNameBySuffix("x.cc");
    SourceNameBySuffix("x.c.bak");
    SourceNameBySuffix("X.C");
  }

  /** The source entries of `listing`, each joined to `dir`, in listing order. */
  function FilterSources(dir: string, listing: seq<string>): (r: seq<string>)
    ensures |r| <= |listing|
    decreases |listing|
  {
    if listing == [] then []
    else
      var tail := FilterSources(dir, listing[1..]);
      if IsSourceName(listing[0]) then [Join(dir, listing[0])] + tail else tail
  }

  /** The filter yields exactly the joined paths of the listing's source entries:
      nothing is added and no source entry is dropped. */
  lemma {:induction false} FilterMembers(dir: string, listing: seq<string>)
    ensures forall e :: e in listing && IsSourceName(e) ==> Join(dir, e) in FilterSources(dir, listing)
    ensures forall x :: x in FilterSources(dir, listing) ==>
              exists e :: e in listing && IsSourceName(e) && x == Join(dir, e)
    decreases |listing|
  {
    if listing != [] {
      FilterMembers(dir, listing[1..]);
      assert listing == [listing[0]] + listing[1..];
      assert forall e :: e in listing[1..] ==> e in listing;
    }
  }

  /** Filtering distributes over concatenation of listings: the filter keeps the
      listing's order and neither adds nor reorders anything. */
  lemma {:induction false} FilterAppend(dir: string, a: seq<string>, b: seq<string>)
    ensures FilterSources(dir, a + b) == FilterSources(dir, a) + FilterSources(dir, b)
    decreases |a|
  {
    if a == [] {
      assert a + b == b;
    } else {
      assert (a + b)[0] == a[0];
      assert (a + b)[1..] == a[1..] + b;
      FilterAppend(dir, a[1..], b);
    }
  }

  /** One entry contributes its joined path exactly when it is a source name. */
  lemma FilterSingle(dir: string, e: string)
    ensures FilterSources(dir, [e]) == (if IsSourceName(e) then [Join(dir, e)] else [])
  {
    assert [e][1..] == [];
  }

  /** Every path the filter yields carries a `.c` or `.cpp` suffix. */
  lemma {:induction false} FilterYieldsSourcePaths(dir: string, listing: seq<string>)
    ensures forall x :: x in FilterSources(dir, listing) ==> HasSourceSuffix(x)
    decreases |listing|
  {
    if listing != [] {
      FilterYieldsSourcePaths(dir, listing[1..]);
      var e := listing[0];
      if IsSourceName(e) {
        SourceNameBySuffix(e);
        if EndsWith(e, ".c") {
          EndsWithTransitive(Join(dir, e), e, ".c");
        } else {
          EndsWithTransitive(Join(dir, e), e, ".cpp");
        }
      }
    }
  }

  /** With a listing of plain names (what `os.listdir` returns), every yielded
      path is a direct entry of `dir`: nothing comes from a subdirectory. */
  lemma {:induction false} FilterYieldsDirectEntries(dir: string, listing: seq<string>)
    requires forall e :: e in listing ==> '/' !in e
    ensures forall x :: x in FilterSources(dir, listing) ==> DirectEntry(dir, x)
    decreases |listing|
  {
    if listing != [] {
      assert forall e :: e in listing[1..] ==> e in listing;
      FilterYieldsDirectEntries(dir, listing[1..]);
      JoinPlainName(dir, listing[0]);
    }
  }

  /** The loop of `get_sourcefiles` over one listing, appending as it goes. */
  method CollectSourceFiles(dir: string, listing: seq<string>) returns (sources: seq<string>)
    ensures sources == FilterSources(dir, listing)
  {
    sources := [];
    var i := 0;
    while i < |listing|
      invariant 0 <= i <= |listing|
      invariant sources == FilterSources(dir, listing[..i])
    {
      var filename := listing[i];
      if IsSourceName(filename) {
        sources := sources + [Join(dir, filename)];
      }
      assert listing[..i + 1] == listing[..i] + [filename];
      FilterAppend(dir, listing[..i], [filename]);
      FilterSingle(dir, filename);
      i := i + 1;
    }
    assert listing[..i] == listing;
  }

  /** `get_sourcefiles(path)`: lists `path` and keeps its source entries;
      fails exactly when `os.listdir` does. */
  function GetSourceFiles(fs: FileSystem, path: string): (r: Result<seq<string>, BuildError>)
    ensures r.Success? <==> path in fs.dirs
    ensures r.Success? ==> r.value == FilterSources(path, fs.dirs[path])
    ensures r.Failure? ==> !r.error.UnsupportedPlatform? && r.error.path == path
    ensures r.Failure? ==> r.error == ListDir(fs, path).error
  {
    var listing :- ListDir(fs, path);
    Success(FilterSources(path, listing))
  }
}
