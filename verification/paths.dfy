/**
  Two-argument `os.path.join` as Python's `posixpath` defines it, plus the
  notion of a path naming a direct entry of a directory.
 */
module Paths {
  import opened Fnmatch

  /** True iff the path is empty or already ends in a separator. */
  predicate EndsInSeparator(dir: string) {
    dir == [] || dir[|dir| - 1] == '/'
  }

  /** `os.path.join(dir, name)`: an absolute `name` replaces `dir`; otherwise a
      separator is inserted unless `dir` is empty or already ends in one. */
  function Join(dir: string, name: string): (p: string)
    ensures EndsWith(p, name)
    ensures |name| > 0 && name[0] == '/' ==> p == name
  {
    if |name| > 0 && name[0] == '/' then name
    else if EndsInSeparator(dir) then dir + name
    else dir + "/" + name
  }

  /** The text every path of an entry of `dir` starts with. */
  function DirPrefix(dir: string): string {
    if EndsInSeparator(dir) then dir else dir + "/"
  }

  /** `p` names an entry directly inside `dir`, not something in a subdirectory. */
  predicate DirectEntry(dir: string, p: string) {
    var prefix := DirPrefix(dir);
    prefix <= p && '/' !in p[|prefix|..]
  }

  /** Joining a name without separators yields a direct entry of the directory,
      and that name is what follows the directory prefix. */
  lemma JoinPlainName(dir: string, name: string)
    requires '/' !in name
    ensures Join(dir, name) == DirPrefix(dir) + name
    ensures DirectEntry(dir, Join(dir, name))
  {
    var p := Join(dir, name);
    assert name != [] ==> name[0] in name;
    assert p == DirPrefix(dir) + name;
    assert p[|DirPrefix(dir)|..] == name;
  }
}
