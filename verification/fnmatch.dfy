/**
  Shell-style file name matching as done by Python's `fnmatch.fnmatch` on a
  POSIX host, restricted to the two wildcards the build script's patterns use:
  `*` matches any run of characters (including the empty run) and `?` matches
  exactly one character; every other pattern character matches itself.
  Case is significant (POSIX `normcase` is the identity).
 */
module Fnmatch {

  predicate IsWildcard(c: char) {
    c == '*' || c == '?'
  }

  /** A pattern with no wildcard characters: it can only match itself. */
  predicate IsLiteral(p: string) {
    forall i :: 0 <= i < |p| ==> !IsWildcard(p[i])
  }

  /** A pattern without `*`: every character stands for exactly one. */
  predicate StarFree(p: string) {
    forall i :: 0 <= i < |p| ==> p[i] != '*'
  }

  /** True iff the whole of `name` matches the whole of `pattern`. A pattern
      without `*` only matches names of its own length. */
  function Match(name: string, pattern: string): (r: bool)
    ensures r && StarFree(pattern) ==> |name| == |pattern|
    decreases |pattern|, |name|
  {
    if pattern == [] then name == []
    else if pattern[0] == '*' then
      Match(name, pattern[1..]) || (name != [] && Match(name[1..], pattern))
    else
      name != [] && (pattern[0] == '?' || pattern[0] == name[0]) && Match(name[1..], pattern[1..])
  }

  /** `suffix` is a (possibly empty, possibly whole) tail of `s`. */
  predicate EndsWith(s: string, suffix: string) {
    |suffix| <= |s| && s[|s| - |suffix|..] == suffix
  }

  /** A literal pattern matches exactly the name spelled like it. */
  lemma {:induction false} LiteralMatch(name: string, lit: string)
    requires IsLiteral(lit)
    ensures Match(name, lit) <==> name == lit
    decreases |lit|
  {
    if lit != [] && name != [] {
      assert lit[0] != '*' && lit[0] != '?';
      assert IsLiteral(lit[1..]) by {
        forall i | 0 <= i < |lit[1..]| ensures !IsWildcard(lit[1..][i]) {
          assert lit[1..][i] == lit[i + 1];
        }
      }
      LiteralMatch(name[1..], lit[1..]);
      assert name == lit <==> name[0] == lit[0] && name[1..] == lit[1..] by {
        if name[0] == lit[0] && name[1..] == lit[1..] {
          assert name == [name[0]] + name[1..];
          assert lit == [lit[0]] + lit[1..];
        }
      }
    }
  }

  /** A suffix test peels off the first character of the subject. */
  lemma EndsWithStep(s: string, suffix: string)
    requires s != []
    ensures EndsWith(s, suffix) <==> s == suffix || EndsWith(s[1..], suffix)
  {
    if |suffix| < |s| {
      assert s[|s| - |suffix|..] == s[1..][|s| - 1 - |suffix|..];
    } else if |suffix| == |s| {
      assert s[0..] == s;
    }
  }

  /** The pattern `*` followed by a literal matches exactly the names ending in that literal. */
  lemma {:induction false} StarSuffixMatch(name: string, lit: string)
    requires IsLiteral(lit)
    ensures Match(name, "*" + lit) <==> EndsWith(name, lit)
    decreases |name|
  {
    var p := "*" + lit;
    assert p[0] == '*' && p[1..] == lit;
    LiteralMatch(name, lit);
    if name == [] {
      assert EndsWith(name, lit) <==> lit == [];
    } else {
      StarSuffixMatch(name[1..], lit);
      EndsWithStep(name, lit);
    }
  }

  /** Ending in a suffix of a suffix means ending in that shorter suffix too. */
  lemma EndsWithTransitive(s: string, mid: string, suffix: string)
    requires EndsWith(s, mid) && EndsWith(mid, suffix)
    ensures EndsWith(s, suffix)
  {
    assert s[|s| - |suffix|..] == s[|s| - |mid|..][|mid| - |suffix|..];
  }
}
