/** The two path helpers the collector relies on: `os.path.dirname` (POSIX
    flavour) for the destination file, and `PurePath.stem` for naming queries. */
module Paths {

  /** `s.rfind(c)`: index of the last `c` in `s`, or -1. */
  function RFind(s: string, c: char): (r: int)
    ensures -1 <= r < |s|
    ensures r >= 0 ==> s[r] == c
    ensures forall j :: r < j < |s| ==> s[j] != c
  {
    if |s| == 0 then -1
    else if s[|s| - 1] == c then |s| - 1
    else RFind(s[..|s| - 1], c)
  }

  predicate AllChar(s: string, c: char) {
    forall j :: 0 <= j < |s| ==> s[j] == c
  }

  /** `s.rstrip(c)`: the longest prefix of `s` not ending in `c`. */
  function RStrip(s: string, c: char): (r: string)
    ensures |r| <= |s| && r == s[..|r|]
    ensures r == [] || r[|r| - 1] != c
    ensures forall j :: |r| <= j < |s| ==> s[j] == c
  {
    if |s| > 0 && s[|s| - 1] == c then RStrip(s[..|s| - 1], c) else s
  }

  /** `os.path.dirname(p)`: the text before the last '/', with trailing slashes
      removed unless it consists of slashes only. */
  function DirName(p: string): (d: string)
    ensures |d| <= RFind(p, '/') + 1 && d == p[..|d|]
    ensures RFind(p, '/') >= 0 ==> d != []
  {
    var head := p[..RFind(p, '/') + 1];
    if head != [] && !AllChar(head, '/') then RStrip(head, '/') else head
  }

  /** The directory part is empty exactly when the path holds no '/': a bare
      file name has no directory to create. */
  lemma DirNameEmpty(p: string)
    ensures DirName(p) == [] <==> '/' !in p
  {
    var i := RFind(p, '/');
    var head := p[..i + 1];
    if '/' in p {
      var j :| 0 <= j < |p| && p[j] == '/';
      assert i >= j;
      assert head != [];
    }
  }

  /** `PurePath(name).stem`: the name without its last suffix, where a suffix
      needs a '.' that is neither the first nor the last character. */
  function Stem(name: string): (stem: string)
    ensures |stem| <= |name| && stem == name[..|stem|]
    ensures stem != name ==> 0 < |stem| < |name| - 1 && name[|stem|] == '.'
  {
    var i := RFind(name, '.');
    if 0 < i < |name| - 1 then name[..i] else name
  }

  /** Whether `Path.glob('*.sql')` matches a directory entry of this name. */
  predicate IsSqlFile(name: string) {
    |name| >= 4 && name[|name| - 4..] == ".sql"
  }

  /** A query file is named after what precedes ".sql"; the bare name ".sql"
      keeps its whole name as its stem. */
  lemma StemOfSqlFile(name: string)
    requires IsSqlFile(name)
    ensures Stem(name) == if |name| > 4 then name[..|name| - 4] else name
  {
    var n := |name|;
    assert name[n - 4] == '.' && name[n - 3] == 's' && name[n - 2] == 'q' && name[n - 1] == 'l' by {
      assert name[n - 4..][0] == '.';
      assert name[n - 4..][1] == 's';
      assert name[n - 4..][2] == 'q';
      assert name[n - 4..][3] == 'l';
    }
    assert RFind(name, '.') == n - 4;
  }
}
