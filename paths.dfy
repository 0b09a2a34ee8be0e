/**
 * The two pieces of path arithmetic the core relies on: the final component
 * of a path (`Path.name`) and its extension (`Path.suffix`), plus ASCII
 * lower-casing for case-insensitive extension checks.
 */
module Paths {
  import opened Wrappers

  const Separator: char := '/'

  /** Position of the last occurrence of `c` in `s`, if any. */
  function LastIndexOf(s: string, c: char): (r: Option<nat>)
    ensures r.Some? ==> r.value < |s| && s[r.value] == c && forall j :: r.value < j < |s| ==> s[j] != c
    ensures r.None? ==> forall j :: 0 <= j < |s| ==> s[j] != c
  {
    if s == [] then None
    else if s[|s| - 1] == c then Some(|s| - 1)
    else LastIndexOf(s[..|s| - 1], c)
  }

  /** `Path(path).name`: the text after the last separator (the whole path when there is none). */
  function Name(path: string): (n: string)
    ensures |n| <= |path| && forall j :: 0 <= j < |n| ==> n[j] == path[|path| - |n| + j]
    ensures forall j :: 0 <= j < |n| ==> n[j] != Separator
    ensures Separator !in path ==> n == path
  {
    match LastIndexOf(path, Separator)
    case None => path
    case Some(i) => path[i + 1..]
  }

  /** The directory part: everything before the last separator ("" when there is none). */
  function Parent(path: string): (p: string)
    ensures Separator in path ==> path == p + [Separator] + Name(path)
    ensures Separator !in path ==> p == ""
  {
    match LastIndexOf(path, Separator)
    case None => ""
    case Some(i) => path[..i]
  }

  /** `dir / name`: a child path. */
  function Join(dir: string, name: string): string
  {
    dir + [Separator] + name
  }

  /** A child's name and parent are the parts it was joined from. */
  lemma {:induction false} JoinSplits(dir: string, name: string)
    requires Separator !in name
    ensures Name(Join(dir, name)) == name && Parent(Join(dir, name)) == dir
  {
    var path := Join(dir, name);
    assert path[|dir|] == Separator;
    assert forall j :: |dir| < j < |path| ==> path[j] == name[j - |dir| - 1];
    assert LastIndexOf(path, Separator) == Some(|dir|);
    assert path[|dir| + 1..] == name;
    assert path[..|dir|] == dir;
  }

  /** `Path.suffix`: from the last dot of the name, when that dot is neither its first nor its last character. */
  function Suffix(name: string): (x: string)
    ensures x == "" || (|x| >= 2 && |x| < |name| && x[0] == '.')
    ensures forall j :: 0 <= j < |x| ==> x[j] == name[|name| - |x| + j]
    ensures x != "" ==> forall j :: 1 <= j < |x| ==> x[j] != '.'
  {
    match LastIndexOf(name, '.')
    case None => ""
    case Some(i) => if 0 < i < |name| - 1 then name[i..] else ""
  }

  /** A name ending in a dotted extension, with something before it, has that extension as its suffix. */
  lemma {:induction false} SuffixOfStem(stem: string, ext: string)
    requires |stem| > 0 && |ext| >= 2 && ext[0] == '.'
    requires forall j :: 1 <= j < |ext| ==> ext[j] != '.'
    ensures Suffix(stem + ext) == ext
  {
    var n := stem + ext;
    assert n[|stem|] == '.';
    assert forall j :: |stem| < j < |n| ==> n[j] == ext[j - |stem|];
    assert LastIndexOf(n, '.') == Some(|stem|);
    assert n[|stem|..] == ext;
  }

  /** ASCII lower-casing of one character. */
  function LowerChar(c: char): (d: char)
    ensures 'A' <= c <= 'Z' ==> 'a' <= d <= 'z'
    ensures !('A' <= c <= 'Z') ==> d == c
  {
    if 'A' <= c <= 'Z' then (c as int - 'A' as int + 'a' as int) as char else c
  }

  /** `str.lower()` on ASCII text. */
  function Lower(s: string): (t: string)
    ensures |t| == |s|
    ensures forall j :: 0 <= j < |s| ==> t[j] == LowerChar(s[j])
  {
    seq(|s|, j requires 0 <= j < |s| => LowerChar(s[j]))
  }

  /** Lower-casing keeps every dot where it was, so it commutes with taking the suffix. */
  lemma {:induction false} LastIndexOfLower(s: string, c: char)
    requires !('A' <= c <= 'Z') && !('a' <= c <= 'z')
    ensures LastIndexOf(Lower(s), c) == LastIndexOf(s, c)
  {
    if s != [] {
      assert Lower(s)[|s| - 1] == c <==> s[|s| - 1] == c;
      assert Lower(s)[..|s| - 1] == Lower(s[..|s| - 1]);
      LastIndexOfLower(s[..|s| - 1], c);
    }
  }

  lemma SuffixLower(name: string)
    ensures Suffix(Lower(name)) == Lower(Suffix(name))
  {
    LastIndexOfLower(name, '.');
    match LastIndexOf(name, '.')
    case None =>
    case Some(i) =>
      if 0 < i < |name| - 1 {
        assert Lower(name)[i..] == Lower(name[i..]);
      }
  }
}
