/**
 * Shell-style name patterns as `Path.glob` applies them to one path
 * component: `*` matches any run of characters, `?` any one character,
 * everything else itself (case-sensitively, as on POSIX systems).
 */
module Glob {
  /**
   * Whether `name` matches `pattern`. Without `*` a match has the pattern's
   * length, and `*` alone matches every name.
   */
  function Match(pattern: string, name: string): (b: bool)
    ensures b && NoStar(pattern) ==> |name| == |pattern|
    ensures pattern == "*" ==> b
    decreases |pattern| + |name|
  {
    if pattern == [] then name == []
    else if pattern[0] == '*' then Match(pattern[1..], name) || (name != [] && Match(pattern, name[1..]))
    else name != [] && (pattern[0] == '?' || pattern[0] == name[0]) && Match(pattern[1..], name[1..])
  }

  /** A pattern without `*`. */
  predicate NoStar(p: string)
  {
    forall j :: 0 <= j < |p| ==> p[j] != '*'
  }

  /** A pattern without wildcards. */
  predicate Literal(lit: string)
  {
    forall j :: 0 <= j < |lit| ==> lit[j] != '*' && lit[j] != '?'
  }

  predicate EndsWith(s: string, tail: string)
  {
    |tail| <= |s| && s[|s| - |tail|..] == tail
  }

  /** A pattern without wildcards matches exactly itself. */
  lemma {:induction false} MatchLiteral(lit: string, name: string)
    requires Literal(lit)
    ensures Match(lit, name) <==> name == lit
  {
    if lit != [] && name != [] {
      MatchLiteral(lit[1..], name[1..]);
      if name == lit {
        assert name[1..] == lit[1..];
      }
      if name[0] == lit[0] && name[1..] == lit[1..] {
        assert name == [name[0]] + name[1..];
        assert lit == [lit[0]] + lit[1..];
      }
    }
  }

  /** `*<lit>` (such as `*.txt`) matches exactly the names that end with `lit`. */
  lemma {:induction false} MatchStarLiteral(lit: string, name: string)
    requires Literal(lit)
    ensures Match(['*'] + lit, name) <==> EndsWith(name, lit)
    decreases |name|
  {
    var p := ['*'] + lit;
    assert p[1..] == lit;
    MatchLiteral(lit, name);
    if name != [] {
      MatchStarLiteral(lit, name[1..]);
      if |lit| < |name| {
        assert name[|name| - |lit|..] == name[1..][|name| - 1 - |lit|..];
      }
    }
  }
}
