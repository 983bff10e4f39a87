/**
 * The glob language of `accepts` patterns: `*` stands for any run of
 * characters, possibly empty; every other character stands for itself; a
 * pattern must account for the whole type name. The source compiles each
 * pattern to an anchored regular expression (`^...$` with `.*` in place of
 * each `*` and every other character escaped); `Matches` is that regular
 * expression's language, written directly.
 */
module Glob {

  /** Does `pattern` match the whole of `s`? */
  function Matches(pattern: string, s: string): bool
    decreases |pattern| + |s|
  {
    if pattern == [] then s == []
    else if pattern[0] == '*' then
      Matches(pattern[1..], s) || (s != [] && Matches(pattern, s[1..]))
    else
      s != [] && s[0] == pattern[0] && Matches(pattern[1..], s[1..])
  }

  /** Number of wildcards in a pattern. */
  function Stars(pattern: string): nat
  {
    if pattern == [] then 0
    else (if pattern[0] == '*' then 1 else 0) + Stars(pattern[1..])
  }

  /**
   * The reference reading of a pattern: the string obtained by replacing
   * the wildcards, left to right, by the strings in `fills`.
   */
  function Expand(pattern: string, fills: seq<string>): string
    requires |fills| == Stars(pattern)
  {
    if pattern == [] then []
    else if pattern[0] == '*' then fills[0] + Expand(pattern[1..], fills[1..])
    else [pattern[0]] + Expand(pattern[1..], fills)
  }

  /** A wildcard in front of a matching pattern may swallow any prefix. */
  lemma {:induction false} StarAbsorbs(pattern: string, prefix: string, rest: string)
    requires pattern != [] && pattern[0] == '*'
    requires Matches(pattern[1..], rest)
    ensures Matches(pattern, prefix + rest)
    decreases |prefix|
  {
    if prefix == [] {
      assert prefix + rest == rest;
    } else {
      StarAbsorbs(pattern, prefix[1..], rest);
      assert (prefix + rest)[1..] == prefix[1..] + rest;
    }
  }

  /** Completeness: every expansion of a pattern is matched by it. */
  lemma {:induction false} ExpansionMatches(pattern: string, fills: seq<string>)
    requires |fills| == Stars(pattern)
    ensures Matches(pattern, Expand(pattern, fills))
  {
    if pattern == [] {
    } else if pattern[0] == '*' {
      ExpansionMatches(pattern[1..], fills[1..]);
      StarAbsorbs(pattern, fills[0], Expand(pattern[1..], fills[1..]));
    } else {
      ExpansionMatches(pattern[1..], fills);
      var e := Expand(pattern, fills);
      assert e[1..] == Expand(pattern[1..], fills);
    }
  }

  /**
   * Soundness: a matched string is an expansion of the pattern; the result
   * is the text each wildcard stands for.
   */
  function Fills(pattern: string, s: string): (fills: seq<string>)
    requires Matches(pattern, s)
    ensures |fills| == Stars(pattern) && Expand(pattern, fills) == s
    decreases |pattern| + |s|
  {
    if pattern == [] then []
    else if pattern[0] == '*' then
      if Matches(pattern[1..], s) then [""] + Fills(pattern[1..], s)
      else
        var r := Fills(pattern, s[1..]);
        [[s[0]] + r[0]] + r[1..]
    else
      var r := Fills(pattern[1..], s[1..]);
      assert s == [s[0]] + s[1..];
      r
  }

  /** A pattern matches exactly the expansions of its wildcards. */
  lemma MatchesIffExpansion(pattern: string, s: string)
    ensures Matches(pattern, s) <==>
            exists fills :: |fills| == Stars(pattern) && Expand(pattern, fills) == s
  {
    if Matches(pattern, s) {
      var fills := Fills(pattern, s);
      assert |fills| == Stars(pattern) && Expand(pattern, fills) == s;
    }
    forall fills | |fills| == Stars(pattern) && Expand(pattern, fills) == s
      ensures Matches(pattern, s)
    {
      ExpansionMatches(pattern, fills);
    }
  }

  /** A pattern without wildcards matches only the identical string. */
  lemma {:induction false} LiteralMatchesOnlyItself(pattern: string, s: string)
    requires Stars(pattern) == 0
    ensures Matches(pattern, s) <==> s == pattern
  {
    if pattern != [] && s != [] {
      LiteralMatchesOnlyItself(pattern[1..], s[1..]);
      assert s == pattern <==> (s[0] == pattern[0] && s[1..] == pattern[1..]);
    }
  }

  /** The lone wildcard matches every string. */
  lemma StarMatchesAll(s: string)
    ensures Matches("*", s)
  {
    assert Stars("*") == 1;
    assert Expand("*", [s]) == s + Expand([], []);
    ExpansionMatches("*", [s]);
  }

  // A literal followed by one trailing wildcard (as in "@theme/" then "*")
  // accepts exactly the strings that start with the literal.
  lemma {:induction false} PrefixPattern(literal: string, s: string)
    requires Stars(literal) == 0
    ensures Matches(literal + "*", s) <==> literal <= s
  {
    if literal == [] {
      assert literal + "*" == "*";
      StarMatchesAll(s);
    } else {
      var p := literal + "*";
      assert p[0] == literal[0] && p[1..] == literal[1..] + "*";
      if s != [] {
        PrefixPattern(literal[1..], s[1..]);
        assert literal <= s <==> (s[0] == literal[0] && literal[1..] <= s[1..]);
      }
    }
  }

  /** The namespace examples of the registry's documentation. */
  lemma NamespaceExamples()
    ensures Matches("@theme/*", "@theme/dark")
    ensures !Matches("@theme/*", "theme/dark")
    ensures Matches("visual-*", "visual-card")
    ensures !Matches("visual-*", "card-visual")
  {
    assert "@theme/*" == "@theme/" + "*";
    assert Stars("@theme/") == 0;
    PrefixPattern("@theme/", "@theme/dark");
    PrefixPattern("@theme/", "theme/dark");
    assert "visual-*" == "visual-" + "*";
    assert Stars("visual-") == 0;
    PrefixPattern("visual-", "visual-card");
    PrefixPattern("visual-", "card-visual");
  }
}
