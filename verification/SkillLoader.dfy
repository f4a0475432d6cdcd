// The ignore patterns of the skill loader (src/adaptive/skill-loader.ts): the glob compiler
// with its cache, and the test of a path against a list of patterns.

module SkillLoader {
  import opened Wrappers
  import opened Strings
  import opened Globs
  import Regex

  // The token a glob starts with, and its length. Stars pair up from the left; `**/` is no
  // token of its own here.
  function First(glob: string): (first: (Token, nat))
    requires glob != ""
    ensures 0 < first.1 <= |glob|
  {
    if glob[0] == '*' then if |glob| > 1 && glob[1] == '*' then (Across, 2) else (Within, 1)
    else if glob[0] == '?' then (OneChar, 1)
    else (Literal(glob[0]), 1)
  }

  function Tokens(glob: string): (tokens: seq<Token>)
    ensures Plain(tokens)
    decreases |glob|
  {
    if glob == "" then [] else [First(glob).0] + Tokens(glob[First(glob).1..])
  }

  lemma TextUnfolds(glob: string, i: nat)
    requires i < |glob|
    ensures var (token, length) := First(glob[i..]);
            RegexText(Tokens(glob[i..])) == TokenText(token) + RegexText(Tokens(glob[i + length..]))
  {
    var (token, length) := First(glob[i..]);
    var rest := Tokens(glob[i + length..]);
    assert glob[i..][length..] == glob[i + length..];
    assert ([token] + rest)[1..] == rest;
  }

  // The compiler's loop.
  method Compile(glob: string) returns (out: string)
    ensures out == RegexText(Tokens(glob))
  {
    out := "";
    var i := 0;
    while i < |glob|
      invariant 0 <= i <= |glob|
      invariant out + RegexText(Tokens(glob[i..])) == RegexText(Tokens(glob))
    {
      ghost var (token, length) := First(glob[i..]);
      ghost var rest := RegexText(Tokens(glob[i + length..]));
      TextUnfolds(glob, i);
      var ch := glob[i];
      var piece: string;
      if ch == '*' {
        if i + 1 < |glob| && glob[i + 1] == '*' {
          piece := ".*";
          i := i + 1;
        } else {
          piece := "[^/]*";
        }
      } else if ch == '?' {
        piece := "[^/]";
      } else {
        piece := Escape(ch);
      }
      assert piece == TokenText(token);
      assert out + (piece + rest) == (out + piece) + rest;
      out := out + piece;
      i := i + 1;
    }
    assert glob[i..] == "";
  }

  // A compiled ignore pattern accepts exactly the one-line strings its glob matches.
  lemma PatternMeaning(glob: string, s: string)
    requires OneLine(s)
    ensures Regex.TextAccepts(RegexText(Tokens(glob)), s) <==> Matches(Tokens(glob), s)
  {
    CompiledMeaning(Tokens(glob), s);
  }

  // ---- The cache --------------------------------------------------------------

  class GlobCache {
    var compiled: map<string, string>

    // What is cached is what a fresh compilation would give.
    ghost predicate Valid()
      reads this
    {
      forall glob :: glob in compiled ==> compiled[glob] == RegexText(Tokens(glob))
    }

    constructor ()
      ensures Valid()
    {
      compiled := map[];
    }

    method GlobToRegExp(glob: string) returns (re: string)
      requires Valid()
      modifies this
      ensures Valid() && re == RegexText(Tokens(glob))
      ensures compiled == old(compiled)[glob := re]
    {
      if glob in compiled {
        assert compiled == compiled[glob := compiled[glob]];
        return compiled[glob];
      }
      re := Compile(glob);
      compiled := compiled[glob := re];
    }

    // shouldIgnore: `rel` has `/` between its segments already.
    method ShouldIgnore(rel: string, patterns: seq<string>) returns (ignore: bool)
      requires Valid()
      modifies this
      ensures Valid()
      ensures ignore <==> exists i :: 0 <= i < |patterns| && Ignores(patterns[i], rel)
    {
      var i := 0;
      while i < |patterns|
        invariant 0 <= i <= |patterns| && Valid()
        invariant forall j :: 0 <= j < i ==> !Ignores(patterns[j], rel)
      {
        var hit := PatternIgnores(patterns[i], rel);
        if hit {
          return true;
        }
        i := i + 1;
      }
      return false;
    }

    method PatternIgnores(raw: string, rel: string) returns (ignore: bool)
      requires Valid()
      modifies this
      ensures Valid() && ignore == Ignores(raw, rel)
    {
      var pattern := Core(raw);
      if pattern == "" {
        return false;
      }
      var re := GlobToRegExp(pattern);
      if '/' in pattern {
        return Regex.TextAccepts(re, rel) || StartsWith(rel, pattern + "/");
      }
      var segments := Split(rel, '/');
      var basename := segments[|segments| - 1];
      if Regex.TextAccepts(re, basename) {
        return true;
      }
      ignore := AnyAccepted(re, segments);
    }
  }

  method AnyAccepted(re: string, segments: seq<string>) returns (found: bool)
    ensures found <==> exists k :: 0 <= k < |segments| && Regex.TextAccepts(re, segments[k])
  {
    var k := 0;
    while k < |segments|
      invariant 0 <= k <= |segments|
      invariant forall j :: 0 <= j < k ==> !Regex.TextAccepts(re, segments[j])
    {
      if Regex.TextAccepts(re, segments[k]) {
        return true;
      }
      k := k + 1;
    }
    return false;
  }

  // What is left of a line of an ignore file: nothing of a negation, and no trailing slash
  // or leading "./" of the others.
  function Core(raw: string): string {
    if raw == "" || raw[0] == '!' then ""
    else
      var bare := if EndsWith(raw, "/") then raw[..|raw| - 1] else raw;
      if StartsWith(bare, "./") then bare[2..] else bare
  }

  // An anchored pattern takes the whole path or everything below it; any other takes a path
  // with a matching segment.
  predicate Ignores(raw: string, rel: string) {
    var pattern := Core(raw);
    && pattern != ""
    && var re := RegexText(Tokens(pattern));
    if '/' in pattern then Regex.TextAccepts(re, rel) || StartsWith(rel, pattern + "/")
    else exists k :: 0 <= k < |Split(rel, '/')| && Regex.TextAccepts(re, Split(rel, '/')[k])
  }

  predicate Bare(s: string) {
    s != "" && s[0] != '!' && s[|s| - 1] != '/' && !DotSlash(s)
  }

  lemma CoreDrops(s: string)
    requires s != "" && s[0] != '!'
    ensures s[|s| - 1] != '/' ==> Core(s) == if DotSlash(s) then s[2..] else s
    ensures Core(s + "/") == if DotSlash(s) then s[2..] else s
  {
    var slashed := s + "/";
    assert slashed[..|s|] == s && slashed[|s|..] == "/";
    assert |s| > 1 ==> s[..2] == [s[0], s[1]];
    assert s[|s| - 1..] == [s[|s| - 1]];
  }

  predicate DotSlash(s: string) {
    |s| > 1 && s[0] == '.' && s[1] == '/'
  }

  // A negation and an empty line say nothing. Of the others one slash at the end is dropped,
  // then one "./" at the start.
  lemma CoreStrips(s: string)
    ensures Core("") == "" && Core("!" + s) == "" && Core("/") == ""
    ensures Bare(s) ==> Core(s) == s && Core(s + "/") == s && Core("./" + s) == s && Core("./" + s + "/") == s
    ensures s == "" || s[0] == '!' || Core(s + "/") == (if DotSlash(s) then s[2..] else s)
  {
    assert ("!" + s)[0] == '!';
    assert Core("/") == "" by {
      assert "/"[..0] == "" && "/"[0..] == "/";
    }
    hide Core;
    if s != "" && s[0] != '!' {
      var dotted := "./" + s;
      assert dotted[2..] == s && dotted[|dotted| - 1] == s[|s| - 1];
      CoreDrops(s);
      CoreDrops(dotted);
    }
  }

  // A glob is read star by star: two make one token that crosses slashes.
  lemma GlobIsRead(c: char, rest: string)
    ensures Tokens("") == []
    ensures Tokens("**" + rest) == [Across] + Tokens(rest)
    ensures (rest == "" || rest[0] != '*') ==> Tokens("*" + rest) == [Within] + Tokens(rest)
    ensures Tokens("?" + rest) == [OneChar] + Tokens(rest)
    ensures c != '*' && c != '?' ==> Tokens([c] + rest) == [Literal(c)] + Tokens(rest)
  {
    assert ("**" + rest)[2..] == rest;
    assert ("*" + rest)[1..] == rest && ("?" + rest)[1..] == rest && ([c] + rest)[1..] == rest;
  }

  lemma {:induction false} PartsAreOneLine(s: string, at: char, k: nat)
    requires OneLine(s) && k < |Split(s, at)|
    ensures OneLine(Split(s, at)[k]) && at !in Split(s, at)[k]
  {
    if s != "" {
      assert s[0] in s && OneLine(s[1..]);
      PartsAreOneLine(s[1..], at, 0);
      if k > 0 {
        PartsAreOneLine(s[1..], at, if s[0] == at then k - 1 else k);
      }
    }
  }

  // Whether a one-line path is ignored depends only on what its globs match.
  lemma IgnoringMeansMatching(raw: string, rel: string)
    requires OneLine(rel)
    ensures Ignores(raw, rel) <==>
              var glob := Core(raw);
              && glob != ""
              && if '/' in glob then Matches(Tokens(glob), rel) || StartsWith(rel, glob + "/")
                 else exists k :: 0 <= k < |Split(rel, '/')| && Matches(Tokens(glob), Split(rel, '/')[k])
  {
    var glob := Core(raw);
    PatternMeaning(glob, rel);
    forall k | 0 <= k < |Split(rel, '/')|
      ensures Regex.TextAccepts(RegexText(Tokens(glob)), Split(rel, '/')[k])
         <==> Matches(Tokens(glob), Split(rel, '/')[k])
    {
      PartsAreOneLine(rel, '/', k);
      PatternMeaning(glob, Split(rel, '/')[k]);
    }
  }
}
