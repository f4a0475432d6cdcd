// The path patterns of conditional skills (src/adaptive/conditional-skills.ts), compiled by
// a chain of text replacements.

module ConditionalSkills {
  import opened Wrappers
  import opened Strings
  import opened Globs
  import Regex
  import SkillLoader

  // Replaces every occurrence from the left, not looking again at what it wrote.
  function ReplaceAll(s: string, find: string, with: string): string
    requires find != ""
    decreases |s|
  {
    if s == "" then ""
    else if StartsWith(s, find) then with + ReplaceAll(s[|find|..], find, with)
    else [s[0]] + ReplaceAll(s[1..], find, with)
  }

  function EscapeAll(s: string): string {
    if s == "" then "" else Escape(s[0]) + EscapeAll(s[1..])
  }

  const WORD: string := "DOUBLESTAR"
  const MARKED_DIRECTORIES: string := "::" + WORD + "SLASH::"
  const MARKED_ACROSS: string := "::" + WORD + "::"

  function Compiled(pattern: string): string {
    var escaped := EscapeAll(pattern);
    var marked := ReplaceAll(ReplaceAll(escaped, "**/", MARKED_DIRECTORIES), "**", MARKED_ACROSS);
    var starred := ReplaceAll(marked, "*", "[^/]*");
    ReplaceAll(ReplaceAll(starred, MARKED_DIRECTORIES, "(.*\\/)?"), MARKED_ACROSS, ".*")
  }

  // ---- What the chain is after ------------------------------------------------

  // The token a pattern starts with, and its length. `**/` is found first, so of a longer
  // run of stars before a slash the last two belong to it.
  function First(pattern: string): (first: (Token, nat))
    requires pattern != ""
    ensures 0 < first.1 <= |pattern|
  {
    if StartsWith(pattern, "**/") then (Directories, 3)
    else if StartsWith(pattern, "**") && !StartsWith(pattern[1..], "**/") then (Across, 2)
    else if pattern[0] == '*' then (Within, 1)
    else (Literal(pattern[0]), 1)
  }

  // No literal is a star, nor is any token the single-character one, which has no sign here.
  predicate StarFree(tokens: seq<Token>) {
    forall i :: 0 <= i < |tokens| ==> tokens[i] != Literal('*') && tokens[i] != OneChar
  }

  function Tokens(pattern: string): (tokens: seq<Token>)
    ensures StarFree(tokens) && ('?' !in pattern ==> Plain(tokens))
    decreases |pattern|
  {
    if pattern == "" then [] else [First(pattern).0] + Tokens(pattern[First(pattern).1..])
  }

  // ---- The chain, one replacement at a time -----------------------------------

  // The text of a token after the first n replacements.
  function Staged(n: nat, token: Token): string {
    match token
    case Literal(c) => Escape(c)
    case OneChar => "[^/]"
    case Within => if n < 3 then "*" else "[^/]*"
    case Across => if n < 2 then "**" else if n < 5 then MARKED_ACROSS else ".*"
    case Directories => if n < 1 then "**/" else if n < 4 then MARKED_DIRECTORIES else "(.*\\/)?"
  }

  function Stage(n: nat, tokens: seq<Token>): string {
    if tokens == [] then "" else Staged(n, tokens[0]) + Stage(n, tokens[1..])
  }

  lemma Hit(find: string, with: string, rest: string)
    requires find != ""
    ensures ReplaceAll(find + rest, find, with) == with + ReplaceAll(rest, find, with)
  {
    StartsWithAppended(find, rest);
  }

  lemma Miss(c: char, rest: string, find: string, with: string)
    requires find != "" && !StartsWith([c] + rest, find)
    ensures ReplaceAll([c] + rest, find, with) == [c] + ReplaceAll(rest, find, with)
  {
    assert ([c] + rest)[1..] == rest;
  }

  // Text without the first character of what is looked for stays as it is.
  lemma {:induction false} Skip(text: string, rest: string, find: string, with: string)
    requires find != "" && find[0] !in text
    ensures ReplaceAll(text + rest, find, with) == text + ReplaceAll(rest, find, with)
  {
    if text == "" {
      assert text + rest == rest;
    } else {
      assert text[0] in text;
      assert text + rest == [text[0]] + (text[1..] + rest);
      Miss(text[0], text[1..] + rest, find, with);
      Skip(text[1..], rest, find, with);
    }
  }

  lemma {:induction false} EscapingKeepsTokens(pattern: string)
    ensures EscapeAll(pattern) == Stage(0, Tokens(pattern))
    decreases |pattern|
  {
    if pattern != "" {
      var (token, length) := First(pattern);
      EscapingKeepsTokens(pattern[length..]);
      EscapedFirst(pattern);
    }
  }

  lemma EscapedFirst(pattern: string)
    requires pattern != ""
    ensures EscapeAll(pattern) == Staged(0, First(pattern).0) + EscapeAll(pattern[First(pattern).1..])
  {
    if StartsWith(pattern, "**") {
      StartsWithAt(pattern, "**", 1);
      EscapeTwoStars(pattern);
    }
    if StartsWith(pattern, "**/") {
      StartsWithAt(pattern, "**/", 1);
      StartsWithAt(pattern, "**/", 2);
      EscapeTwoStars(pattern);
      assert pattern[2..][1..] == pattern[3..];
      assert EscapeAll(pattern[2..]) == "/" + EscapeAll(pattern[3..]);
    }
  }

  lemma EscapeTwoStars(s: string)
    requires |s| >= 2 && s[0] == '*' && s[1] == '*'
    ensures EscapeAll(s) == "**" + EscapeAll(s[2..])
  {
    EscapeStar(s);
    EscapeStar(s[1..]);
    assert s[1..][1..] == s[2..];
  }

  lemma EscapeStar(s: string)
    requires s != "" && s[0] == '*'
    ensures EscapeAll(s) == "*" + EscapeAll(s[1..])
  {
  }

  lemma EscapedSlash(s: string)
    ensures StartsWith(EscapeAll(s), "/") ==> StartsWith(s, "/")
  {
    StartsWithAt(EscapeAll(s), "/", 0);
  }

  lemma EscapedStarSlash(s: string)
    ensures StartsWith(EscapeAll(s), "*/") ==> StartsWith(s, "*/")
  {
    StartsWithAt(EscapeAll(s), "*/", 0);
    if s != "" && s[0] == '*' {
      EscapeStar(s);
      EscapedSlash(s[1..]);
      StartsWithAfter("*", EscapeAll(s[1..]), "/");
      StartsWithAfter("*", s[1..], "/");
      assert s == "*" + s[1..];
    }
  }

  // Nothing but `**/` is taken for it.
  lemma NoDirectoriesYet(rest: string)
    requires !StartsWith("*" + rest, "**/")
    ensures !StartsWith("*" + EscapeAll(rest), "**/")
  {
    EscapedStarSlash(rest);
    StartsWithAfter("*", EscapeAll(rest), "*/");
    StartsWithAfter("*", rest, "*/");
  }

  lemma AcrossIsUnmarked(pattern: string, rest: string)
    requires pattern != "" && First(pattern).0 == Across && rest == EscapeAll(pattern[2..])
    ensures ReplaceAll("**" + rest, "**/", MARKED_DIRECTORIES)
         == "**" + ReplaceAll(rest, "**/", MARKED_DIRECTORIES)
  {
    StartsWithAt(pattern, "**", 1);
    var one := pattern[1..];
    assert pattern == "*" + one && one == "*" + pattern[2..];
    NoDirectoriesYet(one);
    NoDirectoriesYet(pattern[2..]);
    EscapeStar(one);
    Miss('*', "*" + rest, "**/", MARKED_DIRECTORIES);
    Miss('*', rest, "**/", MARKED_DIRECTORIES);
    assert "**" + rest == "*" + ("*" + rest);
  }

  lemma {:induction false} MarksDirectories(pattern: string)
    ensures ReplaceAll(Stage(0, Tokens(pattern)), "**/", MARKED_DIRECTORIES) == Stage(1, Tokens(pattern))
    decreases |pattern|
  {
    if pattern != "" {
      var (token, length) := First(pattern);
      var rest := Stage(0, Tokens(pattern[length..]));
      MarksDirectories(pattern[length..]);
      EscapingKeepsTokens(pattern[length..]);
      match token
      case Directories => Hit("**/", MARKED_DIRECTORIES, rest);
      case Across => AcrossIsUnmarked(pattern, rest);
      case Within =>
        assert pattern == "*" + pattern[1..];
        NoDirectoriesYet(pattern[1..]);
        Miss('*', rest, "**/", MARKED_DIRECTORIES);
      case Literal(c) => Skip(Escape(c), rest, "**/", MARKED_DIRECTORIES);
    }
  }

  lemma MarkHasNoStar()
    ensures '*' !in MARKED_DIRECTORIES && '*' !in MARKED_ACROSS
    ensures MARKED_DIRECTORIES != "" && MARKED_ACROSS != "" && MARKED_DIRECTORIES[0] == ':' && MARKED_ACROSS[0] == ':'
  {
  }

  lemma {:induction false} MarksAcross(pattern: string)
    ensures ReplaceAll(Stage(1, Tokens(pattern)), "**", MARKED_ACROSS) == Stage(2, Tokens(pattern))
    decreases |pattern|
  {
    MarkHasNoStar();
    if pattern != "" {
      var (token, length) := First(pattern);
      var rest := Stage(1, Tokens(pattern[length..]));
      MarksAcross(pattern[length..]);
      match token
      case Directories => Skip(MARKED_DIRECTORIES, rest, "**", MARKED_ACROSS);
      case Across => Hit("**", MARKED_ACROSS, rest);
      case Within =>
        LoneStar(pattern);
        Miss('*', rest, "**", MARKED_ACROSS);
      case Literal(c) => Skip(Escape(c), rest, "**", MARKED_ACROSS);
    }
  }

  // After a single star comes no other: that one would have joined it.
  lemma LoneStar(pattern: string)
    requires pattern != "" && First(pattern).0 == Within
    ensures !StartsWith("*" + Stage(1, Tokens(pattern[1..])), "**")
  {
    var next := pattern[1..];
    MarkHasNoStar();
    if next != "" && next[0] == '*' {
      assert pattern[..2] == "**";
      assert First(next).0 == Directories;
    }
    StartsWithAfter("*", Stage(1, Tokens(next)), "*");
    StartsWithAt(Stage(1, Tokens(next)), "*", 0);
  }

  lemma {:induction false} ReplacesStars(tokens: seq<Token>)
    requires StarFree(tokens)
    ensures ReplaceAll(Stage(2, tokens), "*", "[^/]*") == Stage(3, tokens)
  {
    MarkHasNoStar();
    if tokens != [] {
      var rest := Stage(2, tokens[1..]);
      assert StarFree(tokens[1..]);
      ReplacesStars(tokens[1..]);
      match tokens[0]
      case Literal(c) => Skip(Escape(c), rest, "*", "[^/]*");
      case OneChar => Skip("[^/]", rest, "*", "[^/]*");
      case Within => Hit("*", "[^/]*", rest);
      case Across => Skip(MARKED_ACROSS, rest, "*", "[^/]*");
      case Directories => Skip(MARKED_DIRECTORIES, rest, "*", "[^/]*");
    }
  }

  // ---- Placeholders the pattern completes by itself ---------------------------

  // The pattern's own characters spell the word.
  predicate Spells(tokens: seq<Token>, word: string) {
    |word| <= |tokens| && forall i :: 0 <= i < |word| ==> tokens[i] == Literal(word[i])
  }

  // After n replacements, the token is a mark: its text begins with two colons.
  predicate Marks(n: nat, token: Token) {
    token == Across || (n == 3 && token == Directories)
  }

  // Two colons come next: two of the pattern, a mark's, or one of the pattern and a mark's first.
  predicate Colons(n: nat, tokens: seq<Token>) {
    tokens != []
    && (Marks(n, tokens[0])
        || (tokens[0] == Literal(':') && |tokens| > 1 && (tokens[1] == Literal(':') || Marks(n, tokens[1]))))
  }

  predicate Completes(n: nat, tokens: seq<Token>, word: string) {
    Spells(tokens, word) && Colons(n, tokens[|word|..])
  }

  // A directory mark is found that starts here, in colons of the pattern or in the last two
  // of an inserted mark.
  predicate FindsDirectories(tokens: seq<Token>) {
    || Completes(3, tokens, "::" + WORD + "SLASH")
    || (tokens != [] && tokens[0] == Across
        && (Completes(3, tokens[1..], WORD + "SLASH") || Completes(3, tokens[1..], ":" + (WORD + "SLASH"))))
  }

  predicate FindsAcross(tokens: seq<Token>) {
    Completes(4, tokens, "::" + WORD)
  }

  // Reading the pattern from the left, a placeholder is found that was not inserted.
  predicate Accidental(tokens: seq<Token>) {
    tokens != [] && (FindsDirectories(tokens) || FindsAcross(tokens) || Accidental(tokens[1..]))
  }

  predicate Letters(word: string) {
    forall c :: c in word ==> 'A' <= c <= 'Z'
  }

  lemma LetterIsLiteral(n: nat, tokens: seq<Token>)
    requires n >= 3 && Stage(n, tokens) != "" && 'A' <= Stage(n, tokens)[0] <= 'Z'
    ensures var c := Stage(n, tokens)[0];
            tokens[0] == Literal(c) && Stage(n, tokens) == [c] + Stage(n, tokens[1..])
  {
    MarkHasNoStar();
  }

  lemma LettersGoOn(word: string)
    requires Letters(word) && word != ""
    ensures Letters(word[1..]) && Escape(word[0]) == [word[0]] && 'A' <= word[0] <= 'Z'
  {
    assert word[0] in word;
    forall c | c in word[1..]
      ensures c in word
    {
    }
  }

  lemma MarkBegins(n: nat, token: Token, rest: string)
    requires 3 <= n <= 4
    ensures StartsWith(Staged(n, token) + rest, "::") <==> Marks(n, token) || (token == Literal(':') && StartsWith(rest, ":"))
    ensures StartsWith(Staged(n, token) + rest, ":") <==> Marks(n, token) || token == Literal(':')
  {
    var text := Staged(n, token) + rest;
    StartsWithAt(text, "::", 0);
    StartsWithAt(text, ":", 0);
    if Marks(n, token) {
      var mark := Staged(n, token);
      assert mark[0] == ':' && mark[1] == ':';
      assert text[..2] == "::" && text[..1] == ":";
    } else if token == Literal(':') {
      assert Escape(':') == ":";
      StartsWithAfter(":", rest, ":");
      assert "::" == ":" + ":";
      assert text[..1] == ":";
    }
  }

  lemma TextHasColons(n: nat, tokens: seq<Token>)
    requires 3 <= n <= 4
    ensures StartsWith(Stage(n, tokens), "::") <==> Colons(n, tokens)
  {
    if tokens != [] {
      var rest := tokens[1..];
      MarkBegins(n, tokens[0], Stage(n, rest));
      if rest != [] {
        MarkBegins(n, rest[0], Stage(n, rest[1..]));
        assert rest[0] == tokens[1];
      }
    }
  }

  lemma SpelledFirst(tokens: seq<Token>, word: string)
    requires word != ""
    ensures Spells(tokens, word) <==> tokens != [] && tokens[0] == Literal(word[0]) && Spells(tokens[1..], word[1..])
  {
    if tokens != [] && tokens[0] == Literal(word[0]) && Spells(tokens[1..], word[1..]) {
      forall i | 0 <= i < |word|
        ensures tokens[i] == Literal(word[i])
      {
        if i > 0 {
          assert tokens[1..][i - 1] == Literal(word[1..][i - 1]);
        }
      }
    }
  }

  lemma CompletedFirst(n: nat, tokens: seq<Token>, word: string)
    requires word != ""
    ensures Completes(n, tokens, word)
       <==> tokens != [] && tokens[0] == Literal(word[0]) && Completes(n, tokens[1..], word[1..])
  {
    SpelledFirst(tokens, word);
    if |word| <= |tokens| {
      assert tokens[1..][|word| - 1..] == tokens[|word|..];
    }
  }

  // Letters and two colons stand in the text exactly where the tokens complete the letters.
  lemma {:induction false} LettersThenColons(n: nat, tokens: seq<Token>, word: string)
    requires 3 <= n <= 4 && Letters(word)
    ensures StartsWith(Stage(n, tokens), word + "::") <==> Completes(n, tokens, word)
  {
    var text := Stage(n, tokens);
    if word == "" {
      TextHasColons(n, tokens);
      assert word + "::" == "::" && tokens[0..] == tokens;
    } else {
      LettersGoOn(word);
      CompletedFirst(n, tokens, word);
      assert word + "::" == [word[0]] + (word[1..] + "::");
      StartsWithAt(text, word + "::", 0);
      if text != "" && text[0] == word[0] {
        LetterIsLiteral(n, tokens);
      }
      if tokens != [] && tokens[0] == Literal(word[0]) {
        assert text == [word[0]] + Stage(n, tokens[1..]);
        StartsWithAfter([word[0]], Stage(n, tokens[1..]), word[1..] + "::");
        LettersThenColons(n, tokens[1..], word[1..]);
      }
    }
  }

  // So do a colon, letters and two colons.
  lemma ColonThenLetters(n: nat, tokens: seq<Token>, word: string)
    requires 3 <= n <= 4 && Letters(word) && word != ""
    ensures StartsWith(Stage(n, tokens), ":" + (word + "::")) <==> Completes(n, tokens, ":" + word)
  {
    var text, find := Stage(n, tokens), ":" + (word + "::");
    CompletedFirst(n, tokens, ":" + word);
    assert (":" + word)[1..] == word;
    LettersGoOn(word);
    StartsWithAt(text, find, 0);
    StartsWithAt(text, find, 1);
    if tokens != [] {
      var rest := Stage(n, tokens[1..]);
      MarkBegins(n, tokens[0], rest);
      StartsWithAt(text, "::", 1);
      StartsWithLonger(text, ":", word + "::");
      if tokens[0] == Literal(':') {
        assert Escape(':') == ":" && text == ":" + rest;
        StartsWithAfter(":", rest, word + "::");
        LettersThenColons(n, tokens[1..], word);
      }
    }
  }

  // And at a colon of the pattern, a whole placeholder.
  lemma ColonBeginsMark(n: nat, tokens: seq<Token>, word: string)
    requires 3 <= n <= 4 && Letters(word) && word != ""
    ensures StartsWith(":" + Stage(n, tokens), "::" + (word + "::"))
       <==> Completes(n, [Literal(':')] + tokens, "::" + word)
  {
    assert "::" + (word + "::") == ":" + (":" + (word + "::"));
    StartsWithAfter(":", Stage(n, tokens), ":" + (word + "::"));
    ColonThenLetters(n, tokens, word);
    CompletedFirst(n, [Literal(':')] + tokens, "::" + word);
    assert ([Literal(':')] + tokens)[1..] == tokens && ("::" + word)[1..] == ":" + word;
  }

  lemma TwoColonsBeginMark(n: nat, tokens: seq<Token>, word: string)
    requires 3 <= n <= 4 && Letters(word)
    ensures StartsWith("::" + Stage(n, tokens), "::" + (word + "::")) <==> Completes(n, tokens, word)
  {
    StartsWithAfter("::", Stage(n, tokens), word + "::");
    LettersThenColons(n, tokens, word);
  }

  lemma MarksSpelled()
    ensures MARKED_DIRECTORIES == "::" + ((WORD + "SLASH") + "::") && MARKED_ACROSS == "::" + (WORD + "::")
    ensures "::" + WORD + "SLASH" == "::" + (WORD + "SLASH")
    ensures Letters(WORD + "SLASH") && Letters(WORD)
  {
  }

  // ---- The marks are found again, and nothing else is taken for one -----------

  const DIRECTORY_GROUP: string := "(.*\\/)?"

  function Restored(tokens: seq<Token>): string {
    ReplaceAll(Stage(3, tokens), MARKED_DIRECTORIES, DIRECTORY_GROUP)
  }

  lemma Regroup(a: string, b: string, c: string, d: string)
    ensures a + b + c + d == a + (b + (c + d))
  {
  }

  lemma WordIsPassedOver(rest: string, with: string)
    ensures ReplaceAll(WORD + rest, MARKED_DIRECTORIES, with)
         == WORD + ReplaceAll(rest, MARKED_DIRECTORIES, with)
  {
    MarkHasNoStar();
    Skip(WORD, rest, MARKED_DIRECTORIES, with);
  }

  lemma FrontIsPassedOver(two: string, with: string)
    requires StartsWith(two, "::")
    ensures ReplaceAll("::" + (WORD + two), MARKED_DIRECTORIES, with)
         == "::" + ReplaceAll(WORD + two, MARKED_DIRECTORIES, with)
  {
    var find := MARKED_DIRECTORIES;
    var inner := ":" + (WORD + two);
    var text := "::" + (WORD + two);
    assert text == [':'] + inner;
    StartsWithAt(two, "::", 0);
    assert text[12] == two[0] == ':' && find[12] == 'S';
    StartsWithAt(text, find, 12);
    Miss(':', inner, find, with);
    assert inner[1] == 'D' && find[1] == ':';
    StartsWithAt(inner, find, 1);
    Miss(':', WORD + two, find, with);
  }

  lemma FrontOfMark(text: string)
    ensures ReplaceAll(MARKED_ACROSS + text, MARKED_DIRECTORIES, DIRECTORY_GROUP)
         == "::" + (WORD + ReplaceAll("::" + text, MARKED_DIRECTORIES, DIRECTORY_GROUP))
  {
    hide ReplaceAll;
    var two := "::" + text;
    StartsWithAppended("::", text);
    Regroup("::", WORD, "::", text);
    FrontIsPassedOver(two, DIRECTORY_GROUP);
    WordIsPassedOver(two, DIRECTORY_GROUP);
  }

  lemma StageOfFirst(n: nat, token: Token, tokens: seq<Token>)
    ensures Stage(n, [token] + tokens) == Staged(n, token) + Stage(n, tokens)
  {
    assert ([token] + tokens)[1..] == tokens;
  }

  // Looking for directory marks passes over the front of the other mark.
  lemma MarkIsEntered(tokens: seq<Token>)
    ensures Restored([Across] + tokens)
         == "::" + (WORD + ReplaceAll("::" + Stage(3, tokens), MARKED_DIRECTORIES, DIRECTORY_GROUP))
  {
    StageOfFirst(3, Across, tokens);
    hide Stage, ReplaceAll;
    FrontOfMark(Stage(3, tokens));
  }

  lemma EndFindsDirectories(tokens: seq<Token>)
    ensures FindsDirectories([Across] + tokens)
       <==> StartsWith("::" + Stage(3, tokens), MARKED_DIRECTORIES) || StartsWith(":" + Stage(3, tokens), MARKED_DIRECTORIES)
  {
    var ours := [Across] + tokens;
    MarksSpelled();
    TwoColonsBeginMark(3, tokens, WORD + "SLASH");
    ColonThenLetters(3, tokens, WORD + "SLASH");
    StartsWithAfter(":", Stage(3, tokens), ":" + ((WORD + "SLASH") + "::"));
    assert MARKED_DIRECTORIES == ":" + (":" + ((WORD + "SLASH") + "::"));
    assert ours[1..] == tokens && ours[0] == Across;
    hide Colons;
    assert !Spells(ours, "::" + WORD + "SLASH");
  }

  lemma ColonsAreLeft(text: string, find: string, with: string)
    requires find != ""
    ensures var rest := ReplaceAll("::" + text, find, with);
            if StartsWith("::" + text, find) then StartsWith(rest, with)
            else if StartsWith(":" + text, find) then StartsWith(rest, ":" + with)
            else rest == "::" + ReplaceAll(text, find, with)
  {
    assert "::" + text == [':'] + (":" + text);
    if StartsWith("::" + text, find) {
      StartsWithAppended(with, ReplaceAll(("::" + text)[|find|..], find, with));
    } else {
      Miss(':', ":" + text, find, with);
      if StartsWith(":" + text, find) {
        var more := ReplaceAll((":" + text)[|find|..], find, with);
        assert ":" + (with + more) == ":" + with + more;
        StartsWithAppended(":" + with, more);
      } else {
        Miss(':', text, find, with);
      }
    }
  }

  // What becomes of it, then, is decided by its last two colons.
  lemma MarkIsLeft(tokens: seq<Token>)
    ensures var rest := ReplaceAll("::" + Stage(3, tokens), MARKED_DIRECTORIES, DIRECTORY_GROUP);
            && (!FindsDirectories([Across] + tokens) ==> rest == "::" + Restored(tokens))
            && (FindsDirectories([Across] + tokens) ==>
                  StartsWith(rest, DIRECTORY_GROUP) || StartsWith(rest, ":" + DIRECTORY_GROUP))
  {
    EndFindsDirectories(tokens);
    ColonsAreLeft(Stage(3, tokens), MARKED_DIRECTORIES, DIRECTORY_GROUP);
  }

  // A token whose text no accidental mark starts in is passed over or restored.
  lemma TokenIsRestored(tokens: seq<Token>)
    requires tokens != [] && !FindsDirectories(tokens)
    ensures Restored(tokens) == Staged(4, tokens[0]) + Restored(tokens[1..])
  {
    var rest := tokens[1..];
    MarkHasNoStar();
    match tokens[0]
    case Literal(c) =>
      if c == ':' {
        MarksSpelled();
        ColonBeginsMark(3, rest, WORD + "SLASH");
        assert [Literal(':')] + rest == tokens;
        Miss(':', Stage(3, rest), MARKED_DIRECTORIES, DIRECTORY_GROUP);
      } else {
        Skip(Escape(c), Stage(3, rest), MARKED_DIRECTORIES, DIRECTORY_GROUP);
      }
    case OneChar => Skip("[^/]", Stage(3, rest), MARKED_DIRECTORIES, DIRECTORY_GROUP);
    case Within => Skip("[^/]*", Stage(3, rest), MARKED_DIRECTORIES, DIRECTORY_GROUP);
    case Across =>
      assert [Across] + rest == tokens;
      MarkIsEntered(rest);
      MarkIsLeft(rest);
      Regroup("::", WORD, "::", Restored(rest));
    case Directories => Hit(MARKED_DIRECTORIES, DIRECTORY_GROUP, Stage(3, rest));
  }

  lemma {:induction false} RestoresDirectories(tokens: seq<Token>)
    requires !Accidental(tokens)
    ensures Restored(tokens) == Stage(4, tokens)
  {
    if tokens != [] {
      TokenIsRestored(tokens);
      RestoresDirectories(tokens[1..]);
    }
  }

  lemma PassesOn(token: Token, rest: string)
    requires token == Literal(':') ==> !StartsWith(":" + rest, MARKED_ACROSS)
    ensures ReplaceAll(Staged(4, token) + rest, MARKED_ACROSS, ".*") == TokenText(token) + ReplaceAll(rest, MARKED_ACROSS, ".*")
  {
    MarkHasNoStar();
    match token
    case Literal(c) =>
      if c == ':' {
        Miss(':', rest, MARKED_ACROSS, ".*");
      } else {
        Skip(Escape(c), rest, MARKED_ACROSS, ".*");
      }
    case OneChar => Skip("[^/]", rest, MARKED_ACROSS, ".*");
    case Within => Skip("[^/]*", rest, MARKED_ACROSS, ".*");
    case Across => Hit(MARKED_ACROSS, ".*", rest);
    case Directories => Skip(DIRECTORY_GROUP, rest, MARKED_ACROSS, ".*");
  }

  lemma {:induction false} RestoresAcross(tokens: seq<Token>)
    requires !Accidental(tokens)
    ensures ReplaceAll(Stage(4, tokens), MARKED_ACROSS, ".*") == RegexText(tokens)
  {
    if tokens != [] {
      var rest := tokens[1..];
      RestoresAcross(rest);
      if tokens[0] == Literal(':') {
        MarksSpelled();
        ColonBeginsMark(4, rest, WORD);
        assert [Literal(':')] + rest == tokens;
      }
      PassesOn(tokens[0], Stage(4, rest));
    }
  }

  // ---- One accident spoils the text -------------------------------------------

  function Finished(tokens: seq<Token>): string {
    ReplaceAll(Restored(tokens), MARKED_ACROSS, ".*")
  }

  lemma SameFront(front: string, a: string, b: string)
    requires a != b
    ensures front + a != front + b
  {
    assert (front + a)[|front|..] == a && (front + b)[|front|..] == b;
  }

  // A directory mark found by accident leaves a group where the tokens have a colon, or a
  // broken mark where they have any characters.
  lemma FoundDirectoriesShow(tokens: seq<Token>)
    requires tokens != [] && FindsDirectories(tokens)
    ensures Finished(tokens) != RegexText(tokens)
  {
    var rest := tokens[1..];
    MarkHasNoStar();
    MarksSpelled();
    if tokens[0] == Across {
      assert [Across] + rest == tokens;
      MarkIsEntered(rest);
      MarkIsLeft(rest);
      BrokenMarkStays(ReplaceAll("::" + Stage(3, rest), MARKED_DIRECTORIES, DIRECTORY_GROUP));
      assert RegexText(tokens)[0] == '.';
    } else {
      CompletedFirst(3, tokens, "::" + WORD + "SLASH");
      assert tokens[0] == Literal(':') && [Literal(':')] + rest == tokens;
      ColonBeginsMark(3, rest, WORD + "SLASH");
      var text := ":" + Stage(3, rest);
      assert Stage(3, tokens) == text;
      var more := ReplaceAll(text[|MARKED_DIRECTORIES|..], MARKED_DIRECTORIES, DIRECTORY_GROUP);
      assert Restored(tokens) == DIRECTORY_GROUP + more;
      Skip(DIRECTORY_GROUP, more, MARKED_ACROSS, ".*");
      assert RegexText(tokens)[0] == ':';
    }
  }

  lemma BrokenMarkStays(rest: string)
    requires StartsWith(rest, DIRECTORY_GROUP) || StartsWith(rest, ":" + DIRECTORY_GROUP)
    ensures var done := ReplaceAll("::" + (WORD + rest), MARKED_ACROSS, ".*"); done != "" && done[0] == ':'
  {
    var text, find := "::" + (WORD + rest), MARKED_ACROSS;
    StartsWithAt(rest, DIRECTORY_GROUP, 0);
    StartsWithAt(rest, ":" + DIRECTORY_GROUP, 0);
    StartsWithAt(rest, ":" + DIRECTORY_GROUP, 1);
    assert find[12] == ':' && find[13] == ':';
    assert text[12] == rest[0];
    if rest[0] == ':' {
      assert text[13] == rest[1] == '(';
    }
    StartsWithAt(text, find, 12);
    StartsWithAt(text, find, 13);
    assert text == [':'] + (":" + (WORD + rest));
    Miss(':', ":" + (WORD + rest), find, ".*");
  }

  lemma {:induction false} AccidentsShow(tokens: seq<Token>)
    requires Accidental(tokens)
    ensures Finished(tokens) != RegexText(tokens)
  {
    if FindsDirectories(tokens) {
      FoundDirectoriesShow(tokens);
    } else {
      var rest := tokens[1..];
      var text := Restored(rest);
      TokenIsRestored(tokens);
      if tokens[0] == Literal(':') && StartsWith(":" + text, MARKED_ACROSS) {
        assert Escape(':') == ":" && RegexText(tokens)[0] == ':';
        assert Finished(tokens)[0] == '.';
      } else {
        if !Accidental(rest) {
          FoundAcrossShows(tokens);
        }
        AccidentsShow(rest);
        PassesOn(tokens[0], text);
        SameFront(TokenText(tokens[0]), Finished(rest), RegexText(rest));
      }
    }
  }

  lemma FoundAcrossShows(tokens: seq<Token>)
    requires tokens != [] && FindsAcross(tokens) && !Accidental(tokens[1..])
    ensures tokens[0] == Literal(':') && StartsWith(":" + Restored(tokens[1..]), MARKED_ACROSS)
  {
    CompletedFirst(4, tokens, "::" + WORD);
    RestoresDirectories(tokens[1..]);
    MarksSpelled();
    ColonBeginsMark(4, tokens[1..], WORD);
    assert [Literal(':')] + tokens[1..] == tokens;
  }

  // ---- Main results -----------------------------------------------------------

  predicate Contains(s: string, word: string) {
    exists i :: 0 <= i <= |s| && StartsWith(s[i..], word)
  }

  lemma ChainInTokens(pattern: string)
    ensures Compiled(pattern) == Finished(Tokens(pattern))
  {
    EscapingKeepsTokens(pattern);
    MarksDirectories(pattern);
    MarksAcross(pattern);
    ReplacesStars(Tokens(pattern));
  }

  // The chain gives the text of the pattern's tokens exactly if, read from the left, they
  // complete no placeholder that was not inserted.
  lemma ChainGivesTokens(pattern: string)
    ensures Compiled(pattern) == RegexText(Tokens(pattern)) <==> !Accidental(Tokens(pattern))
  {
    var tokens := Tokens(pattern);
    ChainInTokens(pattern);
    if Accidental(tokens) {
      AccidentsShow(tokens);
    } else {
      RestoresDirectories(tokens);
      RestoresAcross(tokens);
    }
  }

  // It takes two colons or two stars of the pattern to begin with: the word alone is
  // harmless, as in docs/DOUBLESTAR.
  lemma {:induction false} WordAloneIsHarmless(pattern: string)
    requires !Contains(pattern, "::") && !Contains(pattern, "**")
    ensures !Accidental(Tokens(pattern))
    decreases |pattern|
  {
    if pattern != "" {
      var (token, length) := First(pattern);
      var rest := pattern[length..];
      forall i, word | 0 <= i <= |rest| && word in ["::", "**"]
        ensures !StartsWith(rest[i..], word)
      {
        assert rest[i..] == pattern[length + i..];
      }
      WordAloneIsHarmless(rest);
      assert pattern[0..] == pattern && Tokens(pattern)[1..] == Tokens(rest);
      if FindsDirectories(Tokens(pattern)) || FindsAcross(Tokens(pattern)) {
        ColonsOfPattern(pattern);
      }
    }
  }

  lemma ColonsOfPattern(pattern: string)
    requires pattern != "" && (FindsDirectories(Tokens(pattern)) || FindsAcross(Tokens(pattern)))
    ensures StartsWith(pattern, "::") || StartsWith(pattern, "**")
  {
    var tokens := Tokens(pattern);
    if tokens[0] == Across {
      StartsWithLonger(pattern, "**", "/");
    } else {
      MarksSpelled();
      TwoColonsSpelled(3, tokens, WORD + "SLASH");
      TwoColonsSpelled(4, tokens, WORD);
      assert tokens[1..] == Tokens(pattern[1..]);
      assert pattern[1..][0] == ':';
      assert pattern[..2] == "::";
    }
  }

  lemma TwoColonsSpelled(n: nat, tokens: seq<Token>, word: string)
    ensures Completes(n, tokens, "::" + word) ==> |tokens| > 1 && tokens[0] == Literal(':') && tokens[1] == Literal(':')
  {
    CompletedFirst(n, tokens, "::" + word);
    assert ("::" + word)[1..] == ":" + word;
    if tokens != [] {
      CompletedFirst(n, tokens[1..], ":" + word);
    }
  }

  // Without a question mark either, it accepts exactly what they match.
  lemma CompiledAsMeant(pattern: string, s: string)
    requires '?' !in pattern && !Accidental(Tokens(pattern))
    ensures Compiled(pattern) == RegexText(Tokens(pattern))
    ensures OneLine(s) ==> (Regex.TextAccepts(Compiled(pattern), s) <==> Matches(Tokens(pattern), s))
  {
    ChainGivesTokens(pattern);
    if OneLine(s) {
      CompiledMeaning(Tokens(pattern), s);
    }
  }

  // ---- A question mark always changes the meaning -----------------------------

  // The pattern's literal characters, all of them or those that are no question mark.
  function Full(tokens: seq<Token>): string {
    if tokens == [] then ""
    else (if tokens[0].Literal? then [tokens[0].c] else "") + Full(tokens[1..])
  }

  function Bare(tokens: seq<Token>): string {
    if tokens == [] then ""
    else (if tokens[0].Literal? && tokens[0].c != '?' then [tokens[0].c] else "") + Bare(tokens[1..])
  }

  // The literals alone match, with every star standing for nothing, and nothing shorter does.
  lemma {:induction false} FullMatches(tokens: seq<Token>)
    requires StarFree(tokens)
    ensures Matches(tokens, Full(tokens))
  {
    if tokens != [] {
      assert StarFree(tokens[1..]);
      FullMatches(tokens[1..]);
      if tokens[0].Literal? {
        assert Full(tokens)[1..] == Full(tokens[1..]);
      } else {
        assert Full(tokens) == Full(tokens[1..]);
      }
    }
  }

  lemma {:induction false} MatchesAreLong(tokens: seq<Token>, s: string)
    requires StarFree(tokens) && Matches(tokens, s)
    ensures |s| >= |Full(tokens)|
    decreases |tokens|, |s|
  {
    if tokens != [] {
      assert StarFree(tokens[1..]);
      var rest := tokens[1..];
      if Matches(rest, s) {
        MatchesAreLong(rest, s);
      }
      if s != "" && Matches(rest, s[1..]) {
        MatchesAreLong(rest, s[1..]);
      }
      if s != "" && Matches(tokens, s[1..]) {
        MatchesAreLong(tokens, s[1..]);
      }
      if tokens[0].Directories? && !Matches(rest, s) {
        var k :| 0 <= k < |s| && s[k] == '/' && Matches(rest, s[k + 1..]);
        MatchesAreLong(rest, s[k + 1..]);
      }
    }
  }

  lemma {:induction false} BareIsShorter(tokens: seq<Token>)
    ensures |Bare(tokens)| <= |Full(tokens)|
    ensures Literal('?') in tokens ==> |Bare(tokens)| < |Full(tokens)|
    ensures OneLine(Full(tokens)) ==> OneLine(Bare(tokens))
  {
    if tokens != [] {
      BareIsShorter(tokens[1..]);
      var head := if tokens[0].Literal? then [tokens[0].c] else "";
      assert Full(tokens) == head + Full(tokens[1..]);
      assert OneLine(Full(tokens)) ==> OneLine(Full(tokens[1..]));
      assert forall c :: c in Bare(tokens) ==> c in head || c in Bare(tokens[1..]);
    }
  }

  // What is left of the tokens when a quantifier has swallowed a question mark.
  function Unmarked(tokens: seq<Token>): seq<Token> {
    if tokens != [] && tokens[0] == Literal('?') then tokens[1..] else tokens
  }

  lemma MarkIsSwallowed(tokens: seq<Token>)
    requires StarFree(tokens)
    ensures Regex.SkipLazy(RegexText(tokens)) == RegexText(Unmarked(tokens))
    ensures RegexText(tokens) != "" ==> RegexText(tokens)[0] != '*'
    ensures RegexText(tokens) != "" && RegexText(tokens)[0] == '?' ==> Unmarked(tokens) == tokens[1..]
    ensures RegexText(tokens) != "" && RegexText(tokens)[0] == '?' ==> RegexText(tokens)[1..] == RegexText(tokens[1..])
    ensures Bare(Unmarked(tokens)) == Bare(tokens)
  {
    if tokens != [] {
      assert tokens[0] in tokens;
      if tokens[0] == Literal('?') {
        assert Escape('?') == "?";
        assert RegexText(tokens)[1..] == RegexText(tokens[1..]);
        assert Bare(tokens) == "" + Bare(tokens[1..]);
      }
    }
  }

  lemma QuantifiedLiteral(c: char, more: string)
    requires c != '*' && c != '?' && (more == "" || more[0] != '*')
    ensures Regex.ParsePiece(Escape(c) + more)
         == if more != "" && more[0] == '?'
            then Some((Regex.Plain(Regex.Item(Regex.Lit(c), Regex.Maybe)), Regex.SkipLazy(more[1..])))
            else Some((Regex.Plain(Regex.Item(Regex.Lit(c), Regex.Once)), more))
  {
    var text := Escape(c) + more;
    if c in ESCAPED {
      assert text[0] == '\\' && text[1] == c && text[2..] == more;
      assert c in Regex.SYNTAX;
      assert Regex.ParseClass(text) == Some((Regex.Lit(c), more));
    } else {
      assert text[0] == c && text[1..] == more;
      assert Regex.ParseClass(text) == Some((Regex.Lit(c), more));
    }
  }

  lemma LazySegments(more: string)
    ensures Regex.ParsePiece("[^/]*" + more)
         == Some((Regex.Plain(Regex.Item(Regex.NotSlash, Regex.Star)), Regex.SkipLazy(more)))
  {
    var text := "[^/]*" + more;
    assert text[..4] == "[^/]" && text[4..] == "*" + more && ("*" + more)[1..] == more;
    assert Regex.ParseClass(text) == Some((Regex.NotSlash, "*" + more));
  }

  lemma LazyAnyRun(more: string)
    ensures Regex.ParsePiece(".*" + more)
         == Some((Regex.Plain(Regex.Item(Regex.Dot, Regex.Star)), Regex.SkipLazy(more)))
  {
    var text, star := ".*" + more, "*" + more;
    assert text[0] == '.' && text[1..] == star && star[1..] == more;
    assert Regex.ParseClass(text) == Some((Regex.Dot, star));
  }

  lemma LazyDirectories(more: string)
    ensures Regex.ParsePiece("(.*\\/)?" + more) == Some((TokenPiece(Directories), Regex.SkipLazy(more)))
  {
    var text, inner, end := "(.*\\/)?" + more, ".*\\/)?" + more, "?" + more;
    assert text[0] == '(' && text[1..] == inner;
    DirectoryGroup(end);
    assert inner == ".*\\/)" + end;
    assert end[1..] == more;
    assert Regex.ParseQuantifier(end) == (Regex.Maybe, Regex.SkipLazy(more));
  }

  lemma DirectoryGroup(end: string)
    ensures Regex.ParseGroup(".*\\/)" + end)
         == Some(([Regex.Item(Regex.Dot, Regex.Star), Regex.Item(Regex.Lit('/'), Regex.Once)], end))
  {
    var slash, close := "\\/)" + end, ")" + end;
    AnyRunReadBack(slash);
    assert ".*" + slash == ".*\\/)" + end;
    assert slash[2..] == close && slash[1] == '/' && close[1..] == end;
    assert Regex.ParseClass(slash) == Some((Regex.Lit('/'), close));
    assert Regex.ParseItem(slash) == Some((Regex.Item(Regex.Lit('/'), Regex.Once), close));
    assert Regex.ParseGroup(close) == Some(([], end));
    assert [Regex.Item(Regex.Lit('/'), Regex.Once)] + [] == [Regex.Item(Regex.Lit('/'), Regex.Once)];
    assert Regex.ParseGroup(slash) == Some(([Regex.Item(Regex.Lit('/'), Regex.Once)], end));
    assert [Regex.Item(Regex.Dot, Regex.Star)] + [Regex.Item(Regex.Lit('/'), Regex.Once)]
        == [Regex.Item(Regex.Dot, Regex.Star), Regex.Item(Regex.Lit('/'), Regex.Once)];
  }

  // A piece takes its own literal, or nothing.
  lemma PieceTakes(piece: Regex.Piece, head: string, more: seq<Regex.Piece>, s: string)
    requires Regex.PieceAccepts(piece, head) && Regex.Accepts(more, s)
    ensures Regex.Accepts([piece] + more, head + s)
  {
    assert ([piece] + more)[1..] == more;
    assert (head + s)[..|head|] == head && (head + s)[|head|..] == s;
  }

  // A question mark with nothing to quantify is no regular expression.
  lemma MarkFirst(tokens: seq<Token>)
    requires tokens != [] && tokens[0] == Literal('?')
    ensures Regex.Parse(RegexText(tokens)).None?
  {
    assert Escape('?') == "?" && RegexText(tokens)[0] == '?';
    assert Regex.ParseClass(RegexText(tokens)).None?;
  }

  // The first piece of the text accepts the literal of its token, and leaves the text of
  // later tokens.
  predicate Leaves(tokens: seq<Token>, head: string, left: seq<Token>) {
    var first := Regex.ParsePiece(RegexText(tokens));
    && first.Some? && first.value.1 == RegexText(left)
    && Regex.PieceAccepts(first.value.0, head)
    && |left| < |tokens| && StarFree(left) && Bare(left) == Bare(tokens[1..])
  }

  lemma LiteralLeaves(tokens: seq<Token>, c: char) returns (left: seq<Token>)
    requires tokens != [] && StarFree(tokens) && tokens[0] == Literal(c) && c != '?'
    ensures Leaves(tokens, [c], left)
  {
    var rest := tokens[1..];
    MarkIsSwallowed(rest);
    QuantifiedLiteral(c, RegexText(rest));
    if RegexText(rest) != "" && RegexText(rest)[0] == '?' {
      MarkIsSwallowed(rest[1..]);
      left := Unmarked(rest[1..]);
    } else {
      left := rest;
    }
  }

  lemma StarLeaves(tokens: seq<Token>) returns (left: seq<Token>)
    requires tokens != [] && StarFree(tokens) && !tokens[0].Literal?
    ensures Leaves(tokens, "", left)
  {
    var rest := tokens[1..];
    MarkIsSwallowed(rest);
    left := Unmarked(rest);
    if tokens[0].Within? {
      LazySegments(RegexText(rest));
    } else if tokens[0].Across? {
      LazyAnyRun(RegexText(rest));
    } else {
      LazyDirectories(RegexText(rest));
    }
  }

  // Whatever the question marks turn into, if the text is a regular expression at all, it
  // accepts the other literals alone.
  lemma {:induction false} BareAccepted(tokens: seq<Token>)
    requires StarFree(tokens) && Regex.Parse(RegexText(tokens)).Some?
    ensures Regex.Accepts(Regex.Parse(RegexText(tokens)).value, Bare(tokens))
    decreases |tokens|, 1
  {
    if tokens != [] {
      if tokens[0] == Literal('?') {
        MarkFirst(tokens);
      } else if tokens[0].Literal? {
        var left := LiteralLeaves(tokens, tokens[0].c);
        LeftIsAccepted(tokens, [tokens[0].c], left);
      } else {
        var left := StarLeaves(tokens);
        LeftIsAccepted(tokens, "", left);
      }
    }
  }

  lemma {:induction false} LeftIsAccepted(tokens: seq<Token>, head: string, left: seq<Token>)
    requires tokens != [] && Regex.Parse(RegexText(tokens)).Some? && Leaves(tokens, head, left)
    requires head == if tokens[0].Literal? && tokens[0].c != '?' then [tokens[0].c] else ""
    ensures Regex.Accepts(Regex.Parse(RegexText(tokens)).value, Bare(tokens))
    decreases |tokens|, 0
  {
    BareAccepted(left);
    var first := Regex.ParsePiece(RegexText(tokens)).value.0;
    PieceTakes(first, head, Regex.Parse(RegexText(left)).value, Bare(left));
    assert Bare(tokens) == head + Bare(left);
    assert RegexText(tokens) != "";
  }

  lemma {:induction false} MarksAreLiterals(pattern: string)
    requires '?' in pattern
    ensures Literal('?') in Tokens(pattern)
    decreases |pattern|
  {
    var (token, length) := First(pattern);
    if token != Literal('?') {
      StartsWithAt(pattern, "**/", 1);
      StartsWithAt(pattern, "**/", 2);
      StartsWithAt(pattern, "**", 1);
      assert forall i :: 0 <= i < length ==> pattern[i] != '?';
      assert '?' in pattern[length..];
      MarksAreLiterals(pattern[length..]);
    }
  }

  lemma {:induction false} FullIsOneLine(pattern: string)
    requires OneLine(pattern)
    ensures OneLine(Full(Tokens(pattern)))
    decreases |pattern|
  {
    if pattern != "" {
      var (token, length) := First(pattern);
      assert pattern[0] in pattern && OneLine(pattern[length..]);
      FullIsOneLine(pattern[length..]);
      assert Tokens(pattern)[1..] == Tokens(pattern[length..]);
    }
  }

  // Among the patterns that complete no placeholder, those that mean what their tokens
  // match are exactly the ones without a question mark.
  lemma MeantIfUnquestioned(pattern: string)
    requires !Accidental(Tokens(pattern)) && OneLine(pattern)
    ensures '?' !in pattern
       <==> forall s :: OneLine(s) ==> (Regex.TextAccepts(Compiled(pattern), s) <==> Matches(Tokens(pattern), s))
  {
    if '?' !in pattern {
      forall s | OneLine(s)
        ensures Regex.TextAccepts(Compiled(pattern), s) <==> Matches(Tokens(pattern), s)
      {
        CompiledAsMeant(pattern, s);
      }
    } else {
      var tokens := Tokens(pattern);
      ChainGivesTokens(pattern);
      MarksAreLiterals(pattern);
      BareIsShorter(tokens);
      FullIsOneLine(pattern);
      FullMatches(tokens);
      if Regex.Parse(RegexText(tokens)).Some? {
        BareAccepted(tokens);
        assert Regex.TextAccepts(Compiled(pattern), Bare(tokens));
        if Matches(tokens, Bare(tokens)) {
          MatchesAreLong(tokens, Bare(tokens));
        }
      } else {
        assert !Regex.TextAccepts(Compiled(pattern), Full(tokens));
      }
    }
  }

  // ---- Where the chain goes wrong ---------------------------------------------

  lemma FirstOf<A>(word: seq<A>, rest: seq<A>)
    requires word != []
    ensures word + rest == [word[0]] + (word[1..] + rest)
    ensures (word + rest)[1..] == word[1..] + rest && (word + rest)[0] == word[0]
  {
  }

  lemma LetterFirst(word: string, rest: string)
    requires Letters(word) && word != ""
    ensures Tokens(word + rest) == [Literal(word[0])] + Tokens(word[1..] + rest)
  {
    LettersGoOn(word);
    FirstOf(word, rest);
    StartsWithAt(word + rest, "**/", 0);
    StartsWithAt(word + rest, "**", 0);
  }

  function Literals(word: string): seq<Token> {
    seq(|word|, i requires 0 <= i < |word| => Literal(word[i]))
  }

  lemma {:induction false} LettersTokenized(word: string, rest: string)
    requires Letters(word)
    ensures Tokens(word + rest) == Literals(word) + Tokens(rest)
  {
    if word == "" {
      assert word + rest == rest;
    } else {
      LetterFirst(word, rest);
      LettersGoOn(word);
      LettersTokenized(word[1..], rest);
      assert Literals(word)[1..] == Literals(word[1..]);
      FirstOf(Literals(word), Tokens(rest));
    }
  }

  lemma {:induction false} LettersStaged(n: nat, word: string, rest: seq<Token>)
    requires Letters(word)
    ensures Stage(n, Literals(word) + rest) == word + Stage(n, rest)
  {
    if word == "" {
      assert Literals(word) + rest == rest;
    } else {
      LettersGoOn(word);
      LettersStaged(n, word[1..], rest);
      assert Literals(word)[1..] == Literals(word[1..]);
      FirstOf(Literals(word), rest);
      StageOfFirst(n, Literal(word[0]), Literals(word[1..]) + rest);
      FirstOf(word, Stage(n, rest));
    }
  }

  lemma LettersStayPut(word: string, rest: string)
    requires Letters(word)
    ensures Stage(3, Tokens(word + rest)) == word + Stage(3, Tokens(rest))
  {
    LettersTokenized(word, rest);
    LettersStaged(3, word, Tokens(rest));
  }

  // `**DOUBLESTARSLASH**` holds no placeholder, but the replacement of its second pair of
  // stars completes one, and the path DOUBLESTARSLASH is no longer accepted.
  lemma PlaceholderByAccident()
    ensures var word := WORD + "SLASH";
            && Matches(Tokens("**" + word + "**"), word)
            && !Regex.TextAccepts(Compiled("**" + word + "**"), word)
  {
    var word := WORD + "SLASH";
    assert Letters(word);
    var pattern := "**" + word + "**";
    AccidentalTokens(word);
    AccidentMatches(word, "**");
    assert Tokens(pattern)[1..] == Tokens(word + "**");
    AccidentalStages(pattern);
    AccidentalMark(word);
    var after := "(.*\\/)?" + ReplaceAll(WORD + "::", MARKED_DIRECTORIES, "(.*\\/)?");
    AccidentalColons(after);
    StartsWithAppended("::", ReplaceAll(WORD + after, MARKED_ACROSS, ".*"));
    ColonFirst(Compiled(pattern), word);
  }

  lemma AccidentalTokens(word: string)
    requires Letters(word) && word != ""
    ensures Tokens("**" + word + "**") == [Across] + Tokens(word + "**")
    ensures Stage(3, Tokens("**" + word + "**")) == MARKED_ACROSS + (word + MARKED_ACROSS)
    ensures '?' !in "**" + word + "**"
  {
    AcrossFirst(word, "**");
    LettersStayPut(word, "**");
    StageOfFirst(3, Across, Tokens(word + "**"));
    assert Tokens("**") == [Across] + Tokens("");
    StageOfFirst(3, Across, []);
    assert MARKED_ACROSS + "" == MARKED_ACROSS;
    assert Tokens("**") == [Across] + [];
  }

  lemma AcrossFirst(word: string, rest: string)
    requires Letters(word) && word != ""
    ensures Tokens("**" + word + rest) == [Across] + Tokens(word + rest)
  {
    var pattern := "**" + word + rest;
    LettersGoOn(word);
    FirstOf(word, rest);
    assert pattern == "**" + (word + rest) && pattern[2..] == word + rest;
    StartsWithAt(pattern, "**/", 2);
    StartsWithAt(pattern[1..], "**/", 1);
    assert First(pattern) == (Across, 2);
  }

  lemma AccidentalStages(pattern: string)
    requires '?' !in pattern
    ensures Compiled(pattern)
         == ReplaceAll(ReplaceAll(Stage(3, Tokens(pattern)), MARKED_DIRECTORIES, "(.*\\/)?"), MARKED_ACROSS, ".*")
  {
    EscapingKeepsTokens(pattern);
    MarksDirectories(pattern);
    MarksAcross(pattern);
    ReplacesStars(Tokens(pattern));
  }

  lemma {:induction false} AccidentMatches(word: string, stars: string)
    requires Letters(word) && stars == "**"
    ensures Matches(Tokens(word + stars), word)
  {
    if word == "" {
      assert word + stars == stars;
      assert Tokens(stars) == [Across] + Tokens("");
    } else {
      LetterFirst(word, stars);
      LettersGoOn(word);
      AccidentMatches(word[1..], stars);
    }
  }

  lemma AccidentalMark(word: string)
    requires word == WORD + "SLASH"
    ensures ReplaceAll(MARKED_ACROSS + (word + MARKED_ACROSS), MARKED_DIRECTORIES, "(.*\\/)?")
         == "::" + (WORD + ("(.*\\/)?" + ReplaceAll(WORD + "::", MARKED_DIRECTORIES, "(.*\\/)?")))
  {
    var rest := WORD + "::";
    var two := MARKED_DIRECTORIES + rest;
    assert MARKED_ACROSS + (word + MARKED_ACROSS) == "::" + (WORD + two);
    StartsWithAppended("::", two[2..]);
    assert two == "::" + two[2..];
    FrontIsPassedOver(two, "(.*\\/)?");
    WordIsPassedOver(two, "(.*\\/)?");
    Hit(MARKED_DIRECTORIES, "(.*\\/)?", rest);
  }

  lemma AccidentalColons(after: string)
    requires after != "" && after[0] == '('
    ensures ReplaceAll("::" + (WORD + after), MARKED_ACROSS, ".*") == "::" + ReplaceAll(WORD + after, MARKED_ACROSS, ".*")
  {
    var find := MARKED_ACROSS;
    var inner := ":" + (WORD + after);
    var text := "::" + (WORD + after);
    assert text == [':'] + inner;
    assert text[12] == '(' && find[12] == ':';
    StartsWithAt(text, find, 12);
    Miss(':', inner, find, ".*");
    assert inner[1] == 'D' && find[1] == ':';
    StartsWithAt(inner, find, 1);
    Miss(':', WORD + after, find, ".*");
  }

  // A regular expression that begins with two colons takes nothing that begins otherwise.
  lemma ColonFirst(text: string, s: string)
    requires StartsWith(text, "::") && s != "" && s[0] != ':'
    ensures !Regex.TextAccepts(text, s)
  {
    StartsWithAt(text, "::", 0);
    StartsWithAt(text, "::", 1);
    var rest := text[1..];
    LiteralReadBack(':', rest);
    assert text == Escape(':') + rest;
    var more := Regex.Parse(rest);
    if more.Some? {
      var pieces := [Regex.Plain(Regex.Item(Regex.Lit(':'), Regex.Once))] + more.value;
      OnceUnfolds(Regex.Lit(':'), more.value, s);
      assert Regex.Parse(text) == Some(pieces);
    }
  }

  // A question mark reaches the regular expression as a quantifier: `ab?` takes the path
  // "a", and not "abc", which the skill loader's compiler reads it as.
  lemma QuestionMarkIsAQuantifier()
    ensures Regex.TextAccepts(Compiled("ab?"), "a") && !Regex.TextAccepts(Compiled("ab?"), "abc")
    ensures Matches(SkillLoader.Tokens("ab?"), "abc") && !Matches(SkillLoader.Tokens("ab?"), "a")
  {
    hide Compiled;
    QuestionMarkText();
    QuestionMarkParsed();
    QuestionMarkForLoader();
    var more := [Regex.Plain(Regex.Item(Regex.Lit('b'), Regex.Maybe))];
    OptionalLetter(more);
    OnceUnfolds(Regex.Lit('a'), more, "a");
    OnceUnfolds(Regex.Lit('a'), more, "abc");
    assert "a"[1..] == "" && "abc"[1..] == "bc";
  }

  lemma OptionalLetter(more: seq<Regex.Piece>)
    requires more == [Regex.Plain(Regex.Item(Regex.Lit('b'), Regex.Maybe))]
    ensures Regex.Accepts(more, "") && !Regex.Accepts(more, "bc")
  {
    assert more[1..] == [];
    assert Regex.PieceAccepts(more[0], ""[..0]) && Regex.Accepts(more[1..], ""[0..]);
  }

  lemma QuestionMarkParsed()
    ensures Regex.Parse("ab?") == Some([Regex.Plain(Regex.Item(Regex.Lit('a'), Regex.Once))]
                                       + [Regex.Plain(Regex.Item(Regex.Lit('b'), Regex.Maybe))])
  {
    var a := Regex.Plain(Regex.Item(Regex.Lit('a'), Regex.Once));
    var b := Regex.Plain(Regex.Item(Regex.Lit('b'), Regex.Maybe));
    assert "ab?"[1..] == "b?" && "b?"[1..] == "?" && "?"[1..] == "";
    assert Regex.ParsePiece("b?") == Some((b, ""));
    assert Regex.Parse("") == Some([]) && [b] + [] == [b];
    assert Regex.Parse("b?") == Some([b]);
    assert Regex.ParsePiece("ab?") == Some((a, "b?"));
  }

  lemma QuestionMarkForLoader()
    ensures Matches(SkillLoader.Tokens("ab?"), "abc") && !Matches(SkillLoader.Tokens("ab?"), "a")
  {
    var tokens := [Literal('b'), OneChar];
    assert "ab?"[1..] == "b?" && "b?"[1..] == "?" && "?"[1..] == "";
    assert "abc"[1..] == "bc" && "bc"[1..] == "c" && "c"[1..] == "" && "a"[1..] == "";
    assert SkillLoader.Tokens("?") == [OneChar] && SkillLoader.Tokens("b?") == tokens;
    assert SkillLoader.Tokens("ab?") == [Literal('a')] + tokens;
    assert ([Literal('a')] + tokens)[1..] == tokens && tokens[1..] == [OneChar] && [OneChar][1..] == [];
    assert Matches([OneChar], "c");
    assert Matches(tokens, "bc") && !Matches(tokens, "");
  }

  lemma QuestionMarkText()
    ensures Compiled("ab?") == "ab?"
  {
    MarkHasNoStar();
    assert "ab?"[1..] == "b?" && "b?"[1..] == "?";
    assert EscapeAll("?") == "?" && EscapeAll("b?") == "b?";
    assert EscapeAll("ab?") == "ab?";
    assert "ab?" + "" == "ab?";
    Skip("ab?", "", "**/", MARKED_DIRECTORIES);
    Skip("ab?", "", "**", MARKED_ACROSS);
    Skip("ab?", "", "*", "[^/]*");
    Skip("ab?", "", MARKED_DIRECTORIES, "(.*\\/)?");
    Skip("ab?", "", MARKED_ACROSS, ".*");
  }

  // ---- The two compilers compared ---------------------------------------------

  lemma {:induction false} SlashIsReached(rest: seq<Token>, s: string)
    requires Matches([Across, Within, Literal('/')] + rest, s) || Matches([Within, Literal('/')] + rest, s)
          || Matches([Across, Literal('/')] + rest, s) || Matches([Literal('/')] + rest, s)
    ensures exists k :: 0 <= k < |s| && s[k] == '/' && Matches(rest, s[k + 1..])
    decreases |s|
  {
    assert ([Across, Within, Literal('/')] + rest)[1..] == [Within, Literal('/')] + rest;
    assert ([Within, Literal('/')] + rest)[1..] == [Literal('/')] + rest;
    assert ([Across, Literal('/')] + rest)[1..] == [Literal('/')] + rest;
    assert ([Literal('/')] + rest)[1..] == rest;
    if Matches([Literal('/')] + rest, s) {
      assert s[0] == '/' && Matches(rest, s[0 + 1..]);
    } else {
      SlashIsReached(rest, s[1..]);
      var k :| 0 <= k < |s| - 1 && s[1..][k] == '/' && Matches(rest, s[1..][k + 1..]);
      assert s[1..][k + 1..] == s[(k + 1) + 1..] && s[k + 1] == '/';
    }
  }

  // Whatever the loader's reading of a pattern matches, this one matches too.
  lemma {:induction false} LoaderMatchesLess(pattern: string, s: string)
    requires '?' !in pattern && Matches(SkillLoader.Tokens(pattern), s)
    ensures Matches(Tokens(pattern), s)
    decreases |pattern|, |s|
  {
    if pattern != "" {
      if StartsWith(pattern, "**/") {
        SlashAfterTwo(pattern);
        LoaderReachesSlash(pattern, 3, s);
      } else if StartsWith(pattern, "**") && StartsWith(pattern[1..], "**/") {
        SlashAfterThree(pattern);
        LoaderReachesSlash(pattern, 4, s);
        assert Tokens(pattern)[1..] == [Directories] + Tokens(pattern[4..]);
      } else {
        SameFirst(pattern);
        var (token, length) := First(pattern);
        var loader, here := SkillLoader.Tokens(pattern), Tokens(pattern);
        if Matches(loader[1..], s) {
          LoaderMatchesLess(pattern[length..], s);
        }
        if s != "" && Matches(loader[1..], s[1..]) {
          LoaderMatchesLess(pattern[length..], s[1..]);
        }
        if s != "" && Matches(loader, s[1..]) {
          LoaderMatchesLess(pattern, s[1..]);
        }
      }
    }
  }

  lemma SameFirst(pattern: string)
    requires pattern != "" && '?' !in pattern
    requires !StartsWith(pattern, "**/") && !(StartsWith(pattern, "**") && StartsWith(pattern[1..], "**/"))
    ensures First(pattern) == SkillLoader.First(pattern)
  {
    if |pattern| > 1 && pattern[0] == '*' && pattern[1] == '*' {
      assert pattern[..2] == "**";
    }
    StartsWithAt(pattern, "**", 1);
  }

  lemma SlashAfterTwo(pattern: string)
    requires StartsWith(pattern, "**/")
    ensures SkillLoader.Tokens(pattern) == [Across, Literal('/')] + SkillLoader.Tokens(pattern[3..])
    ensures Tokens(pattern) == [Directories] + Tokens(pattern[3..])
  {
    StartsWithAt(pattern, "**/", 0);
    StartsWithAt(pattern, "**/", 1);
    StartsWithAt(pattern, "**/", 2);
    assert pattern[2..][1..] == pattern[3..];
    assert SkillLoader.Tokens(pattern[2..]) == [Literal('/')] + SkillLoader.Tokens(pattern[3..]);
  }

  lemma SlashAfterThree(pattern: string)
    requires StartsWith(pattern, "**") && StartsWith(pattern[1..], "**/") && !StartsWith(pattern, "**/")
    ensures SkillLoader.Tokens(pattern) == [Across, Within, Literal('/')] + SkillLoader.Tokens(pattern[4..])
    ensures Tokens(pattern) == [Within, Directories] + Tokens(pattern[4..])
  {
    LoaderOnThreeStars(pattern);
    OwnOnThreeStars(pattern);
  }

  lemma OwnOnThreeStars(pattern: string)
    requires StartsWith(pattern, "**") && StartsWith(pattern[1..], "**/") && !StartsWith(pattern, "**/")
    ensures Tokens(pattern) == [Within, Directories] + Tokens(pattern[4..])
  {
    var one, rest := pattern[1..], Tokens(pattern[4..]);
    assert one[3..] == pattern[4..];
    assert Tokens(one) == [Directories] + rest;
    assert Tokens(pattern) == [Within] + ([Directories] + rest);
  }

  lemma LoaderOnThreeStars(pattern: string)
    requires StartsWith(pattern, "**") && StartsWith(pattern[1..], "**/")
    ensures SkillLoader.Tokens(pattern) == [Across, Within, Literal('/')] + SkillLoader.Tokens(pattern[4..])
  {
    StartsWithAt(pattern, "**", 0);
    StartsWithAt(pattern, "**", 1);
    StartsWithAt(pattern[1..], "**/", 1);
    StartsWithAt(pattern[1..], "**/", 2);
    var two, three := pattern[2..], pattern[3..];
    assert two[0] == '*' && two[1] == '/' && two[1..] == three;
    assert three[0] == '/' && three[1..] == pattern[4..];
    LoaderUnfolds(pattern);
    LoaderUnfolds(two);
    LoaderUnfolds(three);
  }

  lemma LoaderUnfolds(pattern: string)
    requires pattern != ""
    ensures var (token, length) := SkillLoader.First(pattern);
            SkillLoader.Tokens(pattern) == [token] + SkillLoader.Tokens(pattern[length..])
  {
  }

  lemma LoaderReachesSlash(pattern: string, length: nat, s: string)
    requires length <= |pattern| && '?' !in pattern && Matches(SkillLoader.Tokens(pattern), s)
    requires
      || SkillLoader.Tokens(pattern) == [Across, Literal('/')] + SkillLoader.Tokens(pattern[length..])
      || SkillLoader.Tokens(pattern) == [Across, Within, Literal('/')] + SkillLoader.Tokens(pattern[length..])
    requires 0 < length
    ensures Matches([Directories] + Tokens(pattern[length..]), s)
    decreases |pattern|, |s|, 0
  {
    var rest := pattern[length..];
    SlashIsReached(SkillLoader.Tokens(rest), s);
    var k :| 0 <= k < |s| && s[k] == '/' && Matches(SkillLoader.Tokens(rest), s[k + 1..]);
    LoaderMatchesLess(rest, s[k + 1..]);
    assert ([Directories] + Tokens(rest))[1..] == Tokens(rest);
  }

  lemma {:induction false} SameWithoutDirectories(pattern: string)
    requires '?' !in pattern && !Contains(pattern, "**/")
    ensures Tokens(pattern) == SkillLoader.Tokens(pattern)
    decreases |pattern|
  {
    if pattern != "" {
      assert pattern[0..] == pattern;
      assert !StartsWith(pattern[1..], "**/");
      SameFirst(pattern);
      var length := First(pattern).1;
      forall i | 0 <= i <= |pattern| - length
        ensures !StartsWith(pattern[length..][i..], "**/")
      {
        assert pattern[length..][i..] == pattern[length + i..];
      }
      SameWithoutDirectories(pattern[length..]);
    }
  }

  // On a pattern without `**/` the two compilers give the same regular expression; on any
  // other, this one accepts every one-line path the loader's accepts.
  lemma CompilersCompared(pattern: string, s: string)
    requires '?' !in pattern && !Accidental(Tokens(pattern)) && OneLine(s)
    ensures !Contains(pattern, "**/") ==> Compiled(pattern) == RegexText(SkillLoader.Tokens(pattern))
    ensures Regex.TextAccepts(RegexText(SkillLoader.Tokens(pattern)), s) ==> Regex.TextAccepts(Compiled(pattern), s)
  {
    CompiledAsMeant(pattern, s);
    SkillLoader.PatternMeaning(pattern, s);
    if !Contains(pattern, "**/") {
      SameWithoutDirectories(pattern);
    }
    if Matches(SkillLoader.Tokens(pattern), s) {
      LoaderMatchesLess(pattern, s);
    }
  }

  // The difference is real: a leading `**/` may stand for no directory here only.
  lemma DirectoriesMayBeNone(name: string)
    requires Letters(name) && name != ""
    ensures Matches(Tokens("**/" + name), name) && !Matches(SkillLoader.Tokens("**/" + name), name)
  {
    var pattern := "**/" + name;
    StartsWithAppended("**/", name);
    SlashAfterTwo(pattern);
    assert Tokens(pattern)[1..] == Tokens(name);
    LettersMatch(name);
    assert '/' !in name;
    if Matches(SkillLoader.Tokens(pattern), name) {
      SlashIsReached(SkillLoader.Tokens(name), name);
    }
  }

  lemma {:induction false} LettersMatch(name: string)
    requires Letters(name)
    ensures Matches(Tokens(name), name)
  {
    if name != "" {
      LetterFirst(name, "");
      LettersGoOn(name);
      assert name + "" == name && name[1..] + "" == name[1..];
      LettersMatch(name[1..]);
    }
  }
}
