// File globs: what they match, and the regular expressions that stand for them.

module Globs {
  import opened Wrappers
  import opened Regex

  // `*` within one segment, `**` across segments, `**/` zero or more whole directories.
  datatype Token = Literal(c: char) | OneChar | Within | Across | Directories

  predicate Matches(tokens: seq<Token>, s: string)
    decreases |tokens|, |s|
  {
    if tokens == [] then s == ""
    else
      var rest := tokens[1..];
      match tokens[0]
      case Literal(c) => s != "" && s[0] == c && Matches(rest, s[1..])
      case OneChar => s != "" && s[0] != '/' && Matches(rest, s[1..])
      case Within => Matches(rest, s) || (s != "" && s[0] != '/' && Matches(tokens, s[1..]))
      case Across => Matches(rest, s) || (s != "" && Matches(tokens, s[1..]))
      case Directories => Matches(rest, s) || exists k :: 0 <= k < |s| && s[k] == '/' && Matches(rest, s[k + 1..])
  }

  // The characters a compiler puts a backslash in front of.
  const ESCAPED: string := ".+^${}()|[]\\"

  function Escape(c: char): string {
    if c in ESCAPED then ['\\', c] else [c]
  }

  function TokenText(token: Token): string {
    match token
    case Literal(c) => Escape(c)
    case OneChar => "[^/]"
    case Within => "[^/]*"
    case Across => ".*"
    case Directories => "(.*\\/)?"
  }

  function RegexText(tokens: seq<Token>): string {
    if tokens == [] then "" else TokenText(tokens[0]) + RegexText(tokens[1..])
  }

  // Every star or question mark of the glob has become a token.
  predicate Plain(tokens: seq<Token>) {
    forall t :: t in tokens && t.Literal? ==> t.c != '*' && t.c != '?'
  }

  predicate OneLine(s: string) {
    forall c :: c in s ==> !LineBreak(c)
  }

  // ---- The text is read back as intended --------------------------------------

  function TokenPiece(token: Token): Piece {
    match token
    case Literal(c) => Piece.Plain(Item(Lit(c), Once))
    case OneChar => Piece.Plain(Item(NotSlash, Once))
    case Within => Piece.Plain(Item(NotSlash, Star))
    case Across => Piece.Plain(Item(Dot, Star))
    case Directories => Group([Item(Dot, Star), Item(Lit('/'), Once)], Maybe)
  }

  function Pieces(tokens: seq<Token>): seq<Piece> {
    if tokens == [] then [] else [TokenPiece(tokens[0])] + Pieces(tokens[1..])
  }

  predicate StartsQuantified(text: string) {
    text != "" && (text[0] == '*' || text[0] == '?')
  }

  lemma TextNeverStartsQuantified(tokens: seq<Token>)
    requires Plain(tokens)
    ensures !StartsQuantified(RegexText(tokens))
  {
    if tokens != [] {
      assert tokens[0] in tokens;
    }
  }

  lemma LiteralReadBack(c: char, rest: string)
    requires c != '*' && c != '?' && !StartsQuantified(rest)
    ensures ParsePiece(Escape(c) + rest) == Some((Piece.Plain(Item(Lit(c), Once)), rest))
  {
    var text := Escape(c) + rest;
    if c in ESCAPED {
      assert text[0] == '\\' && text[1] == c && text[2..] == rest;
      assert c in SYNTAX;
      assert ParseClass(text) == Some((Lit(c), rest));
    } else {
      assert text[0] == c && text[1..] == rest;
      assert ParseClass(text) == Some((Lit(c), rest));
    }
  }

  lemma SegmentReadBack(rest: string)
    requires !StartsQuantified(rest)
    ensures ParseClass("[^/]" + rest) == Some((NotSlash, rest))
    ensures ParsePiece("[^/]*" + rest) == Some((Piece.Plain(Item(NotSlash, Star)), rest))
  {
    assert ("[^/]" + rest)[..4] == "[^/]" && ("[^/]" + rest)[4..] == rest;
    var text := "[^/]*" + rest;
    assert text[..4] == "[^/]" && text[4..] == "*" + rest && ("*" + rest)[1..] == rest;
    assert ParseClass(text) == Some((NotSlash, "*" + rest));
  }

  lemma AnyRunReadBack(rest: string)
    requires !StartsQuantified(rest)
    ensures ParseItem(".*" + rest) == Some((Item(Dot, Star), rest))
  {
    var text := ".*" + rest;
    var star := "*" + rest;
    assert text[0] == '.' && text[1..] == star && star[1..] == rest;
    assert ParseClass(text) == Some((Dot, star));
    assert ParseQuantifier(star) == (Star, rest);
  }

  lemma DirectoriesReadBack(rest: string)
    requires !StartsQuantified(rest)
    ensures ParsePiece("(.*\\/)?" + rest) == Some((Group([Item(Dot, Star), Item(Lit('/'), Once)], Maybe), rest))
  {
    var text := "(.*\\/)?" + rest;
    var slash := "\\/)?" + rest;
    var end := ")?" + rest;
    assert text[1..] == ".*" + slash;
    AnyRunReadBack(slash);
    assert slash[2..] == end && slash[1] == '/';
    assert ParseClass(slash) == Some((Lit('/'), end));
    assert ParseItem(slash) == Some((Item(Lit('/'), Once), end));
    assert end[1..] == "?" + rest && ("?" + rest)[1..] == rest;
    assert ParseGroup(end) == Some(([], "?" + rest));
    assert [Item(Lit('/'), Once)] + [] == [Item(Lit('/'), Once)];
    assert ParseGroup(slash) == Some(([Item(Lit('/'), Once)], "?" + rest));
    assert ParseGroup(text[1..]) == Some(([Item(Dot, Star)] + [Item(Lit('/'), Once)], "?" + rest));
    assert [Item(Dot, Star)] + [Item(Lit('/'), Once)] == [Item(Dot, Star), Item(Lit('/'), Once)];
    assert ParseQuantifier("?" + rest) == (Maybe, rest);
  }

  lemma TokenReadBack(token: Token, rest: string)
    requires Plain([token]) && !StartsQuantified(rest)
    ensures ParsePiece(TokenText(token) + rest) == Some((TokenPiece(token), rest))
  {
    match token
    case Literal(c) =>
      assert token in [token];
      LiteralReadBack(c, rest);
    case OneChar => SegmentReadBack(rest);
    case Within => SegmentReadBack(rest);
    case Across => AnyRunReadBack(rest);
    case Directories => DirectoriesReadBack(rest);
  }

  lemma {:induction false} TextReadBack(tokens: seq<Token>)
    requires Plain(tokens)
    ensures Parse(RegexText(tokens)) == Some(Pieces(tokens))
  {
    if tokens != [] {
      var rest := tokens[1..];
      assert Plain([tokens[0]]) && Plain(rest);
      TextNeverStartsQuantified(rest);
      TokenReadBack(tokens[0], RegexText(rest));
      TextReadBack(rest);
    }
  }

  // ---- The pieces accept what the glob matches --------------------------------

  lemma OnceUnfolds(kind: Class, more: seq<Piece>, s: string)
    ensures Accepts([Piece.Plain(Item(kind, Once))] + more, s)
        <==> s != "" && Holds(kind, s[0]) && Accepts(more, s[1..])
  {
    var pieces := [Piece.Plain(Item(kind, Once))] + more;
    assert pieces[1..] == more;
    if s != "" && Holds(kind, s[0]) && Accepts(more, s[1..]) {
      assert PieceAccepts(pieces[0], s[..1]) && Accepts(pieces[1..], s[1..]);
    }
  }

  lemma StarTakesOne(kind: Class, more: seq<Piece>, s: string)
    requires s != "" && Holds(kind, s[0]) && Accepts([Piece.Plain(Item(kind, Star))] + more, s[1..])
    ensures Accepts([Piece.Plain(Item(kind, Star))] + more, s)
  {
    var pieces := [Piece.Plain(Item(kind, Star))] + more;
    assert pieces[1..] == more;
    var tail := s[1..];
    var k :| 0 <= k <= |tail| && PieceAccepts(pieces[0], tail[..k]) && Accepts(more, tail[k..]);
    assert tail[k..] == s[k + 1..];
    assert s[..k + 1] == [s[0]] + tail[..k];
    assert PieceAccepts(pieces[0], s[..k + 1]);
  }

  lemma StarTookSome(kind: Class, more: seq<Piece>, s: string)
    requires Accepts([Piece.Plain(Item(kind, Star))] + more, s) && !Accepts(more, s)
    ensures s != "" && Holds(kind, s[0]) && Accepts([Piece.Plain(Item(kind, Star))] + more, s[1..])
  {
    var pieces := [Piece.Plain(Item(kind, Star))] + more;
    assert pieces[1..] == more;
    var k :| 0 <= k <= |s| && PieceAccepts(pieces[0], s[..k]) && Accepts(more, s[k..]);
    assert s[0..] == s;
    var tail := s[1..];
    assert s[..k][0] == s[0];
    assert tail[..k - 1] == s[..k][1..] && tail[k - 1..] == s[k..];
    assert PieceAccepts(pieces[0], tail[..k - 1]);
  }

  lemma StarUnfolds(kind: Class, more: seq<Piece>, s: string)
    ensures var pieces := [Piece.Plain(Item(kind, Star))] + more;
            Accepts(pieces, s) <==> Accepts(more, s) || (s != "" && Holds(kind, s[0]) && Accepts(pieces, s[1..]))
  {
    var pieces := [Piece.Plain(Item(kind, Star))] + more;
    assert pieces[1..] == more;
    if Accepts(more, s) {
      assert s[0..] == s && PieceAccepts(pieces[0], s[..0]);
    } else if Accepts(pieces, s) {
      StarTookSome(kind, more, s);
    } else if s != "" && Holds(kind, s[0]) && Accepts(pieces, s[1..]) {
      StarTakesOne(kind, more, s);
    }
  }

  // `.*\/` accepts a one-line string exactly when it ends in a slash.
  lemma DirectoryAccepted(s: string)
    requires OneLine(s)
    ensures ItemsAccept([Item(Dot, Star), Item(Lit('/'), Once)], s) <==> s != "" && s[|s| - 1] == '/'
  {
    var slash := [Item(Lit('/'), Once)];
    var items := [Item(Dot, Star)] + slash;
    assert items[1..] == slash && slash[1..] == [];
    if s != "" && s[|s| - 1] == '/' {
      var k := |s| - 1;
      assert s[k..] == "/" && s[k..][1..] == "" && s[k..][..1] == "/";
      assert ItemsAccept(slash, s[k..]);
      assert ItemAccepts(items[0], s[..k]);
    }
    if ItemsAccept(items, s) {
      var k :| 0 <= k <= |s| && ItemAccepts(items[0], s[..k]) && ItemsAccept(slash, s[k..]);
      var j :| 0 <= j <= |s[k..]| && ItemAccepts(slash[0], s[k..][..j]) && ItemsAccept([], s[k..][j..]);
      assert s[k..] == s[k..][..j];
    }
  }

  lemma DirectoriesUnfold(more: seq<Piece>, s: string)
    requires OneLine(s)
    ensures Accepts([TokenPiece(Directories)] + more, s)
        <==> Accepts(more, s) || exists k :: 0 <= k < |s| && s[k] == '/' && Accepts(more, s[k + 1..])
  {
    var pieces := [TokenPiece(Directories)] + more;
    assert pieces[1..] == more;
    if Accepts(more, s) {
      assert s[0..] == s && PieceAccepts(pieces[0], s[..0]);
    }
    forall k | 0 <= k < |s| && s[k] == '/' && Accepts(more, s[k + 1..])
      ensures Accepts(pieces, s)
    {
      DirectoryAccepted(s[..k + 1]);
      assert PieceAccepts(pieces[0], s[..k + 1]);
    }
    if Accepts(pieces, s) {
      var k :| 0 <= k <= |s| && PieceAccepts(pieces[0], s[..k]) && Accepts(more, s[k..]);
      DirectoryAccepted(s[..k]);
      if k == 0 {
        assert s[0..] == s;
      } else {
        assert s[..k][k - 1] == s[k - 1] && s[(k - 1) + 1..] == s[k..];
      }
    }
  }

  lemma {:induction false} PiecesMeanTheGlob(tokens: seq<Token>, s: string)
    requires OneLine(s)
    ensures Accepts(Pieces(tokens), s) <==> Matches(tokens, s)
    decreases |tokens|, |s|
  {
    if tokens != [] {
      var rest := tokens[1..];
      var more := Pieces(rest);
      PiecesMeanTheGlob(rest, s);
      if s != "" {
        assert OneLine(s[1..]);
        assert s[0] in s;
        PiecesMeanTheGlob(rest, s[1..]);
        PiecesMeanTheGlob(tokens, s[1..]);
      }
      match tokens[0]
      case Literal(c) => OnceUnfolds(Lit(c), more, s);
      case OneChar => OnceUnfolds(NotSlash, more, s);
      case Within => StarUnfolds(NotSlash, more, s);
      case Across => StarUnfolds(Dot, more, s);
      case Directories =>
        DirectoriesUnfold(more, s);
        forall k | 0 <= k < |s| && s[k] == '/'
          ensures Accepts(more, s[k + 1..]) <==> Matches(rest, s[k + 1..])
        {
          PiecesMeanTheGlob(rest, s[k + 1..]);
        }
    }
  }

  // The compiled text accepts exactly the one-line strings the glob matches.
  lemma CompiledMeaning(tokens: seq<Token>, s: string)
    requires Plain(tokens) && OneLine(s)
    ensures TextAccepts(RegexText(tokens), s) <==> Matches(tokens, s)
  {
    TextReadBack(tokens);
    PiecesMeanTheGlob(tokens, s);
  }
}
