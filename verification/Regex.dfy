// The regular expressions the glob compilers produce: their text, read as the language's
// grammar reads it, and the strings they accept. `^` and `$` around the text are implied.

module Regex {
  import opened Wrappers

  datatype Class = Lit(c: char) | Dot | NotSlash

  datatype Quantifier = Once | Star | Maybe

  datatype Item = Item(kind: Class, quantifier: Quantifier)

  datatype Piece = Plain(item: Item) | Group(items: seq<Item>, quantifier: Quantifier)

  // ---- Reading the text -------------------------------------------------------

  const SYNTAX: string := ".+^${}()|[]\\*?"

  function ParseClass(text: string): (r: Option<(Class, string)>)
    ensures r.Some? ==> |r.value.1| < |text|
  {
    if text == "" then None
    else if text[0] == '.' then Some((Dot, text[1..]))
    else if |text| >= 4 && text[..4] == "[^/]" then Some((NotSlash, text[4..]))
    else if text[0] == '\\' then
      if |text| >= 2 && (text[1] in SYNTAX || text[1] == '/') then Some((Lit(text[1]), text[2..])) else None
    else if text[0] in SYNTAX then None
    else Some((Lit(text[0]), text[1..]))
  }

  // A question mark after a quantifier makes it lazy, which changes nothing about what the
  // whole text accepts.
  function SkipLazy(text: string): (rest: string)
    ensures |rest| <= |text|
  {
    if text != "" && text[0] == '?' then text[1..] else text
  }

  function ParseQuantifier(text: string): (r: (Quantifier, string))
    ensures |r.1| <= |text|
  {
    if text != "" && text[0] == '*' then (Star, SkipLazy(text[1..]))
    else if text != "" && text[0] == '?' then (Maybe, SkipLazy(text[1..]))
    else (Once, text)
  }

  function ParseItem(text: string): (r: Option<(Item, string)>)
    ensures r.Some? ==> |r.value.1| < |text|
  {
    var kind := ParseClass(text);
    if kind.None? then None
    else
      var (quantifier, rest) := ParseQuantifier(kind.value.1);
      Some((Item(kind.value.0, quantifier), rest))
  }

  function ParseGroup(text: string): (r: Option<(seq<Item>, string)>)
    ensures r.Some? ==> |r.value.1| < |text|
    decreases |text|
  {
    if text == "" then None
    else if text[0] == ')' then Some(([], text[1..]))
    else
      var first := ParseItem(text);
      if first.None? then None
      else
        var more := ParseGroup(first.value.1);
        if more.None? then None else Some(([first.value.0] + more.value.0, more.value.1))
  }

  function ParsePiece(text: string): (r: Option<(Piece, string)>)
    ensures r.Some? ==> |r.value.1| < |text|
  {
    if text != "" && text[0] == '(' then
      var group := ParseGroup(text[1..]);
      if group.None? then None
      else
        var (quantifier, rest) := ParseQuantifier(group.value.1);
        Some((Group(group.value.0, quantifier), rest))
    else
      var item := ParseItem(text);
      if item.None? then None else Some((Plain(item.value.0), item.value.1))
  }

  function Parse(text: string): Option<seq<Piece>>
    decreases |text|
  {
    if text == "" then Some([])
    else
      var first := ParsePiece(text);
      if first.None? then None
      else
        var more := Parse(first.value.1);
        if more.None? then None else Some([first.value.0] + more.value)
  }

  // ---- What it accepts --------------------------------------------------------

  predicate LineBreak(c: char) {
    c == '\n' || c == '\r' || c == '\U{2028}' || c == '\U{2029}'
  }

  predicate Holds(kind: Class, c: char) {
    match kind
    case Lit(l) => c == l
    case Dot => !LineBreak(c)
    case NotSlash => c != '/'
  }

  predicate ItemAccepts(item: Item, s: string) {
    match item.quantifier
    case Once => |s| == 1 && Holds(item.kind, s[0])
    case Maybe => s == "" || (|s| == 1 && Holds(item.kind, s[0]))
    case Star => forall i :: 0 <= i < |s| ==> Holds(item.kind, s[i])
  }

  predicate ItemsAccept(items: seq<Item>, s: string) {
    if items == [] then s == ""
    else exists k :: 0 <= k <= |s| && ItemAccepts(items[0], s[..k]) && ItemsAccept(items[1..], s[k..])
  }

  predicate GroupRepeats(items: seq<Item>, s: string)
    decreases |s|
  {
    s == "" || exists k :: 0 < k <= |s| && ItemsAccept(items, s[..k]) && GroupRepeats(items, s[k..])
  }

  predicate PieceAccepts(piece: Piece, s: string) {
    match piece
    case Plain(item) => ItemAccepts(item, s)
    case Group(items, Once) => ItemsAccept(items, s)
    case Group(items, Maybe) => s == "" || ItemsAccept(items, s)
    case Group(items, Star) => GroupRepeats(items, s)
  }

  predicate Accepts(pieces: seq<Piece>, s: string) {
    if pieces == [] then s == ""
    else exists k :: 0 <= k <= |s| && PieceAccepts(pieces[0], s[..k]) && Accepts(pieces[1..], s[k..])
  }

  // A text that is no regular expression accepts nothing: compiling it throws.
  predicate TextAccepts(text: string, s: string) {
    Parse(text).Some? && Accepts(Parse(text).value, s)
  }
}
