// What the frontmatter parser reads from text of any origin (src/adaptive/skill-author.ts):
// scalars, collections on one line, and the lists and maps indented below a key.

module SkillReading {
  import opened Wrappers
  import opened Strings
  import opened SkillAuthor

  // ---- Scalars ----------------------------------------------------------------

  // A numeral, with a minus in front or without.
  predicate Signed(v: string, sign: string, digits: string) {
    (sign == "" || sign == "-") && digits != "" && AllDigits(digits) && v == sign + digits
  }

  predicate SignedFraction(v: string, sign: string, whole: string, part: string) {
    && (sign == "" || sign == "-") && whole != "" && AllDigits(whole) && part != "" && AllDigits(part)
    && v == sign + whole + "." + part
  }

  predicate Quoted(v: string, q: char, text: string) {
    (q == '"' || q == '\'') && (v == [q] + text + [q] || (v == [q] && text == ""))
  }

  lemma WordsAreRead()
    ensures CoerceScalar("true") == Bool(true) && CoerceScalar("false") == Bool(false)
    ensures CoerceScalar("null") == Null && CoerceScalar("~") == Null && CoerceScalar("") == Str("")
  {
  }

  lemma NumeralIsRead(v: string, sign: string, digits: string)
    requires Signed(v, sign, digits)
    ensures CoerceScalar(v) == Num(if sign == "" then ParseDecimal(digits) else 0 - ParseDecimal(digits))
  {
    assert digits[0] in digits && IsDigit(digits[0]);
    if sign == "" {
      assert v == digits;
    } else {
      assert v[0] == '-' && v[1..] == digits;
    }
    assert IsInteger(v);
    assert v[0] == '-' || IsDigit(v[0]);
    assert IsDigit(v[|v| - 1]) by {
      assert v[|v| - 1] == digits[|digits| - 1] && digits[|digits| - 1] in digits;
    }
  }

  lemma {:induction false} DigitsBefore(digits: string, rest: string)
    requires AllDigits(digits) && (rest == "" || !IsDigit(rest[0]))
    ensures LeadingDigits(digits + rest) == |digits|
  {
    if digits == "" {
      assert digits + rest == rest;
    } else {
      assert digits[0] in digits;
      assert forall c :: c in digits[1..] ==> c in digits;
      assert (digits + rest)[0] == digits[0] && (digits + rest)[1..] == digits[1..] + rest;
      DigitsBefore(digits[1..], rest);
    }
  }

  lemma SignSplits(v: string, sign: string, rest: string)
    requires (sign == "" || sign == "-") && v == sign + rest && rest != "" && rest[0] != '-'
    ensures Unsigned(v) == rest
  {
    if sign == "" {
      assert v == rest;
    } else {
      assert v[1..] == rest;
    }
  }

  lemma FractionShape(whole: string, part: string)
    requires AllDigits(whole)
    ensures var u := whole + ("." + part);
            && LeadingDigits(u) == |whole| && u[|whole|] == '.' && u[|whole| + 1..] == part && !AllDigits(u)
  {
    var u := whole + ("." + part);
    DigitsBefore(whole, "." + part);
    assert u[|whole|] in u;
  }

  lemma FractionIsFraction(v: string, sign: string, whole: string, part: string)
    requires SignedFraction(v, sign, whole, part)
    ensures IsFraction(v) && !IsInteger(v) && (v[0] == '-' || IsDigit(v[0]))
  {
    var u := whole + ("." + part);
    assert whole[0] in whole && u[0] == whole[0];
    assert sign + whole + "." + part == sign + u;
    SignSplits(v, sign, u);
    FractionShape(whole, part);
    hide LeadingDigits, Unsigned;
  }

  lemma FractionIsRead(v: string, sign: string, whole: string, part: string)
    requires SignedFraction(v, sign, whole, part)
    ensures CoerceScalar(v) == Fraction(v)
  {
    FractionIsFraction(v, sign, whole, part);
    hide SignedFraction, IsFraction, IsInteger;
  }

  lemma QuotedIsNoNumber(v: string)
    requires v != "" && (v[0] == '"' || v[0] == '\'')
    ensures !IsInteger(v) && !IsFraction(v)
  {
    assert Unsigned(v) == v && v[0] in v;
  }

  lemma QuotedInside(v: string, q: char, text: string)
    requires Quoted(v, q, text)
    ensures v != "" && v[0] == q && v[|v| - 1] == q && Inside(v) == text
  {
    if v == [q] + text + [q] {
      assert v[1..|v| - 1] == text;
    }
  }

  lemma QuotedIsRead(v: string, q: char, text: string)
    requires Quoted(v, q, text)
    ensures CoerceScalar(v) == Str(text)
  {
    QuotedInside(v, q, text);
    assert q == '"' || q == '\'';
    QuotedIsNoNumber(v);
    hide Quoted, IsInteger, IsFraction, Inside;
  }

  lemma IntegerIsSigned(v: string) returns (sign: string, digits: string)
    requires IsInteger(v)
    ensures Signed(v, sign, digits)
  {
    sign, digits := if v[0] == '-' then "-" else "", Unsigned(v);
  }

  lemma FractionIsSigned(v: string) returns (sign: string, whole: string, part: string)
    requires IsFraction(v)
    ensures SignedFraction(v, sign, whole, part)
  {
    sign := SignKept(v);
    whole, part := PointSplits(Unsigned(v));
    FourRegrouped(sign, whole, ".", part);
    hide LeadingDigits, Unsigned, IsFraction, AllDigits;
  }

  lemma SignKept(v: string) returns (sign: string)
    ensures (sign == "" || sign == "-") && v == sign + Unsigned(v)
  {
    sign := if v != "" && v[0] == '-' then "-" else "";
  }

  lemma FourRegrouped(a: string, b: string, c: string, d: string)
    ensures a + (b + c + d) == a + b + c + d
  {
  }

  lemma PointSplits(u: string) returns (whole: string, part: string)
    requires var n := LeadingDigits(u); 0 < n < |u| && u[n] == '.' && u[n + 1..] != "" && AllDigits(u[n + 1..])
    ensures u == whole + "." + part && whole != "" && AllDigits(whole) && part != "" && AllDigits(part)
  {
    var n := LeadingDigits(u);
    whole, part := u[..n], u[n + 1..];
  }

  lemma WrappedIsQuoted(v: string) returns (text: string)
    requires Wrapped(v, '"', '"') || Wrapped(v, '\'', '\'')
    ensures Quoted(v, v[0], text)
  {
    text := if |v| == 1 then "" else v[1..|v| - 1];
  }

  // Anything else is a text.
  lemma OtherIsText(v: string)
    requires v !in {"true", "false", "null", "~"}
    requires forall sign, digits :: !Signed(v, sign, digits)
    requires forall sign, whole, part :: !SignedFraction(v, sign, whole, part)
    requires forall q, text :: !Quoted(v, q, text)
    ensures CoerceScalar(v) == Str(v)
  {
    hide Signed, SignedFraction, Quoted, IsInteger, IsFraction, Wrapped;
    if IsInteger(v) {
      var sign, digits := IntegerIsSigned(v);
    }
    if IsFraction(v) {
      var sign, whole, part := FractionIsSigned(v);
    }
    if Wrapped(v, '"', '"') || Wrapped(v, '\'', '\'') {
      var text := WrappedIsQuoted(v);
    }
  }

  // ---- Lines ------------------------------------------------------------------

  lemma SpaceThen(space: string, s: string)
    requires AllSpace(space) && (s == "" || !Space(s[0]))
    ensures TrimLeft(space + s) == s && Indent(space + s) == |space|
  {
    TrimLeftDrops(space, s);
  }

  lemma StartsAfterSpace(space: string, s: string)
    requires AllSpace(space) && s != "" && !Space(s[0])
    ensures Trim(space + s) != "" && Trim(space + s)[0] == s[0]
  {
    SpaceThen(space, s);
    KeepsFirst(s);
  }

  lemma SpaceIsBlank(line: string)
    requires AllSpace(line)
    ensures Trim(line) == ""
  {
    SpaceThen(line, "");
    assert line + "" == line;
  }

  function EntryLine(pad: string, key: string, before: string, gap: string, text: string): string {
    pad + (key + (before + (":" + (gap + text))))
  }

  predicate ProperEntry(pad: string, key: string, before: string, gap: string, text: string) {
    && AllSpace(pad) && Key(key) && AllSpace(before) && AllSpace(gap)
    && Trimmed(text) && OneLine(text)
  }

  // A key, a colon and a text, with space before, between and after, is read as such.
  lemma EntryIsRead(pad: string, key: string, before: string, gap: string, text: string)
    requires ProperEntry(pad, key, before, gap, text)
    ensures var line := EntryLine(pad, key, before, gap, text);
            && ReadEntry(line) == Some(Entry(|pad|, key, text)) && LineEntry(line) == ReadEntry(line)
            && Indent(line) == |pad| && Trim(line) != ""
  {
    var colon := ":" + (gap + text);
    var field := key + (before + colon);
    assert field[0] == key[0] && key[0] in key;
    KeyIsNoSpace(key[0]);
    SpaceThen(pad, field);
    StartsAfterSpace(pad, field);
    assert (before + colon)[0] == if before == "" then ':' else before[0];
    assert before != "" ==> before[0] in before;
    SpaceIsNoKey((before + colon)[0]);
    KeyMeasured(key, before + colon);
    assert field[..|key|] == key && field[|key|..] == before + colon;
    SpaceThen(before, colon);
    assert colon[1..] == gap + text;
    TrimLeftDrops(gap, text);
    TrimmedStays(text);
  }

  lemma SpaceIsNoKey(c: char)
    requires Space(c) || c == ':'
    ensures !KeyChar(c)
  {
  }

  // A list item is no entry of a map, whatever else it looks like.
  lemma ItemIsRead(pad: string, gap: string, text: string)
    requires AllSpace(pad) && AllSpace(gap) && gap != "" && (text == "" || !Space(text[0]))
    ensures var line := pad + ("-" + (gap + text));
            && IsItem(line) && ItemValue(line) == (if ':' in text then Str(text) else CoerceScalar(text))
            && Indent(line) == |pad| && Trim(line) != ""
  {
    var item := "-" + (gap + text);
    SpaceThen(pad, item);
    StartsAfterSpace(pad, item);
    assert item[1] == gap[0] && gap[0] in gap;
    assert item[1..] == gap + text;
    SpaceThen(gap, text);
  }

  // ---- Rows below a key -------------------------------------------------------

  datatype Row =
    | Blank(line: string)
    | Item(pad: string, gap: string, text: string)
    | Pair(pad: string, key: string, before: string, gap: string, text: string)

  function LineOf(row: Row): string {
    match row
    case Blank(line) => line
    case Item(pad, gap, text) => pad + ("-" + (gap + text))
    case Pair(pad, key, before, gap, text) => EntryLine(pad, key, before, gap, text)
  }

  // Rows are blank or indented deeper than their key. A key of a single dash with a space
  // behind it would be an item.
  predicate ProperRow(row: Row, depth: nat) {
    match row
    case Blank(line) => AllSpace(line)
    case Item(pad, gap, text) =>
      AllSpace(pad) && |pad| > depth && AllSpace(gap) && gap != "" && (text == "" || !Space(text[0]))
    case Pair(pad, key, before, gap, text) =>
      ProperEntry(pad, key, before, gap, text) && |pad| > depth && !(key == "-" && before != "")
  }

  predicate ProperRows(rows: seq<Row>, depth: nat) {
    forall i :: 0 <= i < |rows| ==> ProperRow(rows[i], depth)
  }

  function LinesOf(rows: seq<Row>): seq<string> {
    if rows == [] then [] else [LineOf(rows[0])] + LinesOf(rows[1..])
  }

  // The values of the list items, in order.
  function Listed(rows: seq<Row>): seq<Yaml> {
    if rows == [] then []
    else
      (match rows[0]
       case Item(_, _, text) => [if ':' in text then Str(text) else CoerceScalar(text)]
       case _ => [])
      + Listed(rows[1..])
  }

  // The entries of the pairs; of two with one key the later counts.
  function Mapped(entries: map<string, Yaml>, rows: seq<Row>): map<string, Yaml>
    decreases rows
  {
    if rows == [] then entries
    else Mapped(if rows[0].Pair? then entries[rows[0].key := CoerceScalar(rows[0].text)] else entries, rows[1..])
  }

  predicate AnyItem(rows: seq<Row>) {
    exists i :: 0 <= i < |rows| && rows[i].Item?
  }

  predicate AnyPair(rows: seq<Row>) {
    exists i :: 0 <= i < |rows| && rows[i].Pair?
  }

  // Any item makes the block a list, whatever pairs there are; if there are only pairs it is
  // a map. A line that is neither cuts the block off, and makes one without items a map.
  function BlockMeaning(rows: seq<Row>, cut: bool): Yaml {
    if AnyItem(rows) then Items(Listed(rows))
    else if AnyPair(rows) || cut then Map(Mapped(map[], rows))
    else Undefined
  }

  function WithRow(b: Block, row: Row): Block {
    match row
    case Blank(_) => b.(count := b.count + 1)
    case Item(_, _, text) =>
      b.(list := b.list + [if ':' in text then Str(text) else CoerceScalar(text)], isList := true, count := b.count + 1)
    case Pair(_, key, _, _, text) =>
      b.(entries := b.entries[key := CoerceScalar(text)], isMap := true, count := b.count + 1)
  }

  lemma RowIsTaken(row: Row, depth: nat, b: Block)
    requires ProperRow(row, depth)
    ensures TakeBlockLine(See(LineOf(row)), depth, b) == (WithRow(b, row), true)
  {
    hide CoerceScalar, ItemValue, IsItem, ReadEntry, Trim, Indent, EntryLine;
    match row
    case Blank(line) => SpaceIsBlank(line);
    case Item(pad, gap, text) => ItemIsRead(pad, gap, text);
    case Pair(pad, key, before, gap, text) =>
      EntryIsRead(pad, key, before, gap, text);
      PairIsNoItem(pad, key, before, gap, text);
  }

  lemma PairIsNoItem(pad: string, key: string, before: string, gap: string, text: string)
    requires ProperEntry(pad, key, before, gap, text) && !(key == "-" && before != "")
    ensures !IsItem(EntryLine(pad, key, before, gap, text))
  {
    var field := key + (before + (":" + (gap + text)));
    assert field[0] == key[0] && key[0] in key;
    KeyIsNoSpace(key[0]);
    SpaceThen(pad, field);
    if |key| > 1 {
      assert field[1] == key[1] && key[1] in key;
      KeyIsNoSpace(key[1]);
    } else if before == "" {
      assert field[1] == ':';
    }
  }

  function WithRows(b: Block, rows: seq<Row>): Block
    decreases rows
  {
    if rows == [] then b else WithRows(WithRow(b, rows[0]), rows[1..])
  }

  lemma ListedLater(b: Block, rows: seq<Row>)
    requires rows != []
    ensures WithRow(b, rows[0]).list + Listed(rows[1..]) == b.list + Listed(rows)
  {
    hide CoerceScalar;
    var later := Listed(rows[1..]);
    if rows[0].Item? {
      var value := if ':' in rows[0].text then Str(rows[0].text) else CoerceScalar(rows[0].text);
      assert b.list + [value] + later == b.list + ([value] + later);
    } else {
      assert [] + later == later;
    }
  }

  lemma {:induction false} RowsInAll(b: Block, rows: seq<Row>)
    ensures WithRows(b, rows)
         == Block(b.list + Listed(rows), Mapped(b.entries, rows), b.isList || AnyItem(rows), b.isMap || AnyPair(rows),
                  b.count + |rows|)
    decreases rows
  {
    if rows == [] {
      assert b.list + [] == b.list;
    } else {
      RowsInAll(WithRow(b, rows[0]), rows[1..]);
      AnyLater(rows);
      ListedLater(b, rows);
      hide CoerceScalar, Listed, AnyItem, AnyPair;
    }
  }

  lemma AnyLater(rows: seq<Row>)
    requires rows != []
    ensures AnyItem(rows) <==> rows[0].Item? || AnyItem(rows[1..])
    ensures AnyPair(rows) <==> rows[0].Pair? || AnyPair(rows[1..])
  {
    assert forall i :: 0 <= i < |rows| - 1 ==> rows[1..][i] == rows[i + 1];
    if AnyItem(rows[1..]) {
      var i :| 0 <= i < |rows| - 1 && rows[1..][i].Item?;
      assert rows[i + 1].Item?;
    }
    if AnyPair(rows[1..]) {
      var i :| 0 <= i < |rows| - 1 && rows[1..][i].Pair?;
      assert rows[i + 1].Pair?;
    }
  }

  // The next line is indented, but neither an item nor an entry.
  predicate Cuts(next: seq<Seen>, depth: nat) {
    next != [] && !next[0].blank && next[0].indent > depth && next[0].item.None? && next[0].nested.None?
  }

  predicate Stops(next: seq<Seen>, depth: nat) {
    next == [] || (!next[0].blank && next[0].indent <= depth) || Cuts(next, depth)
  }

  lemma {:induction false} RowsAreRead(rows: seq<Row>, next: seq<Seen>, depth: nat, b: Block)
    requires ProperRows(rows, depth) && Stops(next, depth)
    ensures ReadBlock(SeeAll(LinesOf(rows)) + next, depth, b)
         == var r := WithRows(b, rows); if Cuts(next, depth) then r.(isMap := true) else r
    decreases rows
  {
    if rows == [] {
      assert SeeAll(LinesOf(rows)) + next == next;
    } else {
      hide See, LineOf, WithRow;
      var first, rest := LineOf(rows[0]), LinesOf(rows[1..]);
      SeeFirst(first, rest);
      var below := SeeAll(rest) + next;
      assert SeeAll([first] + rest) + next == [See(first)] + below;
      assert ([See(first)] + below)[1..] == below;
      RowIsTaken(rows[0], depth, b);
      RowsAreRead(rows[1..], next, depth, WithRow(b, rows[0]));
    }
  }

  // ---- Whole documents --------------------------------------------------------

  // What stands at the root: lines that say nothing, a key with a value on its line, and a
  // key with rows below it.
  datatype Part =
    | Nothing(line: string)
    | Comment(pad: string, text: string)
    | Colonless(line: string)
    | Value(pad: string, key: string, before: string, gap: string, text: string)
    | Below(pad: string, key: string, before: string, gap: string, mark: string, rows: seq<Row>)

  predicate ProperPart(part: Part) {
    match part
    case Nothing(line) => AllSpace(line)
    case Comment(pad, _) => AllSpace(pad)
    case Colonless(line) => ':' !in line
    case Value(pad, key, before, gap, text) =>
      ProperEntry(pad, key, before, gap, text) && text != "" && text != "|" && text != ">"
    case Below(pad, key, before, gap, mark, rows) =>
      ProperEntry(pad, key, before, gap, mark) && (mark == "" || mark == "|" || mark == ">") && ProperRows(rows, |pad|)
  }

  function PartLines(part: Part): (lines: seq<string>)
    ensures lines != []
  {
    match part
    case Nothing(line) => [line]
    case Comment(pad, text) => [pad + ("#" + text)]
    case Colonless(line) => [line]
    case Value(pad, key, before, gap, text) => [EntryLine(pad, key, before, gap, text)]
    case Below(pad, key, before, gap, mark, rows) => [EntryLine(pad, key, before, gap, mark)] + LinesOf(rows)
  }

  function Document(parts: seq<Part>): seq<string> {
    if parts == [] then [] else PartLines(parts[0]) + Document(parts[1..])
  }

  // Rows go on to the next line that is not blank and indented no deeper than their key, or
  // is neither an item nor an entry.
  predicate ProperDocument(parts: seq<Part>) {
    parts != [] ==>
      && ProperPart(parts[0]) && ProperDocument(parts[1..])
      && (parts[0].Below? ==> Stops(SeeAll(Document(parts[1..])), |parts[0].pad|))
  }

  function ReadAs(parts: seq<Part>, root: map<string, Yaml>): map<string, Yaml>
    decreases parts
  {
    if parts == [] then root
    else
      var rest := parts[1..];
      match parts[0]
      case Value(_, key, _, _, text) => ReadAs(rest, root[key := Inline(text)])
      case Below(pad, key, _, _, _, rows) =>
        ReadAs(rest, root[key := BlockMeaning(rows, Cuts(SeeAll(Document(rest)), |pad|))])
      case _ => ReadAs(rest, root)
  }

  lemma {:induction false} TrimmedWithin(s: string, c: char)
    ensures c in TrimLeft(s) ==> c in s
  {
    if s != "" && Space(s[0]) {
      TrimmedWithin(s[1..], c);
    }
  }

  lemma ColonlessIsNoEntry(line: string)
    requires ':' !in line
    ensures ReadEntry(line).None?
  {
    var text := TrimLeft(line);
    TrimmedWithin(line, ':');
    TrimmedWithin(text[KeyLength(text)..], ':');
    var after := TrimLeft(text[KeyLength(text)..]);
    assert after != "" ==> after[0] in after;
  }

  lemma QuietPart(part: Part)
    requires ProperPart(part) && (part.Nothing? || part.Comment? || part.Colonless?)
    ensures See(PartLines(part)[0]).head.None?
  {
    match part
    case Nothing(line) => SpaceIsBlank(line);
    case Comment(pad, text) => StartsAfterSpace(pad, "#" + text);
    case Colonless(line) => ColonlessIsNoEntry(line);
  }

  lemma ValuePart(part: Part)
    requires ProperPart(part) && part.Value?
    ensures See(PartLines(part)[0]).head == Some(Holds(part.key, Inline(part.text)))
  {
    hide Inline, CoerceScalar, IsItem, ReadEntry, Trim, Indent, EntryLine;
    EntryIsRead(part.pad, part.key, part.before, part.gap, part.text);
  }

  lemma BelowPart(part: Part)
    requires ProperPart(part) && part.Below?
    ensures var x := See(PartLines(part)[0]); x.head == Some(Opens(part.key)) && x.indent == |part.pad|
  {
    hide Inline, CoerceScalar, IsItem, ReadEntry, Trim, Indent, EntryLine;
    EntryIsRead(part.pad, part.key, part.before, part.gap, part.mark);
  }

  lemma BlockIsTaken(x: Seen, key: string, below: seq<Seen>, next: seq<Seen>, b: Block, root: map<string, Yaml>)
    requires x.head == Some(Opens(key)) && ReadBlock(below, x.indent, NO_BLOCK) == b
    requires below[b.count..] == next
    ensures ParseSeen([x] + below, root) == ParseSeen(next, root[key := BlockValue(b)])
  {
    var xs := [x] + below;
    assert xs[1..] == below && xs[1 + b.count..] == next;
  }

  lemma RowsMean(rows: seq<Row>, next: seq<Seen>, depth: nat) returns (b: Block)
    requires ProperRows(rows, depth) && Stops(next, depth)
    ensures b == ReadBlock(SeeAll(LinesOf(rows)) + next, depth, NO_BLOCK)
    ensures b.count == |rows| && BlockValue(b) == BlockMeaning(rows, Cuts(next, depth))
  {
    RowsAreRead(rows, next, depth, NO_BLOCK);
    RowsInAll(NO_BLOCK, rows);
    b := ReadBlock(SeeAll(LinesOf(rows)) + next, depth, NO_BLOCK);
    assert [] + Listed(rows) == Listed(rows);
  }

  lemma BelowIsRead(part: Part, rest: seq<string>, root: map<string, Yaml>)
    requires ProperPart(part) && part.Below? && Stops(SeeAll(rest), |part.pad|)
    ensures ParseSeen(SeeAll(PartLines(part) + rest), root)
         == ParseSeen(SeeAll(rest), root[part.key := BlockMeaning(part.rows, Cuts(SeeAll(rest), |part.pad|))])
  {
    hide See, BlockMeaning, ReadBlock, Stops, Cuts, ParseSeen, BlockValue;
    var first, rows, next := PartLines(part)[0], SeeAll(LinesOf(part.rows)), SeeAll(rest);
    BelowPart(part);
    BelowSeen(part, rest);
    var b := RowsMean(part.rows, next, |part.pad|);
    BlockIsTaken(See(first), part.key, rows + next, next, b, root);
  }

  lemma BelowSeen(part: Part, rest: seq<string>)
    requires part.Below?
    ensures var rows, next := SeeAll(LinesOf(part.rows)), SeeAll(rest);
            && SeeAll(PartLines(part) + rest) == [See(PartLines(part)[0])] + (rows + next)
            && |rows| == |part.rows| && (rows + next)[|part.rows|..] == next
  {
    hide See;
    var first := PartLines(part)[0];
    LinesCounted(part.rows);
    SeenTogether(LinesOf(part.rows), rest);
    SeeFirst(first, LinesOf(part.rows) + rest);
    assert PartLines(part) + rest == [first] + (LinesOf(part.rows) + rest);
  }

  lemma OtherIsRead(part: Part, rest: seq<string>, root: map<string, Yaml>)
    requires ProperPart(part) && !part.Below?
    ensures ParseSeen(SeeAll(PartLines(part) + rest), root)
         == ParseSeen(SeeAll(rest), if part.Value? then root[part.key := Inline(part.text)] else root)
  {
    hide See, Inline, ParseSeen;
    var first := PartLines(part)[0];
    assert PartLines(part) == [first];
    SeeFirst(first, rest);
    if part.Value? {
      ValuePart(part);
      TakesHead(See(first), part.key, Inline(part.text), SeeAll(rest), root);
    } else {
      QuietPart(part);
      TakesNothing(See(first), SeeAll(rest), root);
    }
  }

  lemma {:induction false} LinesCounted(rows: seq<Row>)
    ensures |LinesOf(rows)| == |rows|
  {
    if rows != [] {
      LinesCounted(rows[1..]);
    }
  }

  // Every document made of such parts, in any number and order, is read part by part.
  lemma {:induction false} DocumentIsRead(parts: seq<Part>, root: map<string, Yaml>)
    requires ProperDocument(parts)
    ensures ParseSeen(SeeAll(Document(parts)), root) == ReadAs(parts, root)
    decreases parts
  {
    if parts != [] {
      hide See, BlockMeaning, Inline, ParseSeen, ProperPart, Stops, Cuts;
      var part, rest := parts[0], Document(parts[1..]);
      if part.Below? {
        BelowIsRead(part, rest, root);
        DocumentIsRead(parts[1..], root[part.key := BlockMeaning(part.rows, Cuts(SeeAll(rest), |part.pad|))]);
      } else {
        OtherIsRead(part, rest, root);
        DocumentIsRead(parts[1..], if part.Value? then root[part.key := Inline(part.text)] else root);
      }
    }
  }

  lemma TakesNothing(x: Seen, more: seq<Seen>, root: map<string, Yaml>)
    requires x.head.None?
    ensures ParseSeen([x] + more, root) == ParseSeen(more, root)
  {
    assert ([x] + more)[1..] == more;
  }

  // ---- Where a block ends -----------------------------------------------------

  // A line indented no deeper than the key ends the rows, and adds nothing to them.
  lemma MarginStops(pad: string, text: string, more: seq<string>, depth: nat)
    requires AllSpace(pad) && |pad| <= depth && text != "" && !Space(text[0])
    ensures var next := SeeAll([pad + text] + more); Stops(next, depth) && !Cuts(next, depth)
  {
    SeeFirst(pad + text, more);
    SpaceThen(pad, text);
    StartsAfterSpace(pad, text);
  }

  // A deeper one without a colon that is no item, such as a comment, cuts them off.
  lemma StrayCuts(pad: string, text: string, more: seq<string>, depth: nat)
    requires AllSpace(pad) && |pad| > depth && text != "" && !Space(text[0]) && text[0] != '-' && ':' !in text
    ensures Cuts(SeeAll([pad + text] + more), depth)
  {
    SeeFirst(pad + text, more);
    SpaceThen(pad, text);
    StartsAfterSpace(pad, text);
    forall c | c in pad
      ensures c != ':'
    {
      SpaceIsNoKey(c);
    }
    assert ':' !in pad + text;
    ColonlessIsNoEntry(pad + text);
  }

  // A key at the margin with items below it reads as the list of them, up to the end or the
  // next line at the margin.
  lemma BlockListIsRead(key: string, rows: seq<Row>, more: seq<string>)
    requires Key(key) && ProperRows(rows, 0) && AnyItem(rows)
    requires more == [] || (more[0] != "" && !Space(more[0][0]))
    ensures ParseLines([key + ":"] + LinesOf(rows) + more)
         == ParseSeen(SeeAll(more), map[key := Items(Listed(rows))])
  {
    var part := Below("", key, "", "", "", rows);
    assert EntryLine("", key, "", "", "") == key + ":";
    assert PartLines(part) + more == [key + ":"] + LinesOf(rows) + more;
    if more != [] {
      assert "" + more[0] == more[0] && [more[0]] + more[1..] == more;
      MarginStops("", more[0], more[1..], 0);
    }
    BelowIsRead(part, more, map[]);
  }

  lemma PlainWord(w: string)
    requires PlainScalar(w)
    ensures CoerceScalar(w) == Str(w)
  {
  }

  lemma OneItem(a: string)
    requires a != "" && !Space(a[0]) && ':' !in a
    ensures var rows := [Item("  ", " ", a)];
            ProperRows(rows, 0) && AnyItem(rows) && LinesOf(rows) == ["  - " + a] && Listed(rows) == [CoerceScalar(a)]
  {
    var rows := [Item("  ", " ", a)];
    hide CoerceScalar;
    assert ProperRow(rows[0], 0);
    assert rows[0].Item? && rows[1..] == [];
    assert LineOf(rows[0]) == "  - " + a;
    assert Listed(rows[1..]) == [] && LinesOf(rows[1..]) == [];
    assert [CoerceScalar(a)] + [] == [CoerceScalar(a)] && ["  - " + a] + [] == ["  - " + a];
  }

  // A comment among the items cuts the list off: the items below it are lost.
  lemma CommentCutsTheList(key: string, a: string, comment: string, lost: string)
    requires Key(key) && PlainScalar(a) && ':' !in a && ':' !in comment && ':' !in lost
    ensures ParseLines([key + ":", "  - " + a, "  #" + comment, lost]) == map[key := Items([Str(a)])]
  {
    var list := Below("", key, "", "", "", [Item("  ", " ", a)]);
    ListLines(key, a);
    OneItem(a);
    PlainWord(a);
    CommentLine(comment, lost);
    hide *;
    CutDocument(list, Comment("  ", comment), Colonless(lost));
    FourLines(key + ":", "  - " + a, "  #" + comment, lost);
  }

  lemma FourLines(a: string, b: string, c: string, d: string)
    ensures [a, b] + [c] + [d] == [a, b, c, d]
  {
  }

  lemma CutDocument(list: Part, q: Part, r: Part)
    requires ProperPart(list) && ProperPart(q) && ProperPart(r) && list.Below? && AnyItem(list.rows)
    requires (q.Nothing? || q.Comment? || q.Colonless?) && (r.Nothing? || r.Comment? || r.Colonless?)
    requires Cuts(SeeAll(PartLines(q) + PartLines(r)), |list.pad|)
    ensures ParseLines(PartLines(list) + PartLines(q) + PartLines(r)) == map[list.key := Items(Listed(list.rows))]
  {
    hide ProperPart, PartLines, Cuts, AnyItem;
    ThreeParts(list, q, r);
    DocumentIsRead([list, q, r], map[]);
    ThreeRead(list, q, r);
  }

  lemma CommentLine(comment: string, lost: string)
    requires ':' !in comment && ':' !in lost
    ensures ProperPart(Comment("  ", comment)) && PartLines(Comment("  ", comment)) == ["  #" + comment]
    ensures ProperPart(Colonless(lost)) && PartLines(Colonless(lost)) == [lost]
    ensures Cuts(SeeAll(["  #" + comment] + [lost]), 0)
  {
    assert "  " + ("#" + comment) == "  #" + comment;
    StrayCuts("  ", "#" + comment, [lost], 0);
  }

  lemma ThreeRead(list: Part, q: Part, r: Part)
    requires list.Below? && AnyItem(list.rows) && (q.Nothing? || q.Comment? || q.Colonless?)
    requires r.Nothing? || r.Comment? || r.Colonless?
    ensures ReadAs([list, q, r], map[]) == map[list.key := Items(Listed(list.rows))]
  {
    assert [list, q, r][1..] == [q, r] && [q, r][1..] == [r] && [r][1..] == [];
    var root := map[list.key := Items(Listed(list.rows))];
    assert ReadAs([], root) == root;
    assert ReadAs([r], root) == root;
    assert ReadAs([q, r], root) == root;
    assert map[][list.key := Items(Listed(list.rows))] == root;
  }

  lemma ListLines(key: string, a: string)
    requires Key(key) && a != "" && !Space(a[0]) && ':' !in a
    ensures var list := Below("", key, "", "", "", [Item("  ", " ", a)]);
            ProperPart(list) && PartLines(list) == [key + ":", "  - " + a]
  {
    OneItem(a);
    assert EntryLine("", key, "", "", "") == key + ":";
  }

  lemma ThreeParts(p: Part, q: Part, r: Part)
    requires ProperPart(p) && ProperPart(q) && ProperPart(r) && !q.Below? && !r.Below?
    requires p.Below? ==> Stops(SeeAll(PartLines(q) + PartLines(r)), |p.pad|)
    ensures ProperDocument([p, q, r]) && Document([p, q, r]) == PartLines(p) + PartLines(q) + PartLines(r)
    ensures Document([q, r]) == PartLines(q) + PartLines(r)
  {
    hide ProperPart, Stops, PartLines;
    assert [p, q, r][1..] == [q, r] && [q, r][1..] == [r] && [r][1..] == [];
    assert Document([r]) == PartLines(r) + [] == PartLines(r);
    assert Document([q, r]) == PartLines(q) + PartLines(r);
    assert Document([p, q, r]) == PartLines(p) + (PartLines(q) + PartLines(r));
    assert ProperDocument([]) && ProperDocument([r]) && ProperDocument([q, r]);
  }

  // ---- Collections on one line ------------------------------------------------

  // One item of an inline list: a text between spaces, in quotes or without.
  datatype Cell = Cell(pad: string, quote: string, text: string, tail: string)

  function CellText(cell: Cell): string {
    cell.pad + (cell.quote + cell.text + cell.quote + cell.tail)
  }

  predicate ProperCell(cell: Cell) {
    && AllSpace(cell.pad) && AllSpace(cell.tail) && ',' !in cell.text
    && match cell.quote
       case "" => Trimmed(cell.text) && (cell.text == "" || (!IsQuote(cell.text[0]) && !IsQuote(cell.text[|cell.text| - 1])))
       case q => q == "'" || q == "\""
  }

  lemma {:induction false} TrimRightDrops(s: string, space: string)
    requires AllSpace(space) && (s == "" || !Space(s[|s| - 1]))
    ensures TrimRight(s + space) == s
    decreases |space|
  {
    if space == "" {
      assert s + space == s;
    } else {
      var n := |space| - 1;
      assert space[n] in space && forall c :: c in space[..n] ==> c in space;
      assert (s + space)[|s| + n] == space[n] && (s + space)[..|s| + n] == s + space[..n];
      TrimRightDrops(s, space[..n]);
    }
  }

  // Trimming takes the space off both ends and nothing else.
  lemma TrimBetween(pad: string, s: string, tail: string)
    requires AllSpace(pad) && AllSpace(tail) && Trimmed(s)
    ensures Trim(pad + (s + tail)) == s
  {
    if s == "" {
      assert pad + (s + tail) == pad + tail;
      assert AllSpace(pad + tail);
      SpaceIsBlank(pad + tail);
    } else {
      assert (s + tail)[0] == s[0];
      SpaceThen(pad, s + tail);
      TrimRightDrops(s, tail);
    }
  }

  lemma CellIsRead(cell: Cell)
    requires ProperCell(cell)
    ensures Unquote(Trim(CellText(cell))) == cell.text && ',' !in CellText(cell)
  {
    var inner := cell.quote + cell.text + cell.quote;
    QuotesComeOff(cell);
    SpacesHoldNo(cell.pad, ',');
    SpacesHoldNo(cell.tail, ',');
    assert ',' !in inner;
    hide Trimmed, Unquote;
    TrimBetween(cell.pad, inner, cell.tail);
  }

  lemma QuotesComeOff(cell: Cell)
    requires ProperCell(cell)
    ensures var inner := cell.quote + cell.text + cell.quote; Trimmed(inner) && Unquote(inner) == cell.text
  {
    var inner := cell.quote + cell.text + cell.quote;
    if cell.quote == "" {
      assert inner == cell.text;
    } else {
      assert inner[0] == cell.quote[0] && inner[|inner| - 1] == cell.quote[0];
      assert inner[1..][..|inner| - 2] == cell.text;
    }
  }

  lemma SpacesHoldNo(space: string, c: char)
    requires AllSpace(space) && !Space(c)
    ensures c !in space
  {
  }

  function Cells(cells: seq<Cell>): seq<string> {
    if cells == [] then [] else [CellText(cells[0])] + Cells(cells[1..])
  }

  function CellValues(cells: seq<Cell>): seq<Yaml> {
    if cells == [] then [] else [Str(cells[0].text)] + CellValues(cells[1..])
  }

  lemma TidiedFirst(first: string, rest: seq<string>)
    ensures Tidied([first] + rest) == [Str(Unquote(Trim(first)))] + Tidied(rest)
  {
    hide Trim, Unquote;
  }

  lemma {:induction false} CellsAreRead(cells: seq<Cell>)
    requires forall i :: 0 <= i < |cells| ==> ProperCell(cells[i])
    ensures |Cells(cells)| == |cells| && Tidied(Cells(cells)) == CellValues(cells)
    ensures forall i :: 0 <= i < |cells| ==> ',' !in Cells(cells)[i]
  {
    if cells != [] {
      CellsAreRead(cells[1..]);
      CellIsRead(cells[0]);
      hide Trim, Unquote, CellText, ProperCell;
      TidiedFirst(CellText(cells[0]), Cells(cells[1..]));
    }
  }

  // A list in brackets reads as the texts between its commas, without their quotes.
  lemma InlineListIsRead(cells: seq<Cell>)
    requires cells != [] && forall i :: 0 <= i < |cells| ==> ProperCell(cells[i])
    ensures Inline("[" + Join(Cells(cells), ",") + "]") == Items(CellValues(cells))
  {
    var inner := Join(Cells(cells), ",");
    var text := "[" + inner + "]";
    CellsAreRead(cells);
    JoinedSplits(Cells(cells), ',');
    hide Cells, CellValues, Join, Split, ProperCell;
    assert text[0] == '[' && text[|text| - 1] == ']' && text[1..|text| - 1] == inner;
  }

  // One piece of an inline map: a key with its value, which is read as a scalar once its
  // quotes are off, or something without a colon, which is passed over.
  datatype Piece = Assigned(key: Cell, value: Cell) | Skipped(text: string)

  function PieceText(piece: Piece): string {
    match piece
    case Assigned(key, value) => CellText(key) + ":" + CellText(value)
    case Skipped(text) => text
  }

  predicate ProperPiece(piece: Piece) {
    match piece
    case Assigned(key, value) => ProperCell(key) && ProperCell(value) && ':' !in key.text
    case Skipped(text) => ',' !in text && ':' !in text
  }

  function Pieces(pieces: seq<Piece>): (texts: seq<string>)
    ensures |texts| == |pieces|
  {
    if pieces == [] then [] else Pieces(pieces[..|pieces| - 1]) + [PieceText(pieces[|pieces| - 1])]
  }

  function PieceValues(pieces: seq<Piece>): map<string, Yaml> {
    if pieces == [] then map[]
    else
      var before, last := PieceValues(pieces[..|pieces| - 1]), pieces[|pieces| - 1];
      if last.Skipped? then before else before[last.key.text := CoerceScalar(last.value.text)]
  }

  lemma PieceIsRead(piece: Piece)
    requires ProperPiece(piece)
    ensures ',' !in PieceText(piece)
    ensures var kv := Split(PieceText(piece), ':');
            match piece
            case Assigned(key, value) =>
              |kv| >= 2 && Unquote(Trim(kv[0])) == key.text && Unquote(Trim(Join(kv[1..], ":"))) == value.text
            case Skipped(_) => |kv| == 1
  {
    match piece
    case Assigned(key, value) =>
      CellIsRead(key);
      CellIsRead(value);
      NoColon(key);
      hide Trim, Unquote, CellText, ProperCell;
      SplitAtFirst(CellText(key), CellText(value), ':');
      assert CellText(key) + [':'] + CellText(value) == PieceText(piece);
      SplitJoins(CellText(value), ':');
      assert ([CellText(key)] + Split(CellText(value), ':'))[1..] == Split(CellText(value), ':');
    case Skipped(text) => SplitAtFirst(text, "", ':');
  }

  lemma NoColon(key: Cell)
    requires ProperCell(key) && ':' !in key.text
    ensures ':' !in CellText(key)
  {
    SpacesHoldNo(key.pad, ':');
    SpacesHoldNo(key.tail, ':');
  }

  lemma {:induction false} PiecesAreRead(pieces: seq<Piece>)
    requires forall i :: 0 <= i < |pieces| ==> ProperPiece(pieces[i])
    ensures InlineMap(Pieces(pieces)) == PieceValues(pieces)
    ensures forall i :: 0 <= i < |pieces| ==> ',' !in Pieces(pieces)[i]
  {
    if pieces != [] {
      var n := |pieces| - 1;
      PiecesAreRead(pieces[..n]);
      PieceIsRead(pieces[n]);
      hide Trim, Unquote, PieceText, CoerceScalar, Split, ProperPiece;
      assert Pieces(pieces)[..n] == Pieces(pieces[..n]);
    }
  }

  // A map in braces reads as the values given to its keys, the last of two for one key.
  lemma InlineMapIsRead(pieces: seq<Piece>, pad: string, tail: string)
    requires pieces != [] && forall i :: 0 <= i < |pieces| ==> ProperPiece(pieces[i])
    requires AllSpace(pad) && AllSpace(tail)
    requires var inner := Join(Pieces(pieces), ","); Trimmed(inner) && inner != ""
    ensures Inline("{" + (pad + (Join(Pieces(pieces), ",") + tail)) + "}") == Map(PieceValues(pieces))
  {
    var inner := Join(Pieces(pieces), ",");
    PiecesAreRead(pieces);
    JoinedSplits(Pieces(pieces), ',');
    TrimBetween(pad, inner, tail);
    BracesAreRead(pad + (inner + tail));
    hide *;
  }

  lemma BracesAreRead(padded: string)
    requires Trim(padded) != ""
    ensures Inline("{" + padded + "}") == Map(InlineMap(Split(Trim(padded), ',')))
  {
    var text := "{" + padded + "}";
    hide Split, InlineMap, Trim, CoerceScalar;
    assert text[0] == '{' && text[|text| - 1] == '}' && text[1..|text| - 1] == padded;
  }

  // ---- What is never read -----------------------------------------------------

  // The value holds no list inside a map.
  predicate Shallow(y: Yaml) {
    y.Map? ==> forall k :: k in y.entries ==> !y.entries[k].Items? && !y.entries[k].Map?
  }

  predicate AllShallow(root: map<string, Yaml>) {
    forall k :: k in root ==> Shallow(root[k])
  }

  lemma ScalarIsShallow(v: string)
    ensures !CoerceScalar(v).Items? && !CoerceScalar(v).Map?
  {
  }

  lemma {:induction false} InlineMapIsShallow(parts: seq<string>)
    ensures Shallow(Map(InlineMap(parts)))
  {
    if parts != [] {
      var n := |parts| - 1;
      InlineMapIsShallow(parts[..n]);
      var kv := Split(parts[n], ':');
      if |kv| >= 2 {
        ScalarIsShallow(Unquote(Trim(Join(kv[1..], ":"))));
      }
      hide CoerceScalar;
    }
  }

  lemma SeenIsShallow(line: string)
    ensures var x := See(line);
            && (x.nested.Some? ==> !x.nested.value.1.Items? && !x.nested.value.1.Map?)
            && (x.head.Some? && x.head.value.Holds? ==> Shallow(x.head.value.value))
  {
    var entry := ReadEntry(line);
    if entry.Some? {
      ScalarIsShallow(entry.value.rest);
      InlineIsShallow(entry.value.rest);
    }
    hide CoerceScalar, Inline, ReadEntry, Shallow;
  }

  lemma InlineIsShallow(rest: string)
    ensures Shallow(Inline(rest))
  {
    ScalarIsShallow(rest);
    if Wrapped(rest, '{', '}') {
      InlineMapIsShallow(Split(Trim(Inside(rest)), ','));
    }
    hide CoerceScalar;
  }

  predicate ShallowSeen(xs: seq<Seen>) {
    forall i :: 0 <= i < |xs| ==>
      && (xs[i].nested.Some? ==> !xs[i].nested.value.1.Items? && !xs[i].nested.value.1.Map?)
      && (xs[i].head.Some? && xs[i].head.value.Holds? ==> Shallow(xs[i].head.value.value))
  }

  lemma {:induction false} BlockIsShallow(xs: seq<Seen>, indent: nat, b: Block)
    requires ShallowSeen(xs) && Shallow(Map(b.entries))
    ensures Shallow(Map(ReadBlock(xs, indent, b).entries))
    decreases |xs|
  {
    if xs != [] && TakeBlockLine(xs[0], indent, b).1 {
      BlockIsShallow(xs[1..], indent, TakeBlockLine(xs[0], indent, b).0);
    }
  }

  lemma {:induction false} ParsedIsShallow(xs: seq<Seen>, root: map<string, Yaml>)
    requires ShallowSeen(xs) && AllShallow(root)
    ensures AllShallow(ParseSeen(xs, root))
    decreases |xs|
  {
    if xs != [] {
      BlockIsShallow(xs[1..], xs[0].indent, NO_BLOCK);
      var (next, count) := TakeEntry(xs[0], xs[1..], root);
      ParsedIsShallow(xs[count..], next);
    }
  }

  // The validation spec a parsed value gives: the commands listed in a map.
  function CommandsIn(validation: Yaml): Option<seq<Yaml>> {
    if validation.Map? && "commands" in validation.entries && validation.entries["commands"].Items?
    then Some(validation.entries["commands"].items) else None
  }

  // No file whatsoever gives a skill validation commands: the parser never puts a list
  // inside a map, so neither the documented form nor the printer's own comes back.
  lemma NoValidationIsEverRead(lines: seq<string>)
    ensures CommandsIn(Get(ParseLines(lines), "validation")).None?
  {
    var xs := SeeAll(lines);
    forall i | 0 <= i < |xs|
      ensures xs[i].nested.Some? ==> !xs[i].nested.value.1.Items? && !xs[i].nested.value.1.Map?
      ensures xs[i].head.Some? && xs[i].head.value.Holds? ==> Shallow(xs[i].head.value.value)
    {
      SeenAt(lines, i);
      SeenIsShallow(lines[i]);
    }
    ParsedIsShallow(xs, map[]);
  }

  // ---- What a skill takes from its frontmatter --------------------------------

  // The integer a text begins with, after space and a sign.
  ghost predicate Leads(s: string, pad: string, sign: string, digits: string, rest: string) {
    && s == pad + (sign + (digits + rest)) && AllSpace(pad) && (sign == "" || sign == "+" || sign == "-")
    && digits != "" && AllDigits(digits) && (rest == "" || !IsDigit(rest[0]))
  }

  lemma IntegerIsTaken(s: string, pad: string, sign: string, digits: string, rest: string)
    requires Leads(s, pad, sign, digits, rest)
    ensures ParseInt(s) == Some(if sign == "-" then 0 - ParseDecimal(digits) else ParseDecimal(digits))
  {
    var u := digits + rest;
    var t := sign + u;
    assert digits[0] in digits && u[0] == digits[0];
    assert t[0] == if sign == "" then u[0] else sign[0];
    SpaceThen(pad, t);
    DigitsBefore(digits, rest);
    assert u[..|digits|] == digits;
    if sign == "" {
      assert t == u;
    } else {
      assert t[1..] == u;
    }
  }

  lemma NoIntegerOtherwise(s: string) returns (pad: string, sign: string, digits: string, rest: string)
    requires ParseInt(s).Some?
    ensures Leads(s, pad, sign, digits, rest)
  {
    var t := TrimLeft(s);
    pad := SpaceBefore(s);
    sign := SignTaken(t);
    digits, rest := DigitsTaken(t[|sign|..]);
    hide TrimLeft, ParseInt, LeadingDigits, AllDigits, AllSpace;
  }

  lemma SignTaken(t: string) returns (sign: string)
    requires t != ""
    ensures (sign == "" || sign == "+" || sign == "-") && |sign| <= |t| && t == sign + t[|sign|..]
    ensures t[|sign|..] == if t[0] == '-' || t[0] == '+' then t[1..] else t
  {
    sign := if t[0] == '-' then "-" else if t[0] == '+' then "+" else "";
  }

  lemma DigitsTaken(u: string) returns (digits: string, rest: string)
    requires LeadingDigits(u) > 0
    ensures u == digits + rest && digits != "" && AllDigits(digits) && (rest == "" || !IsDigit(rest[0]))
  {
    digits, rest := u[..LeadingDigits(u)], u[LeadingDigits(u)..];
  }

  lemma {:induction false} SpaceBefore(s: string) returns (pad: string)
    ensures s == pad + TrimLeft(s) && AllSpace(pad)
  {
    if s != "" && Space(s[0]) {
      var rest := SpaceBefore(s[1..]);
      pad := [s[0]] + rest;
      assert pad + TrimLeft(s) == [s[0]] + (rest + TrimLeft(s[1..]));
    } else {
      pad := "";
    }
  }

  // How a value is said as a text: words and numerals as they are written, the items of a list
  // with commas between them, and nothing for one that is missing.
  lemma SaidAsText(y: Yaml) returns (parts: seq<string>)
    ensures Text(Bool(true)) == "true" && Text(Bool(false)) == "false" && Text(Null) == "null"
    ensures Text(Undefined) == "undefined"
    ensures match y
            case Str(text) => Text(y) == text
            case Fraction(digits) => Text(y) == digits
            case Num(n) => Text(y) == if n < 0 then "-" + Decimal(0 - n) else Decimal(n)
            case Map(_) => Text(y) == "[object Object]"
            case Items(items) =>
              && |parts| == |items| && Text(y) == Join(parts, ",")
              && forall i :: 0 <= i < |items| ==>
                   parts[i] == (match items[i] case Undefined => "" case Null => "" case item => Text(item))
            case _ => true
  {
    parts := if y.Items? then seq(|y.items|, i requires 0 <= i < |y.items| =>
                                    if Missing(y.items[i]) then "" else Text(y.items[i])) else [];
  }

  predicate Absent(y: Yaml) {
    y == Undefined || y == Null
  }

  // What counts as true.
  predicate Counts(y: Yaml) {
    match y
    case Bool(b) => b
    case Str(text) => text != ""
    case Num(n) => n < 0 || n > 0
    case Fraction(digits) => !(forall c :: c in digits ==> c !in "123456789")
    case Items(_) => true
    case Map(_) => true
    case Undefined => false
    case Null => false
  }

  lemma CountsIsTruthy(y: Yaml)
    ensures Truthy(y) <==> Counts(y)
  {
  }

  // A file is a skill exactly if it has a name and a description and its type and scope are
  // known words or missing.
  lemma SkillNeeds(fm: map<string, Yaml>)
    ensures ValidFields(fm) <==>
              && Get(fm, "name").Str? && Get(fm, "name") != Str("")
              && Get(fm, "description").Str? && Get(fm, "description") != Str("")
              && (Absent(Get(fm, "type")) || Get(fm, "type") == Str("prompt") || Get(fm, "type") == Str("workflow")
                  || Get(fm, "type") == Str("checklist") || Get(fm, "type") == Str("tool-guide"))
              && (Absent(Get(fm, "scope")) || Get(fm, "scope") == Str("project") || Get(fm, "scope") == Str("user")
                  || Get(fm, "scope") == Str("builtin"))
  {
  }

  predicate Told(fm: map<string, Yaml>, key: string, default: string, text: string) {
    text == if Absent(Get(fm, key)) then default else Text(Get(fm, key))
  }

  // Key by key, with the default of each.
  lemma SkillTakesTexts(fm: map<string, Yaml>, body: string, scope: string, now: string)
    requires ValidFields(fm) && ReadFields(fm, body, scope, now).Some?
    ensures var s := ReadFields(fm, body, scope, now).value;
            && Get(fm, "name") == Str(s.name) && Get(fm, "description") == Str(s.description)
            && Told(fm, "type", "prompt", s.kind) && Told(fm, "whenToUse", "", s.whenToUse)
            && Told(fm, "createdBy", "reaper", s.createdBy)
            && Told(fm, "createdAt", now, s.createdAt) && Told(fm, "updatedAt", now, s.updatedAt)
  {
    hide Text, ParseInt, Truthy, StringList, ReadPolicy, Get, OneOf;
  }

  // The switch has two keys, of which the newer counts if it is there; the scope is the
  // caller's; a list that is none is empty; a version that is no number is refused.
  lemma SkillTakesTheRest(fm: map<string, Yaml>, body: string, scope: string, now: string)
    requires ValidFields(fm)
    ensures match ReadFields(fm, body, scope, now)
            case None => ParseInt(VersionText(fm)).None?
            case Some(s) =>
              && s.body == body && s.scope == scope && Some(s.version) == ParseInt(VersionText(fm))
              && (s.manualOnly <==> Counts(if Absent(Get(fm, "disableModelInvocation"))
                                           then Get(fm, "disableAutoInvocation") else Get(fm, "disableModelInvocation")))
              && ListTold(Get(fm, "arguments"), s.arguments) && ListTold(Get(fm, "allowedTools"), s.allowedTools)
              && PolicyTold(Get(fm, "memoryPolicy"), s.policy)
  {
    CountsIsTruthy(if Absent(Get(fm, "disableModelInvocation"))
                   then Get(fm, "disableAutoInvocation") else Get(fm, "disableModelInvocation"));
    PolicyIsTold(Get(fm, "memoryPolicy"));
    ListIsTold(Get(fm, "arguments"));
    ListIsTold(Get(fm, "allowedTools"));
    hide Text, ParseInt, Truthy, Counts, StringList, ReadPolicy, Get, OneOf, ListTold, PolicyTold;
  }

  function VersionText(fm: map<string, Yaml>): string {
    if Absent(Get(fm, "version")) then "1" else Text(Get(fm, "version"))
  }

  lemma PolicyIsTold(y: Yaml)
    ensures PolicyTold(y, ReadPolicy(y))
  {
    if y.Map? {
      CountsIsTruthy(Get(y.entries, "mayReadProjectMemory"));
      CountsIsTruthy(Get(y.entries, "mayWriteProjectMemory"));
      CountsIsTruthy(Get(y.entries, "mayReadUserMemory"));
      CountsIsTruthy(Get(y.entries, "mayWriteUserMemory"));
      hide Truthy, Counts;
    }
  }

  lemma ListIsTold(y: Yaml)
    ensures ListTold(y, StringList(y))
  {
    hide Text;
  }

  predicate ListTold(y: Yaml, texts: seq<string>) {
    match y
    case Items(items) => |texts| == |items| && forall i :: 0 <= i < |items| ==> texts[i] == Text(items[i])
    case _ => texts == []
  }

  predicate PolicyTold(y: Yaml, p: Policy) {
    match y
    case Map(entries) =>
      && p.readProject == Counts(Get(entries, "mayReadProjectMemory"))
      && p.writeProject == Counts(Get(entries, "mayWriteProjectMemory"))
      && p.readUser == Counts(Get(entries, "mayReadUserMemory"))
      && p.writeUser == Counts(Get(entries, "mayWriteUserMemory"))
    case _ => p == Policy(false, false, false, false)
  }

  // ---- What the printer writes ------------------------------------------------

  function Line(key: string, text: string): string {
    key + ": " + text
  }

  function Word(b: bool): string {
    if b then "true" else "false"
  }

  function If(b: bool, line: string): seq<string> {
    if b then [line] else []
  }

  // The lines of the frontmatter, one by one.
  function Front(s: Skill): seq<string> {
    [Line("name", s.name)] + [Line("description", s.description)] + [Line("type", s.kind)] + [Line("scope", s.scope)]
    + If(s.whenToUse != "", Line("whenToUse", s.whenToUse))
    + [Line("disableAutoInvocation", Word(s.manualOnly))]
    + If(s.arguments != [], Line("arguments", "[" + Join(s.arguments, ", ") + "]"))
    + If(s.allowedTools != [], Line("allowedTools", "[" + Join(s.allowedTools, ", ") + "]"))
    + ["memoryPolicy:",
       "  " + Line("mayReadProjectMemory", Word(s.policy.readProject)),
       "  " + Line("mayWriteProjectMemory", Word(s.policy.writeProject)),
       "  " + Line("mayReadUserMemory", Word(s.policy.readUser)),
       "  " + Line("mayWriteUserMemory", Word(s.policy.writeUser))]
    + [Line("version", Integer(s.version))] + [Line("createdBy", s.createdBy)] + [Line("createdAt", s.createdAt)]
    + [Line("updatedAt", s.updatedAt)]
  }

  lemma PrintedLineByLine(s: Skill)
    ensures Printed(s) == Join(["---"] + Front(s) + ["---", "", s.body], "\n")
  {
    PolicyLines(s.policy);
    HeadLines(s);
    TailLines(s);
  }

  lemma PolicyLines(p: Policy)
    ensures FlagBlock(KeyOf(MemoryPolicy), PolicyFlags(p))
         == ["memoryPolicy:",
             "  " + Line("mayReadProjectMemory", Word(p.readProject)),
             "  " + Line("mayWriteProjectMemory", Word(p.writeProject)),
             "  " + Line("mayReadUserMemory", Word(p.readUser)),
             "  " + Line("mayWriteUserMemory", Word(p.writeUser))]
  {
    var flags := PolicyFlags(p);
    FirstFlag(flags);
    FirstFlag(flags[1..]);
    FirstFlag(flags[1..][1..]);
    FirstFlag(flags[1..][1..][1..]);
    assert flags[1..][1..][1..][1..] == [];
    assert "memoryPolicy" + ":" == "memoryPolicy:";
    hide FlagLines;
  }

  lemma FirstFlag(flags: seq<(string, bool)>)
    requires flags != []
    ensures FlagLines(flags) == ["  " + Line(flags[0].0, Word(flags[0].1))] + FlagLines(flags[1..])
  {
  }

  lemma HeadLines(s: Skill)
    ensures FrontLines(s, 8)
         == [Line("name", s.name)] + [Line("description", s.description)] + [Line("type", s.kind)] + [Line("scope", s.scope)]
            + If(s.whenToUse != "", Line("whenToUse", s.whenToUse))
            + [Line("disableAutoInvocation", Word(s.manualOnly))]
            + If(s.arguments != [], Line("arguments", "[" + Join(s.arguments, ", ") + "]"))
            + If(s.allowedTools != [], Line("allowedTools", "[" + Join(s.allowedTools, ", ") + "]"))
  {
    FirstLines(s);
    hide FrontLines, LinesFor, Line, If, Join, Word;
    PrintNext(s, 0, Name);
    PrintNext(s, 1, Description);
    PrintNext(s, 2, Kind);
    PrintNext(s, 3, Scope);
    PrintNext(s, 4, WhenToUse);
    PrintNext(s, 5, AutoInvocation);
    PrintNext(s, 6, Arguments);
    PrintNext(s, 7, AllowedTools);
  }

  lemma FirstLines(s: Skill)
    ensures FrontLines(s, 0) == [] && FrontLines(s, 1) == [Line("name", s.name)]
    ensures LinesFor(s, Description) == [Line("description", s.description)]
    ensures LinesFor(s, Kind) == [Line("type", s.kind)] && LinesFor(s, Scope) == [Line("scope", s.scope)]
    ensures LinesFor(s, WhenToUse) == If(s.whenToUse != "", Line("whenToUse", s.whenToUse))
    ensures LinesFor(s, AutoInvocation) == [Line("disableAutoInvocation", Word(s.manualOnly))]
    ensures LinesFor(s, Arguments) == If(s.arguments != [], Line("arguments", "[" + Join(s.arguments, ", ") + "]"))
    ensures LinesFor(s, AllowedTools) == If(s.allowedTools != [], Line("allowedTools", "[" + Join(s.allowedTools, ", ") + "]"))
  {
    PrintNext(s, 0, Name);
  }

  lemma LastLines(s: Skill)
    ensures LinesFor(s, MemoryPolicy) == FlagBlock(KeyOf(MemoryPolicy), PolicyFlags(s.policy))
    ensures LinesFor(s, Version) == [Line("version", Integer(s.version))]
    ensures LinesFor(s, CreatedBy) == [Line("createdBy", s.createdBy)]
    ensures LinesFor(s, CreatedAt) == [Line("createdAt", s.createdAt)]
    ensures LinesFor(s, UpdatedAt) == [Line("updatedAt", s.updatedAt)]
  {
  }

  lemma TailLines(s: Skill)
    ensures FrontLines(s, 13)
         == FrontLines(s, 8) + FlagBlock(KeyOf(MemoryPolicy), PolicyFlags(s.policy))
            + [Line("version", Integer(s.version))] + [Line("createdBy", s.createdBy)] + [Line("createdAt", s.createdAt)]
            + [Line("updatedAt", s.updatedAt)]
  {
    LastLines(s);
    hide FrontLines, LinesFor, Line, FlagBlock, Integer, PolicyFlags, KeyOf;
    PrintNext(s, 8, MemoryPolicy);
    PrintNext(s, 9, Version);
    PrintNext(s, 10, CreatedBy);
    PrintNext(s, 11, CreatedAt);
    PrintNext(s, 12, UpdatedAt);
  }

  // ---- Where the frontmatter stands -------------------------------------------

  // The file has its closing dashes here, and nowhere before.
  predicate ClosesAt(text: string, j: nat) {
    && j <= |text| && StartsWith(text[j..], "\n---")
    && forall i :: 0 <= i < j ==> !StartsWith(text[i..], "\n---")
  }

  lemma {:induction false} CloseIsFirst(text: string)
    ensures match FindClose(text)
            case None => forall i :: 0 <= i <= |text| ==> !StartsWith(text[i..], "\n---")
            case Some(j) => ClosesAt(text, j)
  {
    if text != "" && !StartsWith(text, "\n---") {
      var rest := text[1..];
      CloseIsFirst(rest);
      assert forall i :: 0 < i <= |text| ==> text[i..] == rest[i - 1..];
      assert text[0..] == text;
    } else {
      assert text[0..] == text;
    }
  }

  // After three dashes and a line break, everything up to the first line break with three
  // dashes behind it is the frontmatter, and the rest, trimmed, the body. Line breaks may come
  // with a carriage return. A file of any other form is none.
  lemma FileIsSplit(raw: string)
    ensures match SplitFile(raw)
            case None =>
              || (!StartsWith(raw, "---\n") && !StartsWith(raw, "---\r\n"))
              || forall i :: 0 <= i <= |raw| - Opening(raw) ==> !StartsWith(raw[Opening(raw)..][i..], "\n---")
            case Some((yaml, body)) =>
              && (StartsWith(raw, "---\n") || StartsWith(raw, "---\r\n"))
              && exists j: nat :: ClosesAt(raw[Opening(raw)..], j) && body == Trim(raw[Opening(raw)..][j + 4..])
                   && (if raw[Opening(raw)..][..j] == yaml then !EndsWith(yaml, "\r")
                       else raw[Opening(raw)..][..j] == yaml + "\r")
  {
    var text := raw[Opening(raw)..];
    CloseIsFirst(text);
    if SplitFile(raw).Some? {
      var j := FindClose(text).value;
      var yaml := text[..j];
      assert EndsWith(yaml, "\r") ==> yaml == yaml[..j - 1] + "\r";
    }
  }

  function Opening(raw: string): (n: nat)
    ensures n <= |raw|
  {
    if StartsWith(raw, "---\n") then 4 else if StartsWith(raw, "---\r\n") then 5 else 0
  }

  lemma FirstChopped(line: string, rest: seq<string>)
    requires rest != []
    ensures !EndsWith(line, "\r") ==> Chopped([line] + rest) == [line] + Chopped(rest)
    ensures Chopped([line + "\r"] + rest) == [line] + Chopped(rest)
  {
    assert ([line] + rest)[1..] == rest;
    var returned := line + "\r";
    assert ([returned] + rest)[1..] == rest && returned[|line|..] == "\r" && returned[..|returned| - 1] == line;
  }

  lemma LineSplits(line: string, rest: string)
    requires '\n' !in line
    ensures Split(line + "\n" + rest, '\n') == [line] + Split(rest, '\n')
  {
    SplitAtFirst(line, rest, '\n');
  }

  // The frontmatter's lines end at line breaks, a carriage return before which goes with them.
  lemma LinesAreBroken(line: string, rest: string)
    requires '\n' !in line
    ensures Lines(line) == [line]
    ensures !EndsWith(line, "\r") ==> Lines(line + "\n" + rest) == [line] + Lines(rest)
    ensures Lines(line + "\r" + "\n" + rest) == [line] + Lines(rest)
  {
    SplitAtFirst(line, rest, '\n');
    LineSplits(line, rest);
    LineSplits(line + "\r", rest);
    FirstChopped(line, Split(rest, '\n'));
    hide Split, EndsWith;
  }
}
