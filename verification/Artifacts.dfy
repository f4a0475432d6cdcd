// Reading a window of a stored artifact within a byte budget (src/artifacts/store.ts).

module Artifacts {
  import opened Wrappers
  import opened Strings

  datatype Line = Line(number: int, content: string)

  const MARKER: string := "\n...[truncated; " + "maxBytes exceeded]..."

  // The UTF-8 length of a character, and of a text.
  function Width(c: char): nat {
    if c < '\U{80}' then 1 else if c < '\U{800}' then 2 else if c < '\U{10000}' then 3 else 4
  }

  function ByteLength(s: string): nat {
    if s == "" then 0 else Width(s[0]) + ByteLength(s[1..])
  }

  function CountLines(content: string): nat {
    if content == "" then 0 else |Split(content, '\n')|
  }

  function Cost(line: Line): nat {
    ByteLength(line.content) + 1
  }

  function TotalCost(lines: seq<Line>): nat {
    if lines == [] then 0 else TotalCost(lines[..|lines| - 1]) + Cost(lines[|lines| - 1])
  }

  method LineByteSize(lines: seq<Line>) returns (bytes: nat)
    ensures bytes == TotalCost(lines)
  {
    bytes := 0;
    var i := 0;
    while i < |lines|
      invariant 0 <= i <= |lines| && bytes == TotalCost(lines[..i])
    {
      assert lines[..i + 1][..i] == lines[..i];
      bytes := bytes + (ByteLength(lines[i].content) + 1);
      i := i + 1;
    }
    assert lines[..i] == lines;
  }

  // The longest run of leading lines within the budget.
  function Fitting(lines: seq<Line>, maxBytes: int): (k: nat)
    ensures k <= |lines|
  {
    if lines == [] then 0
    else
      var before := Fitting(lines[..|lines| - 1], maxBytes);
      if before == |lines| - 1 && TotalCost(lines) <= maxBytes then |lines| else before
  }

  function Cut(line: Line, left: int): Line {
    var keep := if left - 60 < 0 then 0 else left - 60;
    Line(line.number, (if keep < |line.content| then line.content[..keep] else line.content) + MARKER)
  }

  function Truncated(lines: seq<Line>, maxBytes: int): seq<Line> {
    var k := Fitting(lines, maxBytes);
    if k == |lines| then lines else lines[..k] + [Cut(lines[k], maxBytes - TotalCost(lines[..k]))]
  }

  lemma {:induction false} CostsGrow(lines: seq<Line>, i: nat, j: nat)
    requires i <= j <= |lines|
    ensures TotalCost(lines[..i]) + (j - i) <= TotalCost(lines[..j])
    decreases j
  {
    if i < j {
      CostsGrow(lines, i, j - 1);
      assert lines[..j][..j - 1] == lines[..j - 1];
    }
  }

  // Fitting counts the lines up to which the total stays within the budget.
  lemma {:induction false} FittingIsLongest(lines: seq<Line>, maxBytes: int, j: nat)
    requires 0 <= maxBytes && j <= |lines|
    ensures j <= Fitting(lines, maxBytes) <==> TotalCost(lines[..j]) <= maxBytes
    decreases |lines|
  {
    if lines != [] {
      var n := |lines| - 1;
      if j <= n {
        assert lines[..n][..j] == lines[..j];
        FittingIsLongest(lines[..n], maxBytes, j);
      } else {
        assert lines[..j] == lines && lines[..n][..n] == lines[..n];
        FittingIsLongest(lines[..n], maxBytes, n);
        CostsGrow(lines, n, j);
      }
    }
  }

  method TruncateLines(lines: seq<Line>, maxBytes: int) returns (result: seq<Line>)
    requires 0 <= maxBytes
    ensures result == Truncated(lines, maxBytes)
  {
    result := [];
    var used := 0;
    var i := 0;
    while i < |lines|
      invariant 0 <= i <= |lines| && result == lines[..i]
      invariant used == TotalCost(lines[..i]) <= maxBytes
    {
      var entry := lines[i];
      var cost := ByteLength(entry.content) + 1;
      assert lines[..i + 1][..i] == lines[..i];
      FittingIsLongest(lines, maxBytes, i);
      FittingIsLongest(lines, maxBytes, i + 1);
      if used + cost > maxBytes {
        var left := maxBytes - used - 60;
        var keep := if left < 0 then 0 else left;
        var start := if keep < |entry.content| then entry.content[..keep] else entry.content;
        result := result + [Line(entry.number, start + MARKER)];
        return;
      }
      result := result + [entry];
      used := used + cost;
      i := i + 1;
    }
    FittingIsLongest(lines, maxBytes, |lines|);
    assert lines[..i] == lines;
  }

  // ---- The window -------------------------------------------------------------

  function Min(a: int, b: int): int {
    if a < b then a else b
  }

  function Max(a: int, b: int): int {
    if a < b then b else a
  }

  // The first and last line of a window, clamped to the lines there are.
  function Range(start: Option<int>, end: Option<int>, count: nat): (range: (int, int))
    ensures 1 <= range.0 <= range.1
    ensures 0 < count ==> range.1 <= count
  {
    var first := Max(1, Min(start.GetOr(1), count));
    (first, Max(first, Min(end.GetOr(count), count)))
  }

  function Window(content: string, range: (int, int)): seq<Line>
    requires 1 <= range.0 <= range.1 <= |Split(content, '\n')|
  {
    seq(range.1 - range.0 + 1,
        i requires 0 <= i < range.1 - range.0 + 1 => Line(range.0 + i, Split(content, '\n')[range.0 - 1 + i]))
  }

  function Matching(parts: seq<string>, test: string -> bool): seq<Line> {
    if parts == [] then []
    else
      var n := |parts| - 1;
      Matching(parts[..n], test) + if test(parts[n]) then [Line(n + 1, parts[n])] else []
  }

  datatype Content = Content(totalLines: nat, lines: seq<Line>, truncated: bool)

  // What is read: the lines that pass `pattern` if there is one, else the lines of a range.
  // The fragment a JSON path selects is not part of this.
  function Selected(content: string, start: Option<int>, end: Option<int>, pattern: Option<string -> bool>): seq<Line> {
    if pattern.Some? then Matching(Split(content, '\n'), pattern.value)
    else Window(content, Range(start, end, CountLines(content)))
  }

  method Read(content: string, start: Option<int>, end: Option<int>, pattern: Option<string -> bool>, maxBytes: int)
      returns (r: Content)
    requires 0 <= maxBytes
    ensures var selected := Selected(content, start, end, pattern);
            r == Content(CountLines(content), Truncated(selected, maxBytes), TotalCost(selected) > maxBytes)
  {
    var lineCount := CountLines(content);
    var lines: seq<Line>;
    if pattern.Some? {
      lines := SelectMatching(Split(content, '\n'), pattern.value);
    } else {
      var startLine := Max(1, Min(start.GetOr(1), lineCount));
      var endLine := Max(startLine, Min(end.GetOr(lineCount), lineCount));
      lines := SelectRange(content, startLine, endLine);
    }
    var kept := TruncateLines(lines, maxBytes);
    var size := LineByteSize(lines);
    r := Content(lineCount, kept, size > maxBytes);
  }

  method SelectMatching(parts: seq<string>, test: string -> bool) returns (lines: seq<Line>)
    ensures lines == Matching(parts, test)
  {
    lines := [];
    var i := 0;
    while i < |parts|
      invariant 0 <= i <= |parts| && lines == Matching(parts[..i], test)
    {
      assert parts[..i + 1][..i] == parts[..i];
      if test(parts[i]) {
        lines := lines + [Line(i + 1, parts[i])];
      }
      i := i + 1;
    }
    assert parts[..i] == parts;
  }

  method SelectRange(content: string, startLine: int, endLine: int) returns (lines: seq<Line>)
    requires 1 <= startLine <= endLine <= |Split(content, '\n')|
    ensures lines == Window(content, (startLine, endLine))
  {
    var window := Split(content, '\n')[startLine - 1..endLine];
    lines := seq(|window|, i requires 0 <= i < |window| => Line(startLine + i, window[i]));
  }

  // ---- What a reader can rely on ----------------------------------------------

  lemma {:induction false} PartsHaveNone(s: string, at: char, k: nat)
    requires k < |Split(s, at)|
    ensures at !in Split(s, at)[k]
  {
    if s != "" {
      PartsHaveNone(s[1..], at, 0);
      if k > 0 {
        PartsHaveNone(s[1..], at, if s[0] == at then k - 1 else k);
      }
    }
  }

  // A range that is asked for within the lines there are is taken as it is; a start before
  // the first line or past the last moves there, and an end before the start or past the last
  // line moves there. What is not given is the first line and the last.
  lemma RangeIsClamped(start: Option<int>, end: Option<int>, count: nat)
    requires count > 0
    ensures var (first, last) := Range(start, end, count);
            && first == (match start case None => 1 case Some(a) => if a < 1 then 1 else if a > count then count else a)
            && last == (match end case None => count
                        case Some(b) => if b < first then first else if b > count then count else b)
  {
  }

  // For content that is not empty, a window holds exactly the lines of the clamped range,
  // numbered one after the other.
  lemma WindowIsTheRange(content: string, start: Option<int>, end: Option<int>, first: int, last: int)
    requires content != ""
    requires var count := |Split(content, '\n')|;
             && first == (match start case None => 1 case Some(a) => if a < 1 then 1 else if a > count then count else a)
             && last == (match end case None => count
                         case Some(b) => if b < first then first else if b > count then count else b)
    ensures CountLines(content) == |Split(content, '\n')|
    ensures var lines := Selected(content, start, end, None);
            && |lines| == last - first + 1
            && forall i :: 0 <= i < |lines| ==> lines[i] == Line(first + i, Split(content, '\n')[first + i - 1])
  {
    RangeIsClamped(start, end, CountLines(content));
  }

  // Empty content counts no lines but shows one, numbered 1 and empty.
  lemma EmptyContentShowsALine(start: Option<int>, end: Option<int>)
    ensures CountLines("") == 0 && Selected("", start, end, None) == [Line(1, "")]
  {
    assert Range(start, end, 0) == (1, 1);
    assert Split("", '\n')[0] == "";
    assert Window("", (1, 1)) == [Line(1, "")];
  }

  lemma {:induction false} MatchingIsFaithful(parts: seq<string>, test: string -> bool, line: Line)
    ensures line in Matching(parts, test)
       <==> 1 <= line.number <= |parts| && line.content == parts[line.number - 1] && test(line.content)
  {
    if parts != [] {
      var front := parts[..|parts| - 1];
      MatchingIsFaithful(front, test, line);
      var last := Line(|parts|, parts[|parts| - 1]);
      assert line in Matching(parts, test) <==> line in Matching(front, test) || (test(last.content) && line == last);
      assert 1 <= line.number < |parts| ==> front[line.number - 1] == parts[line.number - 1];
      assert line.number == |parts| && line.content == last.content ==> line == last;
    }
  }

  predicate Ordered(lines: seq<Line>, last: int) {
    && (forall i :: 0 <= i < |lines| ==> lines[i].number <= last)
    && (forall i, j :: 0 <= i < j < |lines| ==> lines[i].number < lines[j].number)
  }

  lemma {:induction false} MatchingIsOrdered(parts: seq<string>, test: string -> bool)
    ensures Ordered(Matching(parts, test), |parts|)
  {
    if parts != [] {
      var n := |parts| - 1;
      MatchingIsOrdered(parts[..n], test);
      OrderedGrows(Matching(parts[..n], test), n, Line(n + 1, parts[n]));
    }
  }

  lemma OrderedGrows(lines: seq<Line>, last: int, next: Line)
    requires Ordered(lines, last) && next.number == last + 1
    ensures Ordered(lines + [next], last + 1) && Ordered(lines + [], last + 1)
  {
    assert lines + [] == lines;
  }

  // Nothing selected holds a line break.
  lemma SelectedLinesAreLines(content: string, start: Option<int>, end: Option<int>, pattern: Option<string -> bool>, i: nat)
    requires i < |Selected(content, start, end, pattern)|
    ensures '\n' !in Selected(content, start, end, pattern)[i].content
  {
    var line := Selected(content, start, end, pattern)[i];
    if pattern.Some? {
      MatchingIsFaithful(Split(content, '\n'), pattern.value, line);
      PartsHaveNone(content, '\n', line.number - 1);
    } else {
      PartsHaveNone(content, '\n', Range(start, end, CountLines(content)).0 - 1 + i);
    }
  }

  // The flag is raised exactly when what is returned differs from what was selected.
  lemma FlagIsHonest(content: string, start: Option<int>, end: Option<int>, pattern: Option<string -> bool>, maxBytes: int)
    requires 0 <= maxBytes
    ensures var selected := Selected(content, start, end, pattern);
            TotalCost(selected) > maxBytes <==> Truncated(selected, maxBytes) != selected
  {
    var selected := Selected(content, start, end, pattern);
    FittingIsLongest(selected, maxBytes, |selected|);
    assert selected[..|selected|] == selected;
    var k := Fitting(selected, maxBytes);
    if k < |selected| {
      SelectedLinesAreLines(content, start, end, pattern, k);
      var cut := Cut(selected[k], maxBytes - TotalCost(selected[..k]));
      assert '\n' in cut.content by {
        assert cut.content[|cut.content| - |MARKER|] == MARKER[0];
      }
      assert Truncated(selected, maxBytes)[k] == cut;
    }
  }

  // A line that is cut keeps as many characters as the budget has bytes left, less 60.
  lemma CutKeeps(line: Line, left: int)
    ensures var n := if left < 60 then 0 else if left - 60 > |line.content| then |line.content| else left - 60;
            Cut(line, left) == Line(line.number, line.content[..n] + "\n...[truncated; maxBytes exceeded]...")
  {
    MarkerInOne();
    assert line.content[..|line.content|] == line.content;
  }

  lemma MarkerInOne()
    ensures MARKER == "\n...[truncated; maxBytes exceeded]..."
  {
  }

  // What is returned is the longest prefix of what was selected that the budget allows, and
  // then the next line, cut to what the budget leaves and marked.
  lemma TruncationKeepsAPrefix(lines: seq<Line>, maxBytes: int)
    requires 0 <= maxBytes
    ensures exists k ::
              && 0 <= k <= |lines| && TotalCost(lines[..k]) <= maxBytes
              && (forall j :: k < j <= |lines| ==> TotalCost(lines[..j]) > maxBytes)
              && (if k == |lines| then Truncated(lines, maxBytes) == lines
                  else
                    var left := maxBytes - TotalCost(lines[..k]);
                    var text := lines[k].content;
                    var n := if left < 60 then 0 else if left - 60 > |text| then |text| else left - 60;
                    Truncated(lines, maxBytes)
                      == lines[..k] + [Line(lines[k].number, text[..n] + "\n...[truncated; maxBytes exceeded]...")])
  {
    var k := Fitting(lines, maxBytes);
    FittingIsLongest(lines, maxBytes, k);
    forall j | k < j <= |lines|
      ensures TotalCost(lines[..j]) > maxBytes
    {
      FittingIsLongest(lines, maxBytes, j);
    }
    if k < |lines| {
      CutKeeps(lines[k], maxBytes - TotalCost(lines[..k]));
    }
  }

  // ---- Bytes ------------------------------------------------------------------

  // The bytes of a character and back, as section 3 of RFC 3629 has them.
  function Encoded(c: char): seq<nat> {
    var u := c as nat;
    if u < 0x80 then [u]
    else if u < 0x800 then [0xC0 + u / 64, 0x80 + u % 64]
    else if u < 0x10000 then [0xE0 + u / 4096, 0x80 + u / 64 % 64, 0x80 + u % 64]
    else [0xF0 + u / 262144, 0x80 + u / 4096 % 64, 0x80 + u / 64 % 64, 0x80 + u % 64]
  }

  function Decoded(bytes: seq<nat>): nat {
    if |bytes| == 1 then bytes[0]
    else if |bytes| == 2 then bytes[0] % 32 * 64 + bytes[1] % 64
    else if |bytes| == 3 then bytes[0] % 16 * 4096 + bytes[1] % 64 * 64 + bytes[2] % 64
    else if |bytes| == 4 then bytes[0] % 8 * 262144 + bytes[1] % 64 * 4096 + bytes[2] % 64 * 64 + bytes[3] % 64
    else 0
  }

  lemma EncodedReadBack(c: char)
    ensures Decoded(Encoded(c)) == c as int && |Encoded(c)| == Width(c)
  {
    var u := c as nat;
    if 0x80 <= u < 0x800 {
      assert (0xC0 + u / 64) % 32 == u / 64;
      SixBits(u);
    } else if 0x800 <= u < 0x10000 {
      assert (0xE0 + u / 4096) % 16 == u / 4096;
      ThreeParts(u);
    } else if 0x10000 <= u {
      assert (0xF0 + u / 262144) % 8 == u / 262144;
      FourParts(u);
    }
  }

  lemma EncodedAreBytes(c: char)
    ensures forall b :: b in Encoded(c) ==> b < 256
  {
  }

  lemma SixBits(u: nat)
    ensures (0x80 + u % 64) % 64 == u % 64
  {
  }

  lemma ThreeParts(u: nat)
    ensures (0x80 + u % 64) % 64 == u % 64 && (0x80 + u / 64 % 64) % 64 == u / 64 % 64
    ensures u == u / 4096 * 4096 + u / 64 % 64 * 64 + u % 64
  {
    SixBits(u);
    SixBits(u / 64);
    assert u / 64 / 64 == u / 4096;
  }

  lemma FourParts(u: nat)
    ensures (0x80 + u % 64) % 64 == u % 64 && (0x80 + u / 64 % 64) % 64 == u / 64 % 64
    ensures (0x80 + u / 4096 % 64) % 64 == u / 4096 % 64
    ensures u == u / 262144 * 262144 + u / 4096 % 64 * 4096 + u / 64 % 64 * 64 + u % 64
  {
    ThreeParts(u);
    SixBits(u / 4096);
    assert u / 4096 / 64 == u / 262144;
  }

  function EncodedText(s: string): seq<nat> {
    if s == "" then [] else Encoded(s[0]) + EncodedText(s[1..])
  }

  // The budget is counted in the bytes of the text's encoding, and one for each line's end.
  lemma {:induction false} LengthIsOfTheBytes(s: string)
    ensures ByteLength(s) == |EncodedText(s)|
  {
    if s != "" {
      EncodedReadBack(s[0]);
      LengthIsOfTheBytes(s[1..]);
    }
  }

  function LinesText(lines: seq<Line>): string {
    if lines == [] then "" else LinesText(lines[..|lines| - 1]) + lines[|lines| - 1].content + "\n"
  }

  lemma {:induction false} LengthInParts(a: string, b: string)
    ensures ByteLength(a + b) == ByteLength(a) + ByteLength(b)
  {
    if a == "" {
      assert a + b == b;
    } else {
      assert (a + b)[1..] == a[1..] + b;
      LengthInParts(a[1..], b);
    }
  }

  lemma {:induction false} CostIsOfTheText(lines: seq<Line>)
    ensures TotalCost(lines) == ByteLength(LinesText(lines))
  {
    if lines != [] {
      var n := |lines| - 1;
      var before := LinesText(lines[..n]);
      CostIsOfTheText(lines[..n]);
      LengthInParts(before, lines[n].content);
      LengthInParts(before + lines[n].content, "\n");
      assert ByteLength("\n") == 1 by {
        assert "\n"[1..] == "";
      }
    }
  }

  predicate SingleByte(s: string) {
    forall c :: c in s ==> Width(c) == 1
  }

  lemma {:induction false} SingleByteLength(s: string)
    requires SingleByte(s)
    ensures ByteLength(s) == |s|
  {
    if s != "" {
      assert s[0] in s;
      assert SingleByte(s[1..]) by {
        forall c | c in s[1..]
          ensures Width(c) == 1
        {
          assert c in s;
        }
      }
      SingleByteLength(s[1..]);
    }
  }

  // For single-byte text, what is returned overshoots the budget by at most 38 bytes, the
  // marker's 37 and a line end.
  lemma TruncationIsBounded(lines: seq<Line>, maxBytes: int)
    requires 0 <= maxBytes && forall i :: 0 <= i < |lines| ==> SingleByte(lines[i].content)
    ensures TotalCost(Truncated(lines, maxBytes)) <= maxBytes + 38
  {
    var k := Fitting(lines, maxBytes);
    FittingIsLongest(lines, maxBytes, k);
    if k < |lines| {
      var left := maxBytes - TotalCost(lines[..k]);
      var cut := Cut(lines[k], left);
      MarkerIsShort();
      assert forall c :: c in cut.content ==> c in lines[k].content || c in MARKER;
      SingleByteLength(cut.content);
      var kept := Truncated(lines, maxBytes);
      assert kept[..|kept| - 1] == lines[..k];
    } else {
      assert lines[..k] == lines;
    }
  }

  lemma MarkerIsShort()
    ensures |MARKER| == 37 && SingleByte(MARKER)
  {
    FirstHalfIsSingleByte();
    SecondHalfIsSingleByte();
  }

  lemma FirstHalfIsSingleByte()
    ensures |"\n...[truncated; "| == 16 && SingleByte("\n...[truncated; ")
  {
  }

  lemma SecondHalfIsSingleByte()
    ensures |"maxBytes exceeded]..."| == 21 && SingleByte("maxBytes exceeded]...")
  {
  }
}
