// Text helpers with the meaning JavaScript gives them.

module Strings {
  import opened Wrappers

  predicate StartsWith(s: string, prefix: string) {
    |prefix| <= |s| && s[..|prefix|] == prefix
  }

  predicate EndsWith(s: string, suffix: string) {
    |suffix| <= |s| && s[|s| - |suffix|..] == suffix
  }

  lemma StartsWithAppended(prefix: string, rest: string)
    ensures StartsWith(prefix + rest, prefix) && (prefix + rest)[|prefix|..] == rest
  {
    assert (prefix + rest)[..|prefix|] == prefix;
  }

  lemma StartsWithLonger(s: string, prefix: string, more: string)
    ensures StartsWith(s, prefix + more) ==> StartsWith(s, prefix)
  {
    if StartsWith(s, prefix + more) {
      assert s[..|prefix|] == (prefix + more)[..|prefix|] == prefix;
    }
  }

  lemma StartsWithAt(s: string, prefix: string, i: nat)
    requires i < |prefix|
    ensures StartsWith(s, prefix) ==> i < |s| && s[i] == prefix[i]
  {
    if StartsWith(s, prefix) {
      assert s[..|prefix|][i] == prefix[i];
    }
  }

  lemma StartsWithAfter(common: string, s: string, t: string)
    ensures StartsWith(common + s, common + t) <==> StartsWith(s, t)
  {
    if |t| <= |s| {
      assert (common + s)[..|common + t|] == common + s[..|t|];
      assert (common + s[..|t|])[|common|..] == s[..|t|] && (common + t)[|common|..] == t;
    }
  }

  // ---- Parts and white space --------------------------------------------------

  function Split(s: string, at: char): (parts: seq<string>)
    ensures parts != []
  {
    if s == "" then [""]
    else
      var rest := Split(s[1..], at);
      if s[0] == at then [""] + rest else [[s[0]] + rest[0]] + rest[1..]
  }

  function Join(parts: seq<string>, between: string): string {
    if parts == [] then "" else if |parts| == 1 then parts[0] else parts[0] + between + Join(parts[1..], between)
  }

  lemma {:induction false} SplitAtFirst(part: string, rest: string, at: char)
    requires at !in part
    ensures Split(part, at) == [part]
    ensures Split(part + [at] + rest, at) == [part] + Split(rest, at)
  {
    if part == "" {
      assert part + [at] + rest == [at] + rest;
      assert ([at] + rest)[1..] == rest;
    } else {
      assert part[0] in part && at !in part[1..];
      SplitAtFirst(part[1..], rest, at);
      var whole := part + [at] + rest;
      assert whole[1..] == part[1..] + [at] + rest;
      assert [part[0]] + part[1..] == part;
    }
  }

  lemma {:induction false} JoinedSplits(lines: seq<string>, at: char)
    requires lines != [] && forall i :: 0 <= i < |lines| ==> at !in lines[i]
    ensures Split(Join(lines, [at]), at) == lines
  {
    if |lines| == 1 {
      SplitAtFirst(lines[0], "", at);
    } else {
      var rest := Join(lines[1..], [at]);
      JoinedSplits(lines[1..], at);
      SplitAtFirst(lines[0], rest, at);
      assert [lines[0]] + lines[1..] == lines;
    }
  }

  lemma {:induction false} SplitJoins(s: string, at: char)
    ensures Join(Split(s, at), [at]) == s
  {
    if s != "" {
      SplitJoins(s[1..], at);
      var rest := Split(s[1..], at);
      if s[0] == at {
        assert ([""] + rest)[1..] == rest && "" + [at] + s[1..] == s;
      } else {
        var first := [s[0]] + rest[0];
        assert ([first] + rest[1..])[1..] == rest[1..];
        if |rest| == 1 {
          assert first == s;
        } else {
          var tail := Join(rest[1..], [at]);
          assert first + [at] + tail == [s[0]] + (rest[0] + [at] + tail);
        }
      }
    }
  }

  // The white space of `trim` and of `\s`.
  predicate Space(c: char) {
    || c == ' ' || '\t' <= c <= '\r' || c == '\U{A0}' || c == '\U{1680}' || '\U{2000}' <= c <= '\U{200A}'
    || c == '\U{2028}' || c == '\U{2029}' || c == '\U{202F}' || c == '\U{205F}' || c == '\U{3000}' || c == '\U{FEFF}'
  }

  function TrimLeft(s: string): (t: string)
    ensures |t| <= |s|
  {
    if s != "" && Space(s[0]) then TrimLeft(s[1..]) else s
  }

  function TrimRight(s: string): (t: string)
    ensures |t| <= |s|
  {
    if s != "" && Space(s[|s| - 1]) then TrimRight(s[..|s| - 1]) else s
  }

  function Trim(s: string): string {
    TrimRight(TrimLeft(s))
  }

  predicate AllSpace(s: string) {
    forall c :: c in s ==> Space(c)
  }

  lemma {:induction false} TrimLeftDrops(space: string, s: string)
    requires AllSpace(space)
    ensures TrimLeft(space + s) == TrimLeft(s)
  {
    if space == "" {
      assert space + s == s;
    } else {
      assert space[0] in space;
      assert (space + s)[1..] == space[1..] + s;
      forall c | c in space[1..]
        ensures Space(c)
      {
        assert c in space;
      }
      TrimLeftDrops(space[1..], s);
    }
  }

  predicate Trimmed(s: string) {
    s == "" || (!Space(s[0]) && !Space(s[|s| - 1]))
  }

  lemma {:induction false} TrimEnds(s: string)
    ensures TrimLeft(s) != "" ==> !Space(TrimLeft(s)[0])
    ensures TrimRight(s) != "" ==> !Space(TrimRight(s)[|TrimRight(s)| - 1]) && TrimRight(s)[0] == s[0]
    decreases |s|
  {
    if s != "" {
      TrimEnds(s[1..]);
      TrimEnds(s[..|s| - 1]);
    }
  }

  lemma TrimmedStays(s: string)
    ensures Trimmed(s) ==> TrimLeft(s) == s && TrimRight(s) == s
    ensures Trimmed(s) <==> Trim(s) == s
  {
    TrimEnds(s);
    TrimEnds(TrimLeft(s));
  }

  // ---- Decimal numerals -------------------------------------------------------

  predicate IsDigit(c: char) {
    '0' <= c <= '9'
  }

  function DigitChar(d: nat): (c: char)
    requires d < 10
    ensures IsDigit(c)
  {
    ['0', '1', '2', '3', '4', '5', '6', '7', '8', '9'][d]
  }

  function DigitValue(c: char): (d: nat)
    requires IsDigit(c)
    ensures d < 10
  {
    (c as int) - ('0' as int)
  }

  predicate AllDigits(s: string) {
    forall c :: c in s ==> IsDigit(c)
  }

  function Decimal(n: nat): (s: string)
    ensures s != "" && AllDigits(s)
  {
    if n < 10 then [DigitChar(n)] else Decimal(n / 10) + [DigitChar(n % 10)]
  }

  function ParseDecimal(s: string): nat
    requires AllDigits(s)
  {
    if s == "" then 0 else 10 * ParseDecimal(s[..|s| - 1]) + DigitValue(s[|s| - 1])
  }

  lemma {:induction false} DecimalRoundTrip(n: nat)
    ensures ParseDecimal(Decimal(n)) == n
  {
    if n >= 10 {
      DecimalRoundTrip(n / 10);
      assert Decimal(n)[..|Decimal(n)| - 1] == Decimal(n / 10);
    }
  }

  lemma DecimalInjective(m: nat, n: nat)
    requires Decimal(m) == Decimal(n)
    ensures m == n
  {
    DecimalRoundTrip(m);
    DecimalRoundTrip(n);
  }
}
