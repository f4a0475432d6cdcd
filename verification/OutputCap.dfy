// The bound on the output text held for one command item
// (src/app-server/session-projection.ts, and its twin in web/shared/src/thread-store.ts).

module OutputCap {

  const MAX_AGGREGATED_OUTPUT_CHARS: nat := 256 * 1024
  const OUTPUT_TRUNCATION_MARKER: string := "[... earlier output truncated ...]\n"

  // The last n characters of s.
  function Tail(s: string, n: nat): string
    requires n <= |s|
  {
    s[|s| - n..]
  }

  function CapTo(text: string, max: nat, marker: string): (r: string)
    requires |marker| <= max
    ensures |r| <= max
  {
    if |text| <= max then text else marker + Tail(text, max - |marker|)
  }

  function Cap(text: string): (r: string)
    ensures |r| <= MAX_AGGREGATED_OUTPUT_CHARS
  {
    CapTo(text, MAX_AGGREGATED_OUTPUT_CHARS, OUTPUT_TRUNCATION_MARKER)
  }

  // 262144 characters are kept as they are; a longer text keeps its end, behind a line that
  // says so, and comes to exactly that length.
  lemma CapKeepsTheEnd(text: string)
    ensures |text| <= 262144 ==> Cap(text) == text
    ensures |text| > 262144 ==>
              && |Cap(text)| == 262144
              && Cap(text) == "[... earlier output truncated ...]\n" + text[|text| - 262109..]
  {
    assert |OUTPUT_TRUNCATION_MARKER| == 35;
  }

  lemma CapToAbsorbs(a: string, b: string, max: nat, marker: string)
    requires |marker| <= max
    ensures CapTo(CapTo(a, max, marker) + b, max, marker) == CapTo(a + b, max, marker)
  {
    var held := CapTo(a, max, marker);
    if |a| > max && b == [] {
      assert held + b == held && a + b == a;
    } else if |a| > max {
      assert Tail(held + b, max - |marker|) == Tail(a + b, max - |marker|);
    }
  }

  // The marker put in by an earlier cut is itself cut off before any real text is:
  // capping before appending loses nothing that capping afterwards would keep.
  lemma CapAbsorbs(a: string, b: string)
    ensures Cap(Cap(a) + b) == Cap(a + b)
  {
    CapToAbsorbs(a, b, MAX_AGGREGATED_OUTPUT_CHARS, OUTPUT_TRUNCATION_MARKER);
  }

  lemma CapIdempotent(a: string)
    ensures Cap(Cap(a)) == Cap(a)
  {
  }

  // Appending to two texts that look alike once capped keeps them looking alike.
  lemma CapCongruence(a: string, a': string, b: string)
    requires Cap(a) == Cap(a')
    ensures Cap(a + b) == Cap(a' + b)
  {
    CapAbsorbs(a, b);
    CapAbsorbs(a', b);
  }

  predicate EndsWithNewline(s: string) {
    |s| > 0 && s[|s| - 1] == '\n'
  }

  lemma CapKeepsLineEnd(a: string)
    ensures EndsWithNewline(Cap(a)) == EndsWithNewline(a)
  {
  }

  // What the projection does chunk by chunk.
  function Accumulate(held: string, chunks: seq<string>): string
    decreases chunks
  {
    if chunks == [] then held else Accumulate(Cap(held + chunks[0]), chunks[1..])
  }

  function Concat(chunks: seq<string>): string {
    if chunks == [] then "" else chunks[0] + Concat(chunks[1..])
  }

  // Capping every chunk as it arrives is capping the whole output once.
  lemma {:induction false} AccumulateIsCapOfWhole(held: string, chunks: seq<string>)
    ensures Cap(Accumulate(held, chunks)) == Cap(held + Concat(chunks))
    ensures chunks != [] || |held| <= MAX_AGGREGATED_OUTPUT_CHARS
            ==> Accumulate(held, chunks) == Cap(held + Concat(chunks))
    decreases chunks
  {
    if chunks == [] {
      assert held + Concat(chunks) == held;
    } else {
      var rest := Concat(chunks[1..]);
      AccumulateIsCapOfWhole(Cap(held + chunks[0]), chunks[1..]);
      CapAbsorbs(held + chunks[0], rest);
      assert held + Concat(chunks) == held + chunks[0] + rest;
    }
  }
}
