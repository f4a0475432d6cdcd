// SKILL.md files: the printer, and the frontmatter parser that reads them back
// (src/adaptive/skill-author.ts).

module SkillAuthor {
  import opened Wrappers
  import opened Strings
  import Regex

  datatype Policy = Policy(readProject: bool, writeProject: bool, readUser: bool, writeUser: bool)

  // `manualOnly` is the flag that switches automatic invocation off.
  datatype Skill = Skill(
    name: string,
    description: string,
    kind: string,
    scope: string,
    whenToUse: string,
    manualOnly: bool,
    arguments: seq<string>,
    allowedTools: seq<string>,
    policy: Policy,
    body: string,
    version: int,
    createdBy: string,
    createdAt: string,
    updatedAt: string)

  const KINDS: seq<string> := ["prompt", "workflow", "checklist", "tool-guide"]
  const SCOPES: seq<string> := ["project", "user", "builtin"]

  // A value of the frontmatter. A decimal fraction keeps its text.
  datatype Yaml =
    | Str(text: string)
    | Bool(value: bool)
    | Null
    | Num(number: int)
    | Fraction(digits: string)
    | Items(items: seq<Yaml>)
    | Map(entries: map<string, Yaml>)
    | Undefined

  // ---- The printer ------------------------------------------------------------

  function Integer(n: int): string {
    if n < 0 then "-" + Decimal(-n) else Decimal(n)
  }

  function Flag(b: bool): string {
    if b then "true" else "false"
  }

  function Listing(items: seq<string>): string {
    "[" + Join(items, ", ") + "]"
  }

  function Field(key: string, value: string): string {
    key + ": " + value
  }

  function PolicyFlags(p: Policy): seq<(string, bool)> {
    [("mayReadProjectMemory", p.readProject), ("mayWriteProjectMemory", p.writeProject),
     ("mayReadUserMemory", p.readUser), ("mayWriteUserMemory", p.writeUser)]
  }

  function FlagLines(flags: seq<(string, bool)>): seq<string> {
    if flags == [] then [] else ["  " + Field(flags[0].0, Flag(flags[0].1))] + FlagLines(flags[1..])
  }

  function FlagBlock(key: string, flags: seq<(string, bool)>): seq<string> {
    [key + ":"] + FlagLines(flags)
  }

  // The fields of the frontmatter, in the order they are printed.
  datatype FieldName =
    | Name | Description | Kind | Scope | WhenToUse | AutoInvocation | Arguments | AllowedTools
    | MemoryPolicy | Version | CreatedBy | CreatedAt | UpdatedAt

  const ORDER := [Name, Description, Kind, Scope, WhenToUse, AutoInvocation, Arguments, AllowedTools,
                  MemoryPolicy, Version, CreatedBy, CreatedAt, UpdatedAt]

  function KeyOf(f: FieldName): string {
    match f
    case Name => "name"
    case Description => "description"
    case Kind => "type"
    case Scope => "scope"
    case WhenToUse => "whenToUse"
    case AutoInvocation => "disableAutoInvocation"
    case Arguments => "arguments"
    case AllowedTools => "allowedTools"
    case MemoryPolicy => "memoryPolicy"
    case Version => "version"
    case CreatedBy => "createdBy"
    case CreatedAt => "createdAt"
    case UpdatedAt => "updatedAt"
  }

  // The text after the key, for every field but the memory policy.
  function TextFor(s: Skill, f: FieldName): string {
    match f
    case Name => s.name
    case Description => s.description
    case Kind => s.kind
    case Scope => s.scope
    case WhenToUse => s.whenToUse
    case AutoInvocation => Flag(s.manualOnly)
    case Arguments => Listing(s.arguments)
    case AllowedTools => Listing(s.allowedTools)
    case MemoryPolicy => ""
    case Version => Integer(s.version)
    case CreatedBy => s.createdBy
    case CreatedAt => s.createdAt
    case UpdatedAt => s.updatedAt
  }

  // Empty texts and lists are left out.
  predicate Present(s: Skill, f: FieldName) {
    match f
    case WhenToUse => s.whenToUse != ""
    case Arguments => s.arguments != []
    case AllowedTools => s.allowedTools != []
    case _ => true
  }

  function LinesFor(s: Skill, f: FieldName): seq<string> {
    if f.MemoryPolicy? then FlagBlock(KeyOf(f), PolicyFlags(s.policy))
    else if Present(s, f) then [Field(KeyOf(f), TextFor(s, f))]
    else []
  }

  // The lines of the first k fields.
  function FrontLines(s: Skill, k: nat): seq<string>
    requires k <= |ORDER|
  {
    if k == 0 then [] else FrontLines(s, k - 1) + LinesFor(s, ORDER[k - 1])
  }

  function Printed(s: Skill): string {
    Join(["---"] + FrontLines(s, |ORDER|) + ["---", "", s.body], "\n")
  }

  lemma PrintNext(s: Skill, k: nat, f: FieldName)
    requires k < |ORDER| && ORDER[k] == f
    ensures FrontLines(s, k + 1) == FrontLines(s, k) + LinesFor(s, f)
  {
  }

  method SerializeSkill(s: Skill) returns (text: string)
    ensures text == Printed(s)
  {
    var fm := PrintHead(s);
    fm := PrintUsage(s, fm);
    fm := PrintLists(s, fm);
    fm := PrintTail(s, fm);
    text := Join(["---"] + fm + ["---", "", s.body], "\n");
  }

  method PrintHead(s: Skill) returns (fm: seq<string>)
    ensures fm == FrontLines(s, 4)
  {
    fm := [Field(KeyOf(Name), s.name)];
    PrintNext(s, 0, Name);
    fm := fm + [Field(KeyOf(Description), s.description)];
    PrintNext(s, 1, Description);
    fm := fm + [Field(KeyOf(Kind), s.kind)];
    PrintNext(s, 2, Kind);
    fm := fm + [Field(KeyOf(Scope), s.scope)];
    PrintNext(s, 3, Scope);
  }

  method PrintUsage(s: Skill, before: seq<string>) returns (fm: seq<string>)
    requires before == FrontLines(s, 4)
    ensures fm == FrontLines(s, 6)
  {
    fm := before;
    if s.whenToUse != "" {
      fm := fm + [Field(KeyOf(WhenToUse), s.whenToUse)];
    }
    PrintNext(s, 4, WhenToUse);
    fm := fm + [Field(KeyOf(AutoInvocation), Flag(s.manualOnly))];
    PrintNext(s, 5, AutoInvocation);
  }

  method PrintLists(s: Skill, before: seq<string>) returns (fm: seq<string>)
    requires before == FrontLines(s, 6)
    ensures fm == FrontLines(s, 8)
  {
    fm := before;
    if s.arguments != [] {
      fm := fm + [Field(KeyOf(Arguments), Listing(s.arguments))];
    }
    PrintNext(s, 6, Arguments);
    if s.allowedTools != [] {
      fm := fm + [Field(KeyOf(AllowedTools), Listing(s.allowedTools))];
    }
    PrintNext(s, 7, AllowedTools);
  }

  method PrintTail(s: Skill, middle: seq<string>) returns (fm: seq<string>)
    requires middle == FrontLines(s, 8)
    ensures fm == FrontLines(s, |ORDER|)
  {
    fm := middle + FlagBlock(KeyOf(MemoryPolicy), PolicyFlags(s.policy));
    PrintNext(s, 8, MemoryPolicy);
    fm := fm + [Field(KeyOf(Version), Integer(s.version))];
    PrintNext(s, 9, Version);
    fm := PrintProvenance(s, fm);
  }

  method PrintProvenance(s: Skill, before: seq<string>) returns (fm: seq<string>)
    requires before == FrontLines(s, 10)
    ensures fm == FrontLines(s, |ORDER|)
  {
    fm := before + [Field(KeyOf(CreatedBy), s.createdBy)];
    PrintNext(s, 10, CreatedBy);
    fm := fm + [Field(KeyOf(CreatedAt), s.createdAt)];
    PrintNext(s, 11, CreatedAt);
    fm := fm + [Field(KeyOf(UpdatedAt), s.updatedAt)];
    PrintNext(s, 12, UpdatedAt);
  }

  // ---- Scalars and inline collections -----------------------------------------

  function LeadingDigits(s: string): (n: nat)
    ensures n <= |s| && AllDigits(s[..n]) && (n < |s| ==> !IsDigit(s[n]))
  {
    if s != "" && IsDigit(s[0]) then 1 + LeadingDigits(s[1..]) else 0
  }

  function Unsigned(s: string): string {
    if s != "" && s[0] == '-' then s[1..] else s
  }

  predicate IsInteger(s: string) {
    Unsigned(s) != "" && AllDigits(Unsigned(s))
  }

  predicate IsFraction(s: string) {
    var u := Unsigned(s);
    var n := LeadingDigits(u);
    0 < n < |u| && u[n] == '.' && u[n + 1..] != "" && AllDigits(u[n + 1..])
  }

  function ToInteger(s: string): int
    requires IsInteger(s)
  {
    if s[0] == '-' then 0 - ParseDecimal(s[1..]) else ParseDecimal(s)
  }

  predicate Wrapped(s: string, front: char, back: char) {
    s != "" && s[0] == front && s[|s| - 1] == back
  }

  // What is between the first and the last character.
  function Inside(s: string): string
    requires s != ""
  {
    if |s| == 1 then "" else s[1..|s| - 1]
  }

  function CoerceScalar(v: string): Yaml {
    if v == "true" then Bool(true)
    else if v == "false" then Bool(false)
    else if v == "null" || v == "~" then Null
    else if v == "" then Str("")
    else if IsInteger(v) then Num(ToInteger(v))
    else if IsFraction(v) then Fraction(v)
    else if Wrapped(v, '"', '"') || Wrapped(v, '\'', '\'') then Str(Inside(v))
    else Str(v)
  }

  predicate IsQuote(c: char) {
    c == '"' || c == '\''
  }

  function Unquote(s: string): string {
    var t := if s != "" && IsQuote(s[0]) then s[1..] else s;
    if t != "" && IsQuote(t[|t| - 1]) then t[..|t| - 1] else t
  }

  function Tidied(parts: seq<string>): seq<Yaml> {
    seq(|parts|, i requires 0 <= i < |parts| => Str(Unquote(Trim(parts[i]))))
  }

  function InlineMap(parts: seq<string>): map<string, Yaml> {
    if parts == [] then map[]
    else
      var before := InlineMap(parts[..|parts| - 1]);
      var kv := Split(parts[|parts| - 1], ':');
      if |kv| < 2 then before
      else before[Unquote(Trim(kv[0])) := CoerceScalar(Unquote(Trim(Join(kv[1..], ":"))))]
  }

  function Inline(rest: string): Yaml {
    if Wrapped(rest, '[', ']') then Items(Tidied(Split(Inside(rest), ',')))
    else if Wrapped(rest, '{', '}') then
      var inner := Trim(Inside(rest));
      Map(if inner == "" then map[] else InlineMap(Split(inner, ',')))
    else CoerceScalar(rest)
  }

  // ---- Lines ------------------------------------------------------------------

  datatype Entry = Entry(indent: nat, key: string, rest: string)

  predicate KeyChar(c: char) {
    'A' <= c <= 'Z' || 'a' <= c <= 'z' || IsDigit(c) || c == '_' || c == '-'
  }

  function KeyLength(s: string): (n: nat)
    ensures n <= |s|
  {
    if s != "" && KeyChar(s[0]) then 1 + KeyLength(s[1..]) else 0
  }

  function Indent(line: string): (n: nat)
    ensures n <= |line|
  {
    |line| - |TrimLeft(line)|
  }

  predicate OneLine(s: string) {
    forall c :: c in s ==> !Regex.LineBreak(c)
  }

  // A line of the form `key: rest`.
  function ReadEntry(line: string): Option<Entry> {
    var text := TrimLeft(line);
    var n := KeyLength(text);
    var after := TrimLeft(text[n..]);
    if n == 0 || after == "" || after[0] != ':' then None
    else
      var rest := TrimLeft(after[1..]);
      if OneLine(rest) then Some(Entry(Indent(line), text[..n], TrimRight(rest))) else None
  }

  predicate IsItem(line: string) {
    var text := TrimLeft(line);
    |text| >= 2 && text[0] == '-' && Space(text[1])
  }

  // The indented lines below a key: a list, a map, or nothing, and how many lines of it.
  datatype Block = Block(list: seq<Yaml>, entries: map<string, Yaml>, isList: bool, isMap: bool, count: nat)

  function BlockValue(b: Block): Yaml {
    if b.isList then Items(b.list) else if b.isMap then Map(b.entries) else Undefined
  }

  predicate OpensBlock(rest: string) {
    rest == "" || rest == "|" || rest == ">"
  }

  // Blank lines and comments, and lines of any other form, are skipped.
  function LineEntry(line: string): Option<Entry> {
    var text := Trim(line);
    if text == "" || text[0] == '#' then None else ReadEntry(line)
  }

  // A line of the root either opens a block under its key or holds a value.
  datatype Head = Opens(key: string) | Holds(key: string, value: Yaml)

  // All there is to know of one line: the list item or map entry it is inside a block, and
  // what it is outside one.
  datatype Seen = Seen(
    blank: bool, indent: nat, item: Option<Yaml>, nested: Option<(string, Yaml)>, head: Option<Head>)

  function ItemValue(line: string): Yaml
    requires IsItem(line)
  {
    var item := TrimLeft(TrimLeft(line)[1..]);
    if ':' in item then Str(item) else CoerceScalar(item)
  }

  function HeadOf(entry: Entry): Head {
    if OpensBlock(entry.rest) then Opens(entry.key) else Holds(entry.key, Inline(entry.rest))
  }

  function See(line: string): Seen {
    var entry := ReadEntry(line);
    var outside := LineEntry(line);
    Seen(Trim(line) == "",
         Indent(line),
         if IsItem(line) then Some(ItemValue(line)) else None,
         if entry.None? then None else Some((entry.value.key, CoerceScalar(entry.value.rest))),
         if outside.None? then None else Some(HeadOf(outside.value)))
  }

  function SeeAll(lines: seq<string>): (xs: seq<Seen>)
    ensures |xs| == |lines|
  {
    if lines == [] then [] else [See(lines[0])] + SeeAll(lines[1..])
  }

  lemma {:induction false} SeenAt(lines: seq<string>, i: nat)
    requires i < |lines|
    ensures SeeAll(lines)[i] == See(lines[i])
  {
    if i > 0 {
      SeenAt(lines[1..], i - 1);
    }
  }

  // What one line adds to a block, and whether the block goes on after it.
  function TakeBlockLine(x: Seen, indent: nat, b: Block): (r: (Block, bool))
    ensures r.0.count == b.count + if r.1 then 1 else 0
  {
    if x.blank then (b.(count := b.count + 1), true)
    else if x.indent <= indent then (b, false)
    else if x.item.Some? then (b.(list := b.list + [x.item.value], isList := true, count := b.count + 1), true)
    else if x.nested.None? then (b.(isMap := true), false)
    else
      (b.(entries := b.entries[x.nested.value.0 := x.nested.value.1], isMap := true, count := b.count + 1), true)
  }

  function ReadBlock(xs: seq<Seen>, indent: nat, b: Block): (r: Block)
    ensures b.count <= r.count <= b.count + |xs|
  {
    if xs == [] then b
    else
      var (next, more) := TakeBlockLine(xs[0], indent, b);
      if more then ReadBlock(xs[1..], indent, next) else next
  }

  const NO_BLOCK := Block([], map[], false, false, 0)

  // What a line adds to the root, with the block below it if it opens one, and how many
  // lines that takes.
  function TakeEntry(x: Seen, below: seq<Seen>, root: map<string, Yaml>): (r: (map<string, Yaml>, nat))
    ensures 0 < r.1 <= 1 + |below|
  {
    if x.head.None? then (root, 1)
    else
      match x.head.value
      case Opens(key) =>
        var b := ReadBlock(below, x.indent, NO_BLOCK);
        (root[key := BlockValue(b)], 1 + b.count)
      case Holds(key, value) => (root[key := value], 1)
  }

  function ParseSeen(xs: seq<Seen>, root: map<string, Yaml>): map<string, Yaml>
    decreases |xs|
  {
    if xs == [] then root
    else
      var (next, count) := TakeEntry(xs[0], xs[1..], root);
      ParseSeen(xs[count..], next)
  }

  function ParseLines(lines: seq<string>): map<string, Yaml> {
    ParseSeen(SeeAll(lines), map[])
  }

  lemma ParseGoesOn(xs: seq<Seen>, i: nat, root: map<string, Yaml>, next: map<string, Yaml>, count: nat)
    requires i < |xs| && (next, count) == TakeEntry(xs[i], xs[i + 1..], root)
    ensures i + count <= |xs| && ParseSeen(xs[i..], root) == ParseSeen(xs[i + count..], next)
  {
    var rest := xs[i..];
    assert rest[0] == xs[i] && rest[1..] == xs[i + 1..];
    assert rest[count..] == xs[i + count..];
  }

  // The parser's loops over an index, which always end.
  method ParseSimpleYaml(lines: seq<string>) returns (root: map<string, Yaml>)
    ensures root == ParseLines(lines)
  {
    hide See, TakeEntry, ReadBlock, ParseSeen;
    root := map[];
    var i := 0;
    ghost var xs := SeeAll(lines);
    assert xs[0..] == xs;
    while i < |lines|
      invariant 0 <= i <= |lines|
      invariant ParseSeen(xs[i..], root) == ParseSeen(xs, map[])
    {
      var next, at := ParseEntryAt(lines, xs, i, root);
      ParseGoesOn(xs, i, root, next, at - i);
      root, i := next, at;
    }
    assert xs[i..] == [];
    ParseDone(root);
  }

  lemma ParseDone(root: map<string, Yaml>)
    ensures ParseSeen([], root) == root
  {
  }

  // The body of the outer loop, and the line it goes on at.
  method ParseEntryAt(lines: seq<string>, ghost xs: seq<Seen>, i: nat, root: map<string, Yaml>)
      returns (next: map<string, Yaml>, at: nat)
    requires i < |lines| && xs == SeeAll(lines)
    ensures i < at <= |lines| && (next, at - i) == TakeEntry(xs[i], xs[i + 1..], root)
  {
    hide Inline, CoerceScalar, ReadEntry, IsItem, ItemValue, Trim, ReadBlock;
    SeenAt(lines, i);
    var found := LineEntry(lines[i]);
    if found.None? {
      return root, i + 1;
    }
    var entry := found.value;
    if OpensBlock(entry.rest) {
      var value, last := ReadBlockFrom(lines, xs, i, Indent(lines[i]));
      return root[entry.key := value], last + 1;
    }
    return root[entry.key := Inline(entry.rest)], i + 1;
  }

  lemma BlockGoesOn(xs: seq<Seen>, i: nat, indent: nat, b: Block)
    requires i < |xs|
    ensures var (next, more) := TakeBlockLine(xs[i], indent, b);
            ReadBlock(xs[i..], indent, b) == if more then ReadBlock(xs[i + 1..], indent, next) else next
  {
    assert xs[i..][1..] == xs[i + 1..];
  }

  // The inner loop: the block below line i, and the last line that belongs to it.
  method ReadBlockFrom(lines: seq<string>, ghost xs: seq<Seen>, i: nat, indent: nat)
      returns (value: Yaml, last: nat)
    requires i < |lines| && xs == SeeAll(lines)
    ensures var b := ReadBlock(xs[i + 1..], indent, NO_BLOCK);
            value == BlockValue(b) && last == i + b.count && last < |lines|
  {
    var b := NO_BLOCK;
    var more := true;
    last := i;
    while more && last + 1 < |lines|
      invariant i <= last < |lines| && b.count == last - i
      invariant ReadBlock(xs[i + 1..], indent, NO_BLOCK) == if more then ReadBlock(xs[last + 1..], indent, b) else b
      decreases |lines| - last, more
    {
      SeenAt(lines, last + 1);
      BlockGoesOn(xs, last + 1, indent, b);
      b, more := ReadBlockLine(lines[last + 1], indent, b);
      if more {
        last := last + 1;
      }
    }
    assert last + 1 == |lines| ==> xs[last + 1..] == [];
    value := BlockValue(b);
  }

  // The body of the inner loop.
  method ReadBlockLine(line: string, indent: nat, b: Block) returns (r: Block, more: bool)
    ensures (r, more) == TakeBlockLine(See(line), indent, b)
  {
    if Trim(line) == "" {
      return b.(count := b.count + 1), true;
    }
    if Indent(line) <= indent {
      return b, false;
    }
    if IsItem(line) {
      return b.(list := b.list + [ItemValue(line)], isList := true, count := b.count + 1), true;
    }
    var entry := ReadEntry(line);
    if entry.None? {
      return b.(isMap := true), false;
    }
    r := b.(entries := b.entries[entry.value.key := CoerceScalar(entry.value.rest)],
            isMap := true, count := b.count + 1);
    more := true;
  }

  // ---- The file ---------------------------------------------------------------

  // Every line but the last gives up one carriage return at its end.
  function Chopped(lines: seq<string>): seq<string> {
    if |lines| <= 1 then lines
    else [if EndsWith(lines[0], "\r") then lines[0][..|lines[0]| - 1] else lines[0]] + Chopped(lines[1..])
  }

  function Lines(text: string): seq<string> {
    Chopped(Split(text, '\n'))
  }

  // Where the first line break followed by three dashes stands.
  function FindClose(s: string): (j: Option<nat>)
    ensures j.Some? ==> j.value + 4 <= |s|
  {
    if s == "" then None
    else if StartsWith(s, "\n---") then Some(0)
    else
      var later := FindClose(s[1..]);
      if later.None? then None else Some(1 + later.value)
  }

  // The frontmatter between its dashes, and the body below them. The line break after the
  // closing dashes goes with the trimming of the body.
  function SplitFile(raw: string): Option<(string, string)> {
    var start := if StartsWith(raw, "---\n") then 4 else if StartsWith(raw, "---\r\n") then 5 else 0;
    var close := FindClose(raw[start..]);
    if start == 0 || close.None? then None
    else
      var yaml := raw[start..][..close.value];
      Some((if EndsWith(yaml, "\r") then yaml[..|yaml| - 1] else yaml, Trim(raw[start..][close.value + 4..])))
  }

  function Get(fm: map<string, Yaml>, key: string): Yaml {
    if key in fm then fm[key] else Undefined
  }

  predicate Missing(y: Yaml) {
    y.Undefined? || y.Null?
  }

  // String(x), which an array makes of its elements too.
  function Text(y: Yaml): string {
    match y
    case Str(text) => text
    case Bool(b) => Flag(b)
    case Null => "null"
    case Num(n) => Integer(n)
    case Fraction(digits) => digits
    case Items(items) =>
      Join(seq(|items|, i requires 0 <= i < |items| => if Missing(items[i]) then "" else Text(items[i])), ",")
    case Map(_) => "[object Object]"
    case Undefined => "undefined"
  }

  function TextOr(y: Yaml, default: string): string {
    if Missing(y) then default else Text(y)
  }

  predicate Truthy(y: Yaml) {
    match y
    case Str(text) => text != ""
    case Bool(b) => b
    case Null => false
    case Num(n) => n != 0
    case Fraction(digits) => exists c :: c in digits && '1' <= c <= '9'
    case Items(_) => true
    case Map(_) => true
    case Undefined => false
  }

  function StringList(y: Yaml): seq<string> {
    if y.Items? then seq(|y.items|, i requires 0 <= i < |y.items| => Text(y.items[i])) else []
  }

  // parseInt(s, 10): the integer a text begins with.
  function ParseInt(s: string): Option<int> {
    var t := TrimLeft(s);
    var u := if t != "" && (t[0] == '-' || t[0] == '+') then t[1..] else t;
    var n := LeadingDigits(u);
    if n == 0 then None
    else if t[0] == '-' then Some(0 - ParseDecimal(u[..n])) else Some(ParseDecimal(u[..n]))
  }

  function ReadPolicy(y: Yaml): Policy {
    var entries := if y.Map? then y.entries else map[];
    Policy(Truthy(Get(entries, "mayReadProjectMemory")), Truthy(Get(entries, "mayWriteProjectMemory")),
           Truthy(Get(entries, "mayReadUserMemory")), Truthy(Get(entries, "mayWriteUserMemory")))
  }

  predicate OneOf(y: Yaml, allowed: seq<string>) {
    Missing(y) || (y.Str? && y.text in allowed)
  }

  predicate ValidFields(fm: map<string, Yaml>) {
    && Get(fm, KeyOf(Name)).Str? && Get(fm, KeyOf(Name)).text != ""
    && Get(fm, KeyOf(Description)).Str? && Get(fm, KeyOf(Description)).text != ""
    && OneOf(Get(fm, KeyOf(Kind)), KINDS) && OneOf(Get(fm, KeyOf(Scope)), SCOPES)
  }

  // A version that is no number has no integer here, where the program has NaN.
  function ReadFields(fm: map<string, Yaml>, body: string, scope: string, now: string): Option<Skill>
    requires ValidFields(fm)
  {
    var version := ParseInt(TextOr(Get(fm, KeyOf(Version)), "1"));
    var manual := if Missing(Get(fm, "disableModelInvocation")) then Get(fm, KeyOf(AutoInvocation))
                  else Get(fm, "disableModelInvocation");
    if version.None? then None
    else Some(Skill(
      Get(fm, KeyOf(Name)).text,
      Get(fm, KeyOf(Description)).text,
      TextOr(Get(fm, KeyOf(Kind)), "prompt"),
      scope,
      TextOr(Get(fm, KeyOf(WhenToUse)), ""),
      Truthy(manual),
      StringList(Get(fm, KeyOf(Arguments))),
      StringList(Get(fm, KeyOf(AllowedTools))),
      ReadPolicy(Get(fm, KeyOf(MemoryPolicy))),
      body,
      version.value,
      TextOr(Get(fm, KeyOf(CreatedBy)), "reaper"),
      TextOr(Get(fm, KeyOf(CreatedAt)), now),
      TextOr(Get(fm, KeyOf(UpdatedAt)), now)))
  }

  function ReadSkill(raw: string, scope: string, now: string): Option<Skill> {
    var parts := SplitFile(raw);
    if parts.None? then None
    else
      var fm := ParseLines(Lines(parts.value.0));
      if ValidFields(fm) then ReadFields(fm, parts.value.1, scope, now) else None
  }

  // ---- What the printer's lines are read as -----------------------------------

  // One trimmed line that is no other kind of scalar, not quoted and no collection.
  predicate PlainScalar(v: string) {
    && OneLine(v) && Trimmed(v) && !OpensBlock(v)
    && v != "true" && v != "false" && v != "null" && v != "~"
    && !IsInteger(v) && !IsFraction(v)
    && !Wrapped(v, '"', '"') && !Wrapped(v, '\'', '\'') && !Wrapped(v, '[', ']') && !Wrapped(v, '{', '}')
  }

  // Such a text, and no other, is coerced to itself.
  lemma CoercedToItself(x: string, v: string)
    requires |x| <= |v| && Trimmed(x) && OneLine(x) && !OpensBlock(x)
    ensures Inline(x) == Str(v) <==> PlainScalar(v) && x == v
  {
  }

  predicate Key(key: string) {
    key != "" && forall c :: c in key ==> KeyChar(c)
  }

  lemma KeyIsNoSpace(c: char)
    requires KeyChar(c)
    ensures !Space(c) && c != '#' && !Regex.LineBreak(c)
  {
  }

  lemma {:induction false} KeyMeasured(key: string, rest: string)
    requires forall c :: c in key ==> KeyChar(c)
    requires rest != "" && !KeyChar(rest[0])
    ensures KeyLength(key + rest) == |key|
  {
    if key == "" {
      assert key + rest == rest;
    } else {
      assert key[0] in key && (key + rest)[1..] == key[1..] + rest;
      forall c | c in key[1..]
        ensures KeyChar(c)
      {
        assert c in key;
      }
      KeyMeasured(key[1..], rest);
    }
  }

  lemma ValueReadBack(v: string)
    requires Trimmed(v)
    ensures var after := ": " + v;
            TrimLeft(after) == after && after[0] == ':' && TrimLeft(after[1..]) == v && TrimRight(v) == v
  {
    var after := ": " + v;
    assert after[1..] == " " + v;
    TrimLeftDrops(" ", v);
    TrimmedStays(v);
  }

  lemma FieldMeasured(space: string, key: string, v: string)
    requires AllSpace(space) && Key(key)
    ensures var field := Field(key, v);
            && TrimLeft(space + field) == field
            && KeyLength(field) == |key| && field[..|key|] == key && field[|key|..] == ": " + v
  {
    var field := Field(key, v);
    assert field == key + (": " + v) && field[0] == key[0] && key[0] in key;
    KeyIsNoSpace(key[0]);
    TrimLeftDrops(space, field);
    KeyMeasured(key, ": " + v);
  }

  lemma EntryReadBack(space: string, key: string, v: string)
    requires AllSpace(space) && Key(key) && OneLine(v) && Trimmed(v)
    ensures ReadEntry(space + Field(key, v)) == Some(Entry(|space|, key, v))
  {
    FieldMeasured(space, key, v);
    ValueReadBack(v);
  }

  lemma LineReadBack(key: string, v: string)
    requires Key(key) && OneLine(v) && Trimmed(v)
    ensures LineEntry(Field(key, v)) == Some(Entry(0, key, v))
  {
    EntryReadBack("", key, v);
    assert "" + Field(key, v) == Field(key, v);
    LineStarts(key, v);
  }

  lemma LineStarts(key: string, v: string)
    requires Key(key)
    ensures Trim(Field(key, v)) != "" && Trim(Field(key, v))[0] == key[0] != '#'
  {
    var field := Field(key, v);
    assert field[0] == key[0] && key[0] in key;
    KeyIsNoSpace(key[0]);
    assert TrimLeft(field) == field;
    KeepsFirst(field);
  }

  lemma {:induction false} KeepsFirst(s: string)
    requires s != "" && !Space(s[0])
    ensures TrimRight(s) != "" && TrimRight(s)[0] == s[0]
    decreases |s|
  {
    if |s| > 1 {
      KeepsFirst(s[..|s| - 1]);
    }
  }

  // ---- Line by line -----------------------------------------------------------

  lemma FieldSeen(key: string, v: string)
    requires Key(key) && OneLine(v) && Trimmed(v) && !OpensBlock(v)
    ensures var x := See(Field(key, v)); x.head == Some(Holds(key, Inline(v))) && !x.blank && x.indent == 0
  {
    LineReadBack(key, v);
    LineStarts(key, v);
    FieldMeasured("", key, v);
    assert "" + Field(key, v) == Field(key, v);
  }

  lemma OpenerSeen(key: string)
    requires Key(key)
    ensures var x := See(key + ":"); x.head == Some(Opens(key)) && x.indent == 0
  {
    OpenerReadBack(key);
    assert (key + ":")[0] == key[0] && key[0] in key;
    KeyIsNoSpace(key[0]);
  }

  lemma TakesHead(x: Seen, key: string, value: Yaml, more: seq<Seen>, root: map<string, Yaml>)
    requires x.head == Some(Holds(key, value))
    ensures ParseSeen([x] + more, root) == ParseSeen(more, root[key := value])
  {
    assert ([x] + more)[1..] == more;
  }

  lemma OpenerReadBack(key: string)
    requires Key(key)
    ensures LineEntry(key + ":") == Some(Entry(0, key, ""))
  {
    var line := key + ":";
    assert line[0] == key[0] && key[0] in key;
    KeyIsNoSpace(key[0]);
    KeepsFirst(line);
    KeyMeasured(key, ":");
    assert line[|key|..] == ":" && line[..|key|] == key && ":"[1..] == "";
  }

  lemma FlagReadBack(b: bool)
    ensures OneLine(Flag(b)) && Trimmed(Flag(b)) && !OpensBlock(Flag(b))
    ensures CoerceScalar(Flag(b)) == Bool(b) && Inline(Flag(b)) == Bool(b)
  {
  }

  lemma IndentedField(key: string, v: string)
    requires Key(key) && key[0] != '-' && OneLine(v) && Trimmed(v)
    ensures var line := "  " + Field(key, v);
            Trim(line) != "" && Indent(line) == 2 && !IsItem(line) && ReadEntry(line) == Some(Entry(2, key, v))
  {
    var field := Field(key, v);
    EntryReadBack("  ", key, v);
    FieldMeasured("  ", key, v);
    LineStarts(key, v);
    FieldMeasured("", key, v);
    assert "" + field == field && field[0] == key[0];
  }

  // What an indented flag is seen as.
  function FlagLook(key: string, flag: bool): Seen {
    Seen(false, 2, None, Some((key, Bool(flag))), Some(Holds(key, Bool(flag))))
  }

  function FlagLooks(flags: seq<(string, bool)>): seq<Seen> {
    if flags == [] then [] else [FlagLook(flags[0].0, flags[0].1)] + FlagLooks(flags[1..])
  }

  lemma FlagSeen(key: string, flag: bool)
    requires Key(key) && key[0] != '-'
    ensures See("  " + Field(key, Flag(flag))) == FlagLook(key, flag)
  {
    FlagReadBack(flag);
    IndentedField(key, Flag(flag));
    LineStarts(key, Flag(flag));
    FieldMeasured("  ", key, Flag(flag));
    FieldMeasured("", key, Flag(flag));
    assert "" + Field(key, Flag(flag)) == Field(key, Flag(flag));
  }

  lemma {:induction false} FlagsSeen(flags: seq<(string, bool)>)
    requires FlagKeys(flags)
    ensures SeeAll(FlagLines(flags)) == FlagLooks(flags)
    decreases |flags|
  {
    if flags != [] {
      FlagSeen(flags[0].0, flags[0].1);
      FlagsSeen(flags[1..]);
      SeeFirst("  " + Field(flags[0].0, Flag(flags[0].1)), FlagLines(flags[1..]));
    }
  }

  lemma SeeFirst(line: string, rest: seq<string>)
    ensures SeeAll([line] + rest) == [See(line)] + SeeAll(rest)
  {
    assert ([line] + rest)[1..] == rest;
  }

  function AddFlags(entries: map<string, Yaml>, flags: seq<(string, bool)>): map<string, Yaml>
    decreases |flags|
  {
    if flags == [] then entries else AddFlags(entries[flags[0].0 := Bool(flags[0].1)], flags[1..])
  }

  function WithFlag(b: Block, key: string, flag: bool): Block {
    b.(entries := b.entries[key := Bool(flag)], isMap := true, count := b.count + 1)
  }

  predicate FlagKeys(flags: seq<(string, bool)>) {
    forall i :: 0 <= i < |flags| ==> Key(flags[i].0) && flags[i].0[0] != '-'
  }

  predicate AtMargin(xs: seq<Seen>) {
    xs != [] && !xs[0].blank && xs[0].indent == 0
  }

  lemma {:induction false} SeenTogether(a: seq<string>, b: seq<string>)
    ensures SeeAll(a + b) == SeeAll(a) + SeeAll(b)
  {
    if a == [] {
      assert a + b == b;
    } else {
      assert (a + b)[1..] == a[1..] + b;
      SeenTogether(a[1..], b);
    }
  }

  // Indented flags are read as a map, up to the next line at the margin.
  lemma {:induction false} FlagsRead(flags: seq<(string, bool)>, more: seq<Seen>, b: Block)
    requires AtMargin(more)
    ensures ReadBlock(FlagLooks(flags) + more, 0, b)
         == b.(entries := AddFlags(b.entries, flags), isMap := b.isMap || flags != [], count := b.count + |flags|)
    ensures |FlagLooks(flags)| == |flags|
    decreases |flags|
  {
    if flags == [] {
      assert FlagLooks(flags) + more == more;
    } else {
      var first, rest := FlagLook(flags[0].0, flags[0].1), FlagLooks(flags[1..]) + more;
      assert FlagLooks(flags) + more == [first] + rest && ([first] + rest)[1..] == rest;
      FlagsRead(flags[1..], more, WithFlag(b, flags[0].0, flags[0].1));
    }
  }

  lemma TakesBlock(key: string, flags: seq<(string, bool)>, more: seq<Seen>, root: map<string, Yaml>)
    requires Key(key) && flags != [] && FlagKeys(flags) && AtMargin(more)
    ensures ParseSeen(SeeAll(FlagBlock(key, flags)) + more, root)
         == ParseSeen(more, root[key := Map(AddFlags(map[], flags))])
  {
    hide See;
    var opener, below := See(key + ":"), FlagLooks(flags) + more;
    OpenerSeen(key);
    FlagsRead(flags, more, NO_BLOCK);
    FlagsSeen(flags);
    SeeFirst(key + ":", FlagLines(flags));
    assert SeeAll(FlagBlock(key, flags)) + more == [opener] + below;
    OpenerTakes(opener, key, below, |flags|, more, root, AddFlags(map[], flags));
  }

  lemma OpenerTakes(x: Seen, key: string, below: seq<Seen>, n: nat, more: seq<Seen>, root: map<string, Yaml>,
                    entries: map<string, Yaml>)
    requires x.head == Some(Opens(key)) && x.indent == 0 && n <= |below| && below[n..] == more
    requires ReadBlock(below, 0, NO_BLOCK) == Block([], entries, false, true, n)
    ensures ParseSeen([x] + below, root) == ParseSeen(more, root[key := Map(entries)])
  {
    var xs := [x] + below;
    assert xs[1..] == below && xs[1 + n..] == more;
  }

  lemma PolicyKeys(p: Policy)
    ensures FlagKeys(PolicyFlags(p))
  {
    assert Key("mayReadProjectMemory");
    assert Key("mayWriteProjectMemory");
    assert Key("mayReadUserMemory");
    assert Key("mayWriteUserMemory");
  }

  // ---- The values -------------------------------------------------------------

  lemma TrimShortens(s: string)
    ensures |Trim(s)| <= |s|
    ensures Trimmed(Trim(s))
  {
    TrimEnds(s);
    TrimEnds(TrimLeft(s));
  }

  lemma AnyFieldRead(key: string, v: string)
    requires Key(key)
    ensures LineEntry(Field(key, v)) == if OneLine(TrimLeft(v)) then Some(Entry(0, key, Trim(v))) else None
  {
    var after := ": " + v;
    LineStarts(key, v);
    FieldMeasured("", key, v);
    assert "" + Field(key, v) == Field(key, v);
    assert TrimLeft(after) == after && after[1..] == " " + v;
    TrimLeftDrops(" ", v);
  }

  // A printed text is read back as that text exactly when it is a plain scalar.
  lemma PlainExactly(key: string, v: string)
    requires Key(key)
    ensures PlainScalar(v) <==>
              var entry := LineEntry(Field(key, v));
              entry.Some? && !OpensBlock(entry.value.rest) && Inline(entry.value.rest) == Str(v)
  {
    AnyFieldRead(key, v);
    TrimShortens(v);
    TrimmedStays(v);
    TrimRightKeeps(TrimLeft(v));
    if OneLine(TrimLeft(v)) && !OpensBlock(Trim(v)) {
      CoercedToItself(Trim(v), v);
    }
  }

  lemma {:induction false} TrimRightKeeps(s: string)
    ensures forall c :: c in TrimRight(s) ==> c in s
    decreases |s|
  {
    if s != "" {
      TrimRightKeeps(s[..|s| - 1]);
    }
  }

  lemma {:induction false} DigitsLead(s: string)
    requires AllDigits(s)
    ensures LeadingDigits(s) == |s|
  {
    if s != "" {
      assert s[0] in s;
      forall c | c in s[1..]
        ensures IsDigit(c)
      {
        assert c in s;
      }
      DigitsLead(s[1..]);
    }
  }

  lemma DecimalHead(n: nat)
    ensures Decimal(n) != "" && IsDigit(Decimal(n)[0]) && IsDigit(Decimal(n)[|Decimal(n)| - 1])
  {
    assert Decimal(n)[0] in Decimal(n) && Decimal(n)[|Decimal(n)| - 1] in Decimal(n);
  }

  lemma IntegerShape(n: int)
    ensures var s := Integer(n);
            && s != "" && (IsDigit(s[0]) || s[0] == '-') && IsDigit(s[|s| - 1])
            && IsInteger(s) && ToInteger(s) == n
  {
    var size := if n < 0 then -n else n;
    DecimalHead(size);
    DecimalRoundTrip(size);
    if n < 0 {
      assert Integer(n)[1..] == Decimal(size);
      assert Integer(n)[|Integer(n)| - 1] == Decimal(size)[|Decimal(size)| - 1];
    }
  }

  lemma {:induction false} DigitsAreOneLine(s: string)
    requires AllDigits(s)
    ensures OneLine(s)
  {
    forall c | c in s
      ensures !Regex.LineBreak(c)
    {
      assert IsDigit(c);
    }
  }

  lemma IntegerReadBack(n: int)
    ensures var s := Integer(n);
            OneLine(s) && Trimmed(s) && !OpensBlock(s) && Inline(s) == Num(n)
  {
    var s := Integer(n);
    IntegerShape(n);
    DigitsAreOneLine(Unsigned(s));
    assert n < 0 ==> s == "-" + Unsigned(s);
  }

  lemma IntegerParsed(n: int)
    ensures ParseInt(Integer(n)) == Some(n)
  {
    var s := Integer(n);
    IntegerShape(n);
    assert TrimLeft(s) == s;
    var u := if s[0] == '-' then s[1..] else s;
    assert u == Decimal(if n < 0 then -n else n);
    DigitsLead(u);
    DecimalRoundTrip(if n < 0 then -n else n);
    assert u[..|u|] == u;
  }

  // An item that a list gives back: one trimmed line with no comma and no quote at either end.
  predicate PlainItem(item: string) {
    && OneLine(item) && Trimmed(item) && ',' !in item
    && (item == "" || (!IsQuote(item[0]) && !IsQuote(item[|item| - 1])))
  }

  function Spaced(items: seq<string>): seq<string> {
    seq(|items|, i requires 0 <= i < |items| => " " + items[i])
  }

  lemma {:induction false} ListingSplit(items: seq<string>)
    requires items != [] && forall i :: 0 <= i < |items| ==> ',' !in items[i]
    ensures Split(Join(items, ", "), ',') == [items[0]] + Spaced(items[1..])
    decreases |items|
  {
    if |items| == 1 {
      SplitAtFirst(items[0], "", ',');
    } else {
      var rest := [" " + items[1]] + items[2..];
      SpaceMoves(items[1..]);
      assert [" " + items[1..][0]] + items[1..][1..] == rest;
      SplitAtFirst(items[0], Join(rest, ", "), ',');
      assert Join(items, ", ") == items[0] + [','] + Join(rest, ", ");
      ListingSplit(rest);
      assert rest[1..] == items[2..];
      assert Spaced(items[1..]) == [" " + items[1]] + Spaced(items[2..]);
    }
  }

  lemma SpaceMoves(items: seq<string>)
    requires items != []
    ensures " " + Join(items, ", ") == Join([" " + items[0]] + items[1..], ", ")
  {
    var moved := [" " + items[0]] + items[1..];
    assert moved[1..] == items[1..];
  }

  function Strs(items: seq<string>): seq<Yaml> {
    seq(|items|, i requires 0 <= i < |items| => Str(items[i]))
  }

  lemma ItemTidied(item: string)
    requires PlainItem(item)
    ensures Unquote(Trim(item)) == item && Unquote(Trim(" " + item)) == item
  {
    TrimmedStays(item);
    TrimLeftDrops(" ", item);
  }

  lemma ListingReadBack(items: seq<string>)
    requires items != [] && forall i :: 0 <= i < |items| ==> PlainItem(items[i])
    ensures Inline(Listing(items)) == Items(Strs(items))
  {
    var joined := Join(items, ", ");
    var text := Listing(items);
    assert text[0] == '[' && text[|text| - 1] == ']' && text[1..|text| - 1] == joined;
    ListingSplit(items);
    var parts := [items[0]] + Spaced(items[1..]);
    forall i | 0 <= i < |items|
      ensures Unquote(Trim(parts[i])) == items[i]
    {
      ItemTidied(items[i]);
    }
    assert Tidied(parts) == Strs(items);
  }

  lemma {:induction false} JoinIsOneLine(items: seq<string>)
    requires forall i :: 0 <= i < |items| ==> OneLine(items[i])
    ensures OneLine(Join(items, ", "))
  {
    if |items| > 1 {
      JoinIsOneLine(items[1..]);
    }
  }

  lemma ListingIsALine(items: seq<string>)
    requires forall i :: 0 <= i < |items| ==> PlainItem(items[i])
    ensures var text := Listing(items); OneLine(text) && Trimmed(text) && !OpensBlock(text)
  {
    JoinIsOneLine(items);
    var text := Listing(items);
    assert text[0] == '[' && text[|text| - 1] == ']';
  }

  lemma WordsArePlain()
    ensures forall w :: w in KINDS || w in SCOPES ==> PlainScalar(w)
  {
    forall w | w in KINDS || w in SCOPES
      ensures PlainScalar(w)
    {
      WordIsPlain(w);
    }
  }

  lemma WordIsPlain(w: string)
    requires |w| >= 4 && 'a' <= w[0] <= 'z' && 'a' <= w[|w| - 1] <= 'z' && w != "true" && w != "false" && w != "null"
    requires forall c :: c in w ==> 'a' <= c <= 'z' || c == '-'
    ensures PlainScalar(w)
  {
    assert w[0] in w && !IsDigit(w[0]);
    assert LeadingDigits(w) == 0;
  }

  // ---- The frontmatter as a whole ---------------------------------------------

  predicate PlainItems(items: seq<string>) {
    forall i :: 0 <= i < |items| ==> PlainItem(items[i])
  }

  // The skills that survive being written down.
  predicate Writable(s: Skill) {
    && PlainScalar(s.name) && PlainScalar(s.description) && s.kind in KINDS && s.scope in SCOPES
    && (s.whenToUse == "" || PlainScalar(s.whenToUse))
    && PlainItems(s.arguments) && PlainItems(s.allowedTools)
    && PlainScalar(s.createdBy) && PlainScalar(s.createdAt) && PlainScalar(s.updatedAt)
    && Trimmed(s.body)
  }

  // What a field's printed text is read as.
  function ValueFor(s: Skill, f: FieldName): Yaml {
    match f
    case AutoInvocation => Bool(s.manualOnly)
    case Arguments => Items(Strs(s.arguments))
    case AllowedTools => Items(Strs(s.allowedTools))
    case MemoryPolicy => Map(AddFlags(map[], PolicyFlags(s.policy)))
    case Version => Num(s.version)
    case _ => Str(TextFor(s, f))
  }

  lemma TextReadBack(s: Skill, f: FieldName)
    requires Writable(s) && !f.MemoryPolicy? && Present(s, f)
    ensures var v := TextFor(s, f);
            OneLine(v) && Trimmed(v) && !OpensBlock(v) && Inline(v) == ValueFor(s, f)
  {
    if f.AutoInvocation? {
      FlagReadBack(s.manualOnly);
    } else if f.Arguments? {
      ListingIsALine(s.arguments);
      ListingReadBack(s.arguments);
    } else if f.AllowedTools? {
      ListingIsALine(s.allowedTools);
      ListingReadBack(s.allowedTools);
    } else if f.Version? {
      IntegerReadBack(s.version);
    } else {
      WordsArePlain();
      assert PlainScalar(TextFor(s, f));
      CoercedToItself(TextFor(s, f), TextFor(s, f));
    }
  }

  lemma KeysAreKeys(f: FieldName)
    ensures Key(KeyOf(f))
  {
    if f.Name? || f.Description? || f.Kind? || f.Scope? || f.WhenToUse? || f.AutoInvocation? {
      FirstKeys();
    } else {
      LastKeys();
    }
  }

  lemma FirstKeys()
    ensures Key(KeyOf(Name)) && Key(KeyOf(Description)) && Key(KeyOf(Kind))
    ensures Key(KeyOf(Scope)) && Key(KeyOf(WhenToUse)) && Key(KeyOf(AutoInvocation))
  {
  }

  lemma LastKeys()
    ensures Key(KeyOf(Arguments)) && Key(KeyOf(AllowedTools)) && Key(KeyOf(MemoryPolicy))
    ensures Key(KeyOf(Version)) && Key(KeyOf(CreatedBy)) && Key(KeyOf(CreatedAt)) && Key(KeyOf(UpdatedAt))
  {
  }

  function WithField(s: Skill, f: FieldName, root: map<string, Yaml>): map<string, Yaml> {
    if Present(s, f) then root[KeyOf(f) := ValueFor(s, f)] else root
  }

  lemma FieldTaken(s: Skill, f: FieldName, more: seq<Seen>, root: map<string, Yaml>)
    requires Writable(s) && (f.MemoryPolicy? ==> AtMargin(more))
    ensures ParseSeen(SeeAll(LinesFor(s, f)) + more, root) == ParseSeen(more, WithField(s, f, root))
  {
    hide See, ParseSeen;
    KeysAreKeys(f);
    if f.MemoryPolicy? {
      PolicyKeys(s.policy);
      TakesBlock(KeyOf(f), PolicyFlags(s.policy), more, root);
      hide *;
    } else if Present(s, f) {
      var x := See(Field(KeyOf(f), TextFor(s, f)));
      TextReadBack(s, f);
      FieldSeen(KeyOf(f), TextFor(s, f));
      TakesHead(x, KeyOf(f), ValueFor(s, f), more, root);
      SeeOne(Field(KeyOf(f), TextFor(s, f)));
    } else {
      assert SeeAll(LinesFor(s, f)) + more == more;
    }
  }

  function FrontFields(s: Skill, k: nat): map<string, Yaml>
    requires k <= |ORDER|
  {
    if k == 0 then map[] else WithField(s, ORDER[k - 1], FrontFields(s, k - 1))
  }

  lemma FrontSeenGrows(s: Skill, k: nat, f: FieldName)
    requires k < |ORDER| && ORDER[k] == f
    ensures SeeAll(FrontLines(s, k + 1)) == SeeAll(FrontLines(s, k)) + SeeAll(LinesFor(s, f))
  {
    PrintNext(s, k, f);
    SeenTogether(FrontLines(s, k), LinesFor(s, f));
  }

  lemma FrontFieldsGrow(s: Skill, k: nat, f: FieldName)
    requires k < |ORDER| && ORDER[k] == f
    ensures FrontFields(s, k + 1) == WithField(s, f, FrontFields(s, k))
    ensures (f.MemoryPolicy? <==> k == 8) && (f.Version? <==> k == 9)
  {
  }

  lemma ParseRegrouped(a: seq<Seen>, b: seq<Seen>, c: seq<Seen>, root: map<string, Yaml>)
    ensures ParseSeen(a + b + c, root) == ParseSeen(a + (b + c), root)
  {
    assert a + b + c == a + (b + c);
  }

  lemma {:induction false} FrontRead(s: Skill, k: nat, more: seq<Seen>)
    requires Writable(s) && k <= |ORDER| && (k == 9 ==> AtMargin(more))
    ensures ParseSeen(SeeAll(FrontLines(s, k)) + more, map[]) == ParseSeen(more, FrontFields(s, k))
  {
    if k == 0 {
      assert SeeAll(FrontLines(s, k)) + more == more;
    } else {
      var f := ORDER[k - 1];
      FrontSeenGrows(s, k - 1, f);
      FrontFieldsGrow(s, k - 1, f);
      if f.Version? {
        FieldAtMargin(s, more);
      }
      FrontRead(s, k - 1, SeeAll(LinesFor(s, f)) + more);
      FieldTaken(s, f, more, FrontFields(s, k - 1));
      ParseRegrouped(SeeAll(FrontLines(s, k - 1)), SeeAll(LinesFor(s, f)), more, map[]);
    }
  }

  lemma SeeOne(line: string)
    ensures SeeAll([line]) == [See(line)]
  {
    assert [line][1..] == [];
  }

  lemma FieldAtMargin(s: Skill, more: seq<Seen>)
    ensures AtMargin(SeeAll(LinesFor(s, Version)) + more)
  {
    hide See;
    var line := Field(KeyOf(Version), Integer(s.version));
    IntegerReadBack(s.version);
    KeysAreKeys(Version);
    FieldSeen(KeyOf(Version), Integer(s.version));
    SeeOne(line);
    MarginFirst(See(line), more);
    assert LinesFor(s, Version) == [line];
  }

  lemma MarginFirst(x: Seen, more: seq<Seen>)
    requires !x.blank && x.indent == 0
    ensures AtMargin([x] + more)
  {
  }

  // Length, first and last character tell the keys apart.
  function FieldWith(length: nat, first: char, last: char): FieldName {
    if length == 4 then if first == 'n' then Name else Kind
    else if length == 11 then Description
    else if length == 5 then Scope
    else if length == 21 then AutoInvocation
    else if length == 12 then if first == 'a' then AllowedTools else MemoryPolicy
    else if length == 7 then Version
    else if first == 'w' then WhenToUse
    else if first == 'a' then Arguments
    else if first == 'u' then UpdatedAt
    else if last == 'y' then CreatedBy
    else CreatedAt
  }

  lemma KeyTellsField(f: FieldName)
    ensures var key := KeyOf(f); key != "" && FieldWith(|key|, key[0], key[|key| - 1]) == f && |key| != 22
  {
  }

  lemma FieldSet(s: Skill, g: FieldName, f: FieldName, root: map<string, Yaml>)
    ensures Get(WithField(s, g, root), KeyOf(f)) == if g == f && Present(s, f) then ValueFor(s, f) else Get(root, KeyOf(f))
  {
    KeyTellsField(f);
    KeyTellsField(g);
  }

  lemma {:induction false} FieldFound(s: Skill, k: nat, f: FieldName)
    requires k <= |ORDER|
    ensures Get(FrontFields(s, k), KeyOf(f)) == if f in ORDER[..k] && Present(s, f) then ValueFor(s, f) else Undefined
  {
    if k > 0 {
      var g := ORDER[k - 1];
      FrontFieldsGrow(s, k - 1, g);
      FieldSet(s, g, f, FrontFields(s, k - 1));
      FieldFound(s, k - 1, f);
      assert ORDER[..k] == ORDER[..k - 1] + [g];
    }
  }

  lemma FieldsFound(s: Skill, f: FieldName)
    ensures Get(FrontFields(s, |ORDER|), KeyOf(f)) == if Present(s, f) then ValueFor(s, f) else Undefined
  {
    FieldFound(s, |ORDER|, f);
    assert ORDER[..|ORDER|] == ORDER;
    EveryFieldIsPrinted(f);
  }

  lemma EveryFieldIsPrinted(f: FieldName)
    ensures f in ORDER
  {
    var i := match f
      case Name => 0 case Description => 1 case Kind => 2 case Scope => 3 case WhenToUse => 4
      case AutoInvocation => 5 case Arguments => 6 case AllowedTools => 7 case MemoryPolicy => 8
      case Version => 9 case CreatedBy => 10 case CreatedAt => 11 case UpdatedAt => 12;
    assert ORDER[i] == f;
  }

  lemma {:induction false} NoOtherKey(s: Skill, k: nat, key: string)
    requires k <= |ORDER| && |key| == 22
    ensures key !in FrontFields(s, k)
  {
    if k > 0 {
      KeyTellsField(ORDER[k - 1]);
      NoOtherKey(s, k - 1, key);
    }
  }

  lemma {:induction false} FlagsKept(entries: map<string, Yaml>, flags: seq<(string, bool)>, key: string)
    requires forall i :: 0 <= i < |flags| ==> flags[i].0 != key
    ensures Get(AddFlags(entries, flags), key) == Get(entries, key)
    decreases |flags|
  {
    if flags != [] {
      FlagsKept(entries[flags[0].0 := Bool(flags[0].1)], flags[1..], key);
    }
  }

  lemma {:induction false} FlagFound(entries: map<string, Yaml>, flags: seq<(string, bool)>, i: nat)
    requires i < |flags| && forall j :: i < j < |flags| ==> flags[j].0 != flags[i].0
    ensures Get(AddFlags(entries, flags), flags[i].0) == Bool(flags[i].1)
    decreases i
  {
    var next := entries[flags[0].0 := Bool(flags[0].1)];
    if i == 0 {
      FlagsKept(next, flags[1..], flags[0].0);
    } else {
      FlagFound(next, flags[1..], i - 1);
    }
  }

  lemma PolicyRead(p: Policy)
    ensures ReadPolicy(Map(AddFlags(map[], PolicyFlags(p)))) == p
  {
    var flags := PolicyFlags(p);
    assert |flags[0].0| == 20 && |flags[1].0| == 21 && |flags[2].0| == 17 && |flags[3].0| == 18;
    FlagFound(map[], flags, 0);
    FlagFound(map[], flags, 1);
    FlagFound(map[], flags, 2);
    FlagFound(map[], flags, 3);
  }

  // The root holds every present field, and no other flag for automatic invocation.
  ghost predicate Carries(fm: map<string, Yaml>, s: Skill) {
    && (forall f: FieldName :: Get(fm, KeyOf(f)) == if Present(s, f) then ValueFor(s, f) else Undefined)
    && Get(fm, "disableModelInvocation") == Undefined
  }

  lemma FrontCarries(s: Skill)
    ensures Carries(FrontFields(s, |ORDER|), s)
  {
    forall f: FieldName
      ensures Get(FrontFields(s, |ORDER|), KeyOf(f)) == if Present(s, f) then ValueFor(s, f) else Undefined
    {
      FieldsFound(s, f);
    }
    NoOtherKey(s, |ORDER|, "disableModelInvocation");
  }

  lemma ListRead(y: Yaml, items: seq<string>)
    requires y == if items == [] then Undefined else Items(Strs(items))
    ensures StringList(y) == items
  {
    if items != [] {
      assert forall i :: 0 <= i < |items| ==> Text(Strs(items)[i]) == items[i];
    }
  }

  lemma CarriedIsValid(fm: map<string, Yaml>, s: Skill)
    requires Writable(s) && Carries(fm, s)
    ensures ValidFields(fm)
  {
    assert Get(fm, KeyOf(Name)) == Str(s.name) && Get(fm, KeyOf(Description)) == Str(s.description);
    assert Get(fm, KeyOf(Kind)) == Str(s.kind) && Get(fm, KeyOf(Scope)) == Str(s.scope);
  }

  lemma TextsRead(fm: map<string, Yaml>, s: Skill)
    requires Carries(fm, s)
    ensures Get(fm, KeyOf(Name)) == Str(s.name) && Get(fm, KeyOf(Description)) == Str(s.description)
    ensures TextOr(Get(fm, KeyOf(Kind)), "prompt") == s.kind && TextOr(Get(fm, KeyOf(WhenToUse)), "") == s.whenToUse
  {
    assert Get(fm, KeyOf(Kind)) == Str(s.kind);
  }

  lemma ProvenanceRead(fm: map<string, Yaml>, s: Skill, now: string)
    requires Carries(fm, s)
    ensures TextOr(Get(fm, KeyOf(CreatedBy)), "reaper") == s.createdBy
    ensures TextOr(Get(fm, KeyOf(CreatedAt)), now) == s.createdAt
    ensures TextOr(Get(fm, KeyOf(UpdatedAt)), now) == s.updatedAt
  {
  }

  lemma VersionRead(fm: map<string, Yaml>, s: Skill)
    requires Carries(fm, s)
    ensures ParseInt(TextOr(Get(fm, KeyOf(Version)), "1")) == Some(s.version)
  {
    assert Get(fm, KeyOf(Version)) == Num(s.version);
    IntegerParsed(s.version);
  }

  lemma OthersRead(fm: map<string, Yaml>, s: Skill)
    requires Carries(fm, s)
    ensures Get(fm, KeyOf(AutoInvocation)) == Bool(s.manualOnly)
    ensures StringList(Get(fm, KeyOf(Arguments))) == s.arguments
    ensures StringList(Get(fm, KeyOf(AllowedTools))) == s.allowedTools
    ensures ReadPolicy(Get(fm, KeyOf(MemoryPolicy))) == s.policy
  {
    ListRead(Get(fm, KeyOf(Arguments)), s.arguments);
    ListRead(Get(fm, KeyOf(AllowedTools)), s.allowedTools);
    PolicyRead(s.policy);
    assert Get(fm, KeyOf(MemoryPolicy)) == Map(AddFlags(map[], PolicyFlags(s.policy)));
  }

  lemma FieldsRead(fm: map<string, Yaml>, s: Skill, now: string)
    requires Writable(s) && Carries(fm, s)
    ensures ValidFields(fm) && ReadFields(fm, s.body, s.scope, now) == Some(s)
  {
    CarriedIsValid(fm, s);
    TextsRead(fm, s);
    ProvenanceRead(fm, s, now);
    VersionRead(fm, s);
    OthersRead(fm, s);
  }

  // ---- The frame around it ----------------------------------------------------

  predicate NoBreak(s: string) {
    '\n' !in s && '\r' !in s
  }

  predicate NoBreaks(lines: seq<string>) {
    forall i :: 0 <= i < |lines| ==> NoBreak(lines[i])
  }

  lemma {:induction false} NothingToChop(lines: seq<string>)
    requires NoBreaks(lines)
    ensures Chopped(lines) == lines
  {
    if |lines| > 1 {
      NotChopped(lines[0]);
      NothingToChop(lines[1..]);
    }
  }

  lemma NotChopped(line: string)
    requires NoBreak(line)
    ensures !EndsWith(line, "\r")
  {
    if line != "" {
      assert line[|line| - 1] in line;
      assert line[|line| - 1..] == [line[|line| - 1]];
    }
  }

  lemma LinesReadBack(lines: seq<string>)
    requires lines != [] && NoBreaks(lines)
    ensures Lines(Join(lines, "\n")) == lines
  {
    JoinedSplits(lines, '\n');
    NothingToChop(lines);
  }

  lemma {:induction false} LineIsPassed(line: string, rest: string)
    requires NoBreak(line)
    ensures FindClose(line + rest)
         == if FindClose(rest).None? then None else Some(|line| + FindClose(rest).value)
  {
    if line == "" {
      assert line + rest == rest;
    } else {
      assert line[0] in line && (line + rest)[1..] == line[1..] + rest;
      StartsWithAt(line + rest, "\n---", 0);
      assert NoBreak(line[1..]);
      LineIsPassed(line[1..], rest);
    }
  }

  predicate NoDashes(lines: seq<string>) {
    forall i :: 0 <= i < |lines| ==> !StartsWith(lines[i], "---")
  }

  // A line break before a line that does not begin with three dashes closes nothing.
  lemma BreakIsPassed(line: string, rest: string)
    requires NoBreak(line) && !StartsWith(line, "---") && rest != "" && rest[0] == '\n'
    ensures !StartsWith("\n" + line + rest, "\n---")
  {
    var text := line + rest;
    assert "\n" + line + rest == "\n" + text;
    StartsWithAfter("\n", text, "---");
    if |line| < 3 {
      assert text[|line|] == '\n';
      StartsWithAt(text, "---", |line|);
    } else {
      assert text[..3] == line[..3];
    }
  }

  lemma CloseAfterBreak(text: string)
    requires !StartsWith("\n" + text, "\n---") && FindClose(text).Some?
    ensures FindClose("\n" + text) == Some(1 + FindClose(text).value)
  {
    assert ("\n" + text)[1..] == text;
  }

  lemma ClosePassesLine(line: string, more: string, close: string)
    requires NoBreak(line) && !StartsWith("\n" + (more + close), "\n---")
    requires FindClose(more + close) == Some(|more|)
    ensures FindClose(line + ("\n" + (more + close))) == Some(|line| + 1 + |more|)
  {
    hide FindClose, StartsWith, NoBreak;
    CloseAfterBreak(more + close);
    LineIsPassed(line, "\n" + (more + close));
  }

  lemma {:induction false} CloseFound(lines: seq<string>, body: string)
    requires lines != [] && NoBreaks(lines) && NoDashes(lines)
    ensures FindClose(Join(lines, "\n") + ("\n---" + body)) == Some(|Join(lines, "\n")|)
  {
    var close := "\n---" + body;
    if |lines| == 1 {
      LineIsPassed(lines[0], close);
      StartsWithAppended("\n---", body);
    } else {
      var more := Join(lines[1..], "\n");
      CloseFound(lines[1..], body);
      BreakBeforeRest(lines[1..], close);
      ClosePassesLine(lines[0], more, close);
      assert Join(lines, "\n") + close == lines[0] + ("\n" + (more + close));
    }
  }

  lemma BreakBeforeRest(lines: seq<string>, close: string)
    requires lines != [] && NoBreaks(lines) && NoDashes(lines) && close != "" && close[0] == '\n'
    ensures !StartsWith("\n" + (Join(lines, "\n") + close), "\n---")
  {
    hide StartsWith;
    var rest := if |lines| == 1 then close else "\n" + Join(lines[1..], "\n") + close;
    assert Join(lines, "\n") + close == lines[0] + rest;
    BreakIsPassed(lines[0], rest);
    assert "\n" + lines[0] + rest == "\n" + (lines[0] + rest);
  }

  // ---- Writing and reading a skill --------------------------------------------

  lemma {:induction false} JoinOfAppend(a: seq<string>, b: seq<string>)
    requires a != [] && b != []
    ensures Join(a + b, "\n") == Join(a, "\n") + "\n" + Join(b, "\n")
  {
    assert (a + b)[1..] == a[1..] + b;
    if |a| > 1 {
      JoinOfAppend(a[1..], b);
    }
  }

  lemma PrintedInParts(lines: seq<string>, body: string)
    requires lines != []
    ensures Join(["---"] + lines + ["---", "", body], "\n")
         == "---\n" + (Join(lines, "\n") + ("\n---" + ("\n\n" + body)))
  {
    var end := ["---", "", body];
    JoinOfAppend(["---"], lines + end);
    JoinOfAppend(lines, end);
    assert ["---"] + lines + end == ["---"] + (lines + end);
    assert end[1..] == ["", body] && ["", body][1..] == [body];
    assert Join(["", body], "\n") == "" + "\n" + Join([body], "\n") == "\n" + body;
    assert Join(end, "\n") == "---" + "\n" + ("\n" + body);
    assert "\n" + Join(end, "\n") == "\n---" + ("\n\n" + body);
  }

  lemma BodyReadBack(body: string)
    requires Trimmed(body)
    ensures Trim("\n\n" + body) == body
  {
    TrimLeftDrops("\n\n", body);
    TrimmedStays(body);
  }

  lemma FileReadBack(lines: seq<string>, body: string)
    requires lines != [] && NoBreaks(lines) && NoDashes(lines) && Trimmed(body)
    ensures SplitFile(Join(["---"] + lines + ["---", "", body], "\n")) == Some((Join(lines, "\n"), body))
  {
    var yaml, end := Join(lines, "\n"), "\n\n" + body;
    var rest := yaml + ("\n---" + end);
    PrintedInParts(lines, body);
    StartsWithAppended("---\n", rest);
    CloseFound(lines, end);
    assert rest[..|yaml|] == yaml;
    assert rest[|yaml| + 4..] == end;
    JoinKeepsBreaks(lines);
    BodyReadBack(body);
  }

  lemma {:induction false} JoinKeepsBreaks(lines: seq<string>)
    requires lines != [] && NoBreaks(lines)
    ensures !EndsWith(Join(lines, "\n"), "\r")
  {
    NotChopped(lines[0]);
    if |lines| > 1 {
      var more := Join(lines[1..], "\n");
      JoinKeepsBreaks(lines[1..]);
      var whole := lines[0] + "\n" + more;
      assert Join(lines, "\n") == whole;
      if more == "" {
        assert whole[|whole| - 1..] == "\n";
      } else {
        assert whole[|whole| - 1..] == more[|more| - 1..];
      }
    }
  }

  lemma FieldIsALine(key: string, v: string)
    requires Key(key) && key[0] != '-' && OneLine(v)
    ensures NoBreak(Field(key, v)) && !StartsWith(Field(key, v), "---")
    ensures NoBreak("  " + Field(key, v)) && !StartsWith("  " + Field(key, v), "---")
    ensures NoBreak(key + ":") && !StartsWith(key + ":", "---")
  {
    forall c | c in key
      ensures c != '\n' && c != '\r'
    {
      KeyIsNoSpace(c);
    }
    StartsWithAt(Field(key, v), "---", 0);
    StartsWithAt("  " + Field(key, v), "---", 0);
    StartsWithAt(key + ":", "---", 0);
  }

  lemma {:induction false} FlagLinesAreLines(flags: seq<(string, bool)>)
    requires FlagKeys(flags)
    ensures NoBreaks(FlagLines(flags)) && NoDashes(FlagLines(flags))
    decreases |flags|
  {
    if flags != [] {
      FlagReadBack(flags[0].1);
      FieldIsALine(flags[0].0, Flag(flags[0].1));
      FlagLinesAreLines(flags[1..]);
    }
  }

  predicate ProperLines(lines: seq<string>) {
    NoBreaks(lines) && NoDashes(lines)
  }

  lemma AppendProper(whole: seq<string>, a: seq<string>, b: seq<string>)
    requires whole == a + b && ProperLines(a) && ProperLines(b)
    ensures ProperLines(whole)
  {
  }

  lemma PolicyIsProper(p: Policy)
    ensures ProperLines(FlagBlock(KeyOf(MemoryPolicy), PolicyFlags(p)))
  {
    KeysAreKeys(MemoryPolicy);
    PolicyKeys(p);
    FlagLinesAreLines(PolicyFlags(p));
    FieldIsALine(KeyOf(MemoryPolicy), "");
    AppendProper(FlagBlock(KeyOf(MemoryPolicy), PolicyFlags(p)), [KeyOf(MemoryPolicy) + ":"], FlagLines(PolicyFlags(p)));
  }

  lemma FieldLinesAreLines(s: Skill, f: FieldName)
    requires Writable(s)
    ensures ProperLines(LinesFor(s, f))
  {
    if f.MemoryPolicy? {
      PolicyIsProper(s.policy);
    } else if Present(s, f) {
      KeysAreKeys(f);
      KeyStarts(f);
      TextReadBack(s, f);
      ScalarIsProper(KeyOf(f), TextFor(s, f));
    } else {
      assert LinesFor(s, f) == [];
    }
  }

  lemma ScalarIsProper(key: string, v: string)
    requires Key(key) && key[0] != '-' && OneLine(v)
    ensures ProperLines([Field(key, v)])
  {
    FieldIsALine(key, v);
  }

  lemma KeyStarts(f: FieldName)
    ensures KeyOf(f) != "" && KeyOf(f)[0] != '-'
  {
  }

  lemma {:induction false} FrontLinesAreLines(s: Skill, k: nat)
    requires Writable(s) && k <= |ORDER|
    ensures ProperLines(FrontLines(s, k))
  {
    if k > 0 {
      var f := ORDER[k - 1];
      hide LinesFor, ProperLines;
      PrintNext(s, k - 1, f);
      FrontLinesAreLines(s, k - 1);
      FieldLinesAreLines(s, f);
      AppendProper(FrontLines(s, k), FrontLines(s, k - 1), LinesFor(s, f));
    }
  }

  lemma {:induction false} FrontNotEmpty(s: Skill, k: nat)
    requires 0 < k <= |ORDER|
    ensures FrontLines(s, k) != []
  {
    PrintNext(s, k - 1, ORDER[k - 1]);
    if k > 1 {
      FrontNotEmpty(s, k - 1);
    } else {
      assert LinesFor(s, Name) != [];
    }
  }

  // A writable skill comes back from its file as it was.
  lemma SkillRoundTrip(s: Skill, now: string)
    requires Writable(s)
    ensures ReadSkill(Printed(s), s.scope, now) == Some(s)
  {
    var lines := FrontLines(s, |ORDER|);
    FrontLinesAreLines(s, |ORDER|);
    FrontNotEmpty(s, |ORDER|);
    FileReadBack(lines, s.body);
    LinesReadBack(lines);
    FrontParsed(s);
    FrontCarries(s);
    FieldsRead(FrontFields(s, |ORDER|), s, now);
  }

  lemma FrontParsed(s: Skill)
    requires Writable(s)
    ensures ParseLines(FrontLines(s, |ORDER|)) == FrontFields(s, |ORDER|)
  {
    FrontRead(s, |ORDER|, []);
    assert SeeAll(FrontLines(s, |ORDER|)) + [] == SeeAll(FrontLines(s, |ORDER|));
  }
}
