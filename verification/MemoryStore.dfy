// The memory store: a list of records per scope in memory, and a file of one JSON line per
// record beside it (src/adaptive/persistent-memory-store.ts). Writes are taken to succeed.

module MemoryStore {
  import opened Wrappers
  import opened Strings

  datatype Scope = Project | User | Machine | Transient | Secret

  // `rest` stands for the fields no operation looks at, the times among them.
  datatype Record = Record(
    id: string, scope: Scope, content: string, tags: seq<string>, sensitive: bool, editable: bool, rest: string)

  // The JSON printer and parser, and the redactor of secrets.
  datatype Env = Env(encode: Record -> string, decode: string -> Option<Record>, redact: string -> string)

  // A record is printed on one line that reads back as it, and redacting twice does no
  // more than redacting once.
  ghost predicate Lawful(env: Env) {
    && (forall r :: env.decode(env.encode(r)) == Some(r))
    && (forall r :: '\n' !in env.encode(r) && Trim(env.encode(r)) != "")
    && (forall s :: env.redact(env.redact(s)) == env.redact(s))
  }

  // The scopes that have a file, in the order they are searched.
  const PERSISTENT: seq<Scope> := [Project, User, Machine]

  predicate Persistent(s: Scope) {
    s.Project? || s.User? || s.Machine?
  }

  datatype Store = Store(
    cache: map<Scope, seq<Record>>, files: map<Scope, string>, transient: map<string, Record>)

  predicate Shaped(m: Store) {
    forall s :: (s in m.cache <==> Persistent(s)) && (s in m.files <==> Persistent(s))
  }

  // ---- Files ------------------------------------------------------------------

  function Redacted(env: Env, r: Record): Record {
    if r.sensitive && r.scope != Secret then r.(content := env.redact(r.content)) else r
  }

  // Blank and malformed lines count for nothing.
  function LoadLine(env: Env, line: string): seq<Record> {
    if Trim(line) == "" || env.decode(line).None? then [] else [Redacted(env, env.decode(line).value)]
  }

  function LoadLines(env: Env, lines: seq<string>): seq<Record> {
    if lines == [] then []
    else LoadLines(env, lines[..|lines| - 1]) + LoadLine(env, lines[|lines| - 1])
  }

  function Load(env: Env, file: string): seq<Record> {
    LoadLines(env, Split(file, '\n'))
  }

  function Encoded(env: Env, records: seq<Record>): seq<string> {
    seq(|records|, i requires 0 <= i < |records| => env.encode(records[i]))
  }

  // What rewriting a file leaves in it: for no records, a single newline.
  function Rebuilt(env: Env, records: seq<Record>): string {
    Join(Encoded(env, records), "\n") + "\n"
  }

  // ---- The operations ---------------------------------------------------------

  function IndexOf(records: seq<Record>, id: string): (i: nat)
    ensures i <= |records|
    ensures i < |records| ==> records[i].id == id
    ensures forall j :: 0 <= j < i ==> records[j].id != id
  {
    if records == [] || records[0].id == id then 0 else 1 + IndexOf(records[1..], id)
  }

  // The scope whose list holds the id first, and the place in it.
  function Find(m: Store, id: string, scopes: seq<Scope>): (found: Option<(Scope, nat)>)
    requires Shaped(m) && forall s :: s in scopes ==> Persistent(s)
    ensures found.Some? ==> Persistent(found.value.0) && found.value.1 < |m.cache[found.value.0]|
  {
    if scopes == [] then None
    else
      var i := IndexOf(m.cache[scopes[0]], id);
      if i < |m.cache[scopes[0]]| then Some((scopes[0], i)) else Find(m, id, scopes[1..])
  }

  // The records without the one at place i.
  function Spliced(records: seq<Record>, i: nat): seq<Record>
    requires i < |records|
  {
    records[..i] + records[i + 1..]
  }

  function Kept(records: seq<Record>, tag: string): (kept: seq<Record>)
    ensures |kept| <= |records|
    ensures forall r :: r in kept <==> r in records && tag !in r.tags
  {
    if records == [] then []
    else
      var last := records[|records| - 1];
      Kept(records[..|records| - 1], tag) + if tag in last.tags then [] else [last]
  }

  function Remember(env: Env, m: Store, r: Record): Store
    requires Shaped(m)
  {
    if r.scope == Secret then m
    else
      var stored := Redacted(env, r);
      if r.scope == Transient then m.(transient := m.transient[r.id := stored])
      else m.(cache := m.cache[r.scope := m.cache[r.scope] + [stored]],
              files := m.files[r.scope := m.files[r.scope] + (env.encode(stored) + "\n")])
  }

  // What a caller may change about a record. `rest` is what the other fields come to.
  datatype Patch = Patch(
    id: Option<string>, scope: Option<Scope>, content: Option<string>, tags: Option<seq<string>>,
    sensitive: Option<bool>, editable: Option<bool>, rest: string)

  function Patched(env: Env, r: Record, p: Patch): Record {
    Redacted(env, Record(p.id.GetOr(r.id), p.scope.GetOr(r.scope), p.content.GetOr(r.content), p.tags.GetOr(r.tags),
                         p.sensitive.GetOr(r.sensitive), p.editable.GetOr(r.editable), p.rest))
  }

  // The file of the record's scope is rewritten, if it has one.
  function Rebuild(env: Env, m: Store, scope: Scope): Store
    requires Shaped(m)
  {
    if Persistent(scope) then m.(files := m.files[scope := Rebuilt(env, m.cache[scope])]) else m
  }

  function Update(env: Env, m: Store, id: string, p: Patch): Store
    requires Shaped(m)
  {
    var found := Find(m, id, PERSISTENT);
    if found.Some? then
      var (s, i) := found.value;
      var r := m.cache[s][i];
      if !r.editable then m
      else
        var changed := Patched(env, r, p);
        Rebuild(env, m.(cache := m.cache[s := m.cache[s][i := changed]]), changed.scope)
    else if id in m.transient && m.transient[id].editable then
      var changed := Patched(env, m.transient[id], p);
      Rebuild(env, m.(transient := m.transient[id := changed]), changed.scope)
    else m
  }

  function Forget(env: Env, m: Store, id: string): Store
    requires Shaped(m)
  {
    var found := Find(m, id, PERSISTENT);
    if found.Some? then
      var (s, i) := found.value;
      Rebuild(env, m.(cache := m.cache[s := Spliced(m.cache[s], i)]), s)
    else m.(transient := m.transient - {id})
  }

  function ForgetTagIn(env: Env, m: Store, s: Scope, tag: string): Store
    requires Shaped(m) && Persistent(s)
  {
    var kept := Kept(m.cache[s], tag);
    var n := m.(cache := m.cache[s := kept]);
    if |kept| != |m.cache[s]| then Rebuild(env, n, s) else n
  }

  function Tagged(transient: map<string, Record>, tag: string): set<string> {
    set id | id in transient && tag in transient[id].tags
  }

  // What the transient records with the tag are struck out under: the ids they carry, which
  // an update may have changed, and not the keys they are kept under.
  function Struck(transient: map<string, Record>, tag: string): set<string> {
    set key | key in Tagged(transient, tag) :: transient[key].id
  }

  function ForgetTagInEach(env: Env, m: Store, scopes: seq<Scope>, tag: string): (n: Store)
    requires Shaped(m) && forall s :: s in scopes ==> Persistent(s)
    ensures Shaped(n)
  {
    if scopes == [] then m
    else
      var last := |scopes| - 1;
      assert forall s :: s in scopes[..last] ==> s in scopes;
      ForgetTagIn(env, ForgetTagInEach(env, m, scopes[..last], tag), scopes[last], tag)
  }

  function ForgetTag(env: Env, m: Store, tag: string): Store
    requires Shaped(m)
  {
    var n := ForgetTagInEach(env, m, PERSISTENT, tag);
    n.(transient := n.transient - Struck(n.transient, tag))
  }

  function Listed(m: Store): nat
    requires Shaped(m)
  {
    |m.cache[Project]| + |m.cache[User]| + |m.cache[Machine]|
  }

  function Size(m: Store): nat
    requires Shaped(m)
  {
    Listed(m) + |m.transient|
  }

  // What forgetting a tag is answered with: the listed records that went, and the transient
  // ones that carried the tag.
  function ForgetCount(env: Env, m: Store, tag: string): nat
    requires Shaped(m) && Listed(ForgetTagInEach(env, m, PERSISTENT, tag)) <= Listed(m)
  {
    Listed(m) - Listed(ForgetTagInEach(env, m, PERSISTENT, tag)) + |Tagged(m.transient, tag)|
  }

  // ---- The store object -------------------------------------------------------

  class PersistentMemoryStore {
    const env: Env
    var cache: map<Scope, seq<Record>>
    var files: map<Scope, string>
    var transient: map<string, Record>

    function View(): Store
      reads this
    {
      Store(cache, files, transient)
    }

    constructor (env: Env, files: map<Scope, string>)
      requires forall s :: s in files <==> Persistent(s)
      ensures this.env == env && Shaped(View()) && this.files == files && transient == map[]
      ensures forall s :: Persistent(s) ==> cache[s] == Load(env, files[s])
    {
      this.env, this.files, transient := env, files, map[];
      cache := map[Project := [], User := [], Machine := []];
      new;
      LoadScope(Project);
      LoadScope(User);
      LoadScope(Machine);
    }

    method LoadScope(s: Scope)
      requires Shaped(View()) && Persistent(s) && cache[s] == []
      modifies this`cache
      ensures cache == old(cache)[s := Load(env, files[s])]
    {
      var records := LoadFile(files[s]);
      cache := cache[s := records];
    }

    method LoadFile(file: string) returns (records: seq<Record>)
      ensures records == Load(env, file)
    {
      hide LoadLine;
      var lines := Split(file, '\n');
      records := [];
      var i := 0;
      while i < |lines|
        invariant 0 <= i <= |lines|
        invariant records == LoadLines(env, lines[..i])
      {
        assert lines[..i + 1][..i] == lines[..i];
        var loaded := ParseLine(lines[i]);
        records := records + loaded;
        i := i + 1;
      }
      assert lines[..i] == lines;
    }

    // The body of the loading loop: at most one record.
    method ParseLine(line: string) returns (loaded: seq<Record>)
      ensures loaded == LoadLine(env, line)
    {
      if Trim(line) == "" {
        return [];
      }
      var parsed := env.decode(line);
      if parsed.None? {
        return [];
      }
      var r := parsed.value;
      if r.sensitive && r.scope != Secret {
        r := r.(content := env.redact(r.content));
      }
      return [r];
    }

    method RememberRecord(r: Record) returns (stored: Option<Record>)
      requires Shaped(View())
      modifies this
      ensures View() == Remember(env, old(View()), r) && Shaped(View())
      ensures stored == if r.scope == Secret then None else Some(Redacted(env, r))
    {
      if r.scope == Secret {
        return None;
      }
      var record := r;
      if r.sensitive {
        record := r.(content := env.redact(r.content));
      }
      if r.scope == Transient {
        transient := transient[r.id := record];
        return Some(record);
      }
      cache := cache[r.scope := cache[r.scope] + [record]];
      files := files[r.scope := files[r.scope] + (env.encode(record) + "\n")];
      return Some(record);
    }

    method FindRecord(id: string) returns (found: Option<(Scope, nat)>)
      requires Shaped(View())
      ensures found == Find(View(), id, PERSISTENT)
    {
      var k := 0;
      assert PERSISTENT[0..] == PERSISTENT;
      while k < |PERSISTENT|
        invariant 0 <= k <= |PERSISTENT|
        invariant Find(View(), id, PERSISTENT) == Find(View(), id, PERSISTENT[k..])
      {
        assert PERSISTENT[k..][1..] == PERSISTENT[k + 1..];
        var i := FirstWith(cache[PERSISTENT[k]], id);
        if i < |cache[PERSISTENT[k]]| {
          return Some((PERSISTENT[k], i));
        }
        k := k + 1;
      }
      return None;
    }

    method RebuildScope(s: Scope)
      requires Shaped(View())
      modifies this`files
      ensures View() == Rebuild(env, old(View()), s) && Shaped(View())
    {
      if Persistent(s) {
        files := files[s := Rebuilt(env, cache[s])];
      }
    }

    method UpdateRecord(id: string, p: Patch)
      requires Shaped(View())
      modifies this
      ensures View() == Update(env, old(View()), id, p) && Shaped(View())
    {
      var found := FindRecord(id);
      if found.Some? {
        var (s, i) := found.value;
        if cache[s][i].editable {
          var changed := Patched(env, cache[s][i], p);
          cache := cache[s := cache[s][i := changed]];
          RebuildScope(changed.scope);
        }
      } else if id in transient && transient[id].editable {
        var changed := Patched(env, transient[id], p);
        transient := transient[id := changed];
        RebuildScope(changed.scope);
      }
    }

    method ForgetRecord(id: string) returns (known: bool)
      requires Shaped(View())
      modifies this
      ensures View() == Forget(env, old(View()), id) && Shaped(View())
      ensures known <==> Find(old(View()), id, PERSISTENT).Some? || id in old(transient)
    {
      var found := FindRecord(id);
      if found.Some? {
        var (s, i) := found.value;
        cache := cache[s := Spliced(cache[s], i)];
        RebuildScope(s);
        return true;
      }
      known := id in transient;
      transient := transient - {id};
    }

    method ForgetTagInScope(s: Scope, tag: string) returns (n: nat)
      requires Shaped(View()) && Persistent(s)
      modifies this`cache, this`files
      ensures View() == ForgetTagIn(env, old(View()), s, tag) && Shaped(View())
      ensures n == |old(cache[s])| - |cache[s]|
    {
      var before := cache[s];
      var kept := Filter(before, tag);
      cache := cache[s := kept];
      n := |before| - |kept|;
      if |kept| != |before| {
        RebuildScope(s);
      }
    }

    // Walks the records as they stood, and deletes each tagged one by its id.
    method ForgetTransient(tag: string) returns (n: nat)
      modifies this`transient
      ensures transient == old(transient) - Struck(old(transient), tag)
      ensures n == |Tagged(old(transient), tag)|
    {
      ghost var all := Tagged(transient, tag);
      var values := transient;
      var todo := Tagged(values, tag);
      n := 0;
      while todo != {}
        invariant todo <= all && n + |todo| == |all|
        invariant values == old(transient)
        invariant transient == values - set key | key in all - todo :: values[key].id
        decreases |todo|
      {
        var key :| key in todo;
        ghost var struck := set k | k in all - todo :: values[k].id;
        transient := transient - {values[key].id};
        assert (set k | k in all - (todo - {key}) :: values[k].id) == struck + {values[key].id};
        todo := todo - {key};
        n := n + 1;
      }
      assert all - {} == all;
    }

    method ForgetInFiles(tag: string) returns (n: nat)
      requires Shaped(View())
      modifies this`cache, this`files
      ensures View() == ForgetTagInEach(env, old(View()), PERSISTENT, tag) && Shaped(View())
      ensures n == Listed(old(View())) - Listed(View())
    {
      ghost var start := View();
      n := 0;
      var k := 0;
      while k < |PERSISTENT|
        invariant 0 <= k <= |PERSISTENT| && Shaped(View())
        invariant View() == ForgetTagInEach(env, start, PERSISTENT[..k], tag)
        invariant n == Listed(start) - Listed(View())
      {
        ghost var before := View();
        ForgetsOneMore(env, start, k, tag);
        ForgetTagCounts(env, before, PERSISTENT[k], tag);
        var gone := ForgetTagInScope(PERSISTENT[k], tag);
        n := n + gone;
        k := k + 1;
      }
      assert PERSISTENT[..k] == PERSISTENT;
    }

    method ForgetByTag(tag: string) returns (n: nat)
      requires Shaped(View())
      modifies this
      ensures View() == ForgetTag(env, old(View()), tag) && Shaped(View())
      ensures n == Listed(old(View())) - Listed(View()) + |Tagged(old(transient), tag)|
    {
      TagGoneFromEach(env, View(), PERSISTENT, tag, Project);
      var listed := ForgetInFiles(tag);
      var others := ForgetTransient(tag);
      n := listed + others;
    }
  }

  lemma ForgetsOneMore(env: Env, m: Store, k: nat, tag: string)
    requires Shaped(m) && k < |PERSISTENT|
    ensures ForgetTagInEach(env, m, PERSISTENT[..k + 1], tag)
         == ForgetTagIn(env, ForgetTagInEach(env, m, PERSISTENT[..k], tag), PERSISTENT[k], tag)
  {
    assert PERSISTENT[..k + 1][..k] == PERSISTENT[..k];
  }

  lemma ForgetTagCounts(env: Env, m: Store, s: Scope, tag: string)
    requires Shaped(m) && Persistent(s)
    ensures var n := ForgetTagIn(env, m, s, tag);
            Shaped(n) && Listed(m) - Listed(n) == |m.cache[s]| - |n.cache[s]|
  {
  }

  method FirstWith(records: seq<Record>, id: string) returns (i: nat)
    ensures i == IndexOf(records, id)
  {
    i := 0;
    while i < |records| && records[i].id != id
      invariant i <= |records| && IndexOf(records, id) == i + IndexOf(records[i..], id)
    {
      assert records[i..][1..] == records[i + 1..];
      i := i + 1;
    }
    assert i == |records| ==> records[i..] == [];
  }

  method Filter(records: seq<Record>, tag: string) returns (kept: seq<Record>)
    ensures kept == Kept(records, tag)
  {
    kept := [];
    var i := 0;
    while i < |records|
      invariant 0 <= i <= |records| && kept == Kept(records[..i], tag)
    {
      assert records[..i + 1][..i] == records[..i];
      if tag !in records[i].tags {
        kept := kept + [records[i]];
      }
      i := i + 1;
    }
    assert records[..i] == records;
  }

  // ---- Lists and files agree --------------------------------------------------

  predicate WellEnded(file: string) {
    file == "" || file[|file| - 1] == '\n'
  }

  function Front<A>(s: seq<A>): seq<A>
    requires s != []
  {
    s[..|s| - 1]
  }

  lemma {:induction false} SplitAfterBreak(file: string, more: string)
    requires WellEnded(file)
    ensures Split(file + more, '\n') == Front(Split(file, '\n')) + Split(more, '\n')
  {
    if file == "" {
      assert file + more == more;
    } else {
      var rest, tail := Split(file[1..], '\n'), Split(more, '\n');
      assert (file + more)[1..] == file[1..] + more && (file + more)[0] == file[0];
      SplitAfterBreak(file[1..], more);
      if file[0] == '\n' {
        FrontGrows("", rest, tail);
      } else {
        SeveralParts(file[1..]);
        FrontExtends(file[0], rest, tail);
      }
    }
  }

  lemma FrontGrows(first: string, rest: seq<string>, tail: seq<string>)
    requires rest != []
    ensures Front([first] + rest) + tail == [first] + (Front(rest) + tail)
  {
    assert Front([first] + rest) == [first] + Front(rest);
  }

  lemma FrontExtends(c: char, rest: seq<string>, tail: seq<string>)
    requires |rest| > 1
    ensures var whole := Front(rest) + tail;
            Front([[c] + rest[0]] + rest[1..]) + tail == [[c] + whole[0]] + whole[1..]
  {
    assert Front([[c] + rest[0]] + rest[1..]) == [[c] + rest[0]] + Front(rest)[1..];
    assert Front(rest)[0] == rest[0];
    assert (Front(rest) + tail)[1..] == Front(rest)[1..] + tail;
  }

  lemma {:induction false} SeveralParts(file: string)
    requires file != "" && WellEnded(file)
    ensures |Split(file, '\n')| > 1
  {
    if |file| > 1 && file[0] != '\n' {
      SeveralParts(file[1..]);
    }
  }

  lemma {:induction false} LastPartIsEmpty(file: string)
    requires WellEnded(file)
    ensures Split(file, '\n') == Front(Split(file, '\n')) + [""]
  {
    SplitAfterBreak(file, "");
    assert file + "" == file;
  }

  lemma SplitLine(line: string)
    requires '\n' !in line
    ensures Split(line + "\n", '\n') == [line, ""]
  {
    SplitAtFirst(line, "", '\n');
    assert line + ['\n'] + "" == line + "\n";
  }

  lemma {:induction false} LoadLinesOfAppend(env: Env, a: seq<string>, b: seq<string>)
    ensures LoadLines(env, a + b) == LoadLines(env, a) + LoadLines(env, b)
  {
    if b == [] {
      assert a + b == a;
    } else {
      var n := |b| - 1;
      assert (a + b)[..|a + b| - 1] == a + b[..n];
      LoadLinesOfAppend(env, a, b[..n]);
    }
  }

  lemma LoadOneLine(env: Env, line: string)
    ensures LoadLines(env, [line]) == LoadLine(env, line)
    ensures LoadLines(env, [line, ""]) == LoadLine(env, line)
  {
    assert [line][..0] == [] && [line, ""][..1] == [line];
  }

  lemma LoadsInParts(env: Env, whole: seq<string>, front: seq<string>, tail: seq<string>)
    requires whole == front + tail
    ensures LoadLines(env, whole) == LoadLines(env, front) + LoadLines(env, tail)
  {
    LoadLinesOfAppend(env, front, tail);
  }

  lemma BlankLoadsNothing(env: Env)
    ensures LoadLines(env, [""]) == []
  {
    LoadOneLine(env, "");
  }

  lemma FrontLoads(env: Env, file: string)
    requires WellEnded(file)
    ensures Load(env, file) == LoadLines(env, Front(Split(file, '\n')))
  {
    LastPartIsEmpty(file);
    LoadsInParts(env, Split(file, '\n'), Front(Split(file, '\n')), [""]);
    BlankLoadsNothing(env);
  }

  lemma FrontAndMoreLoad(env: Env, file: string, more: string)
    requires WellEnded(file)
    ensures Load(env, file + more)
         == LoadLines(env, Front(Split(file, '\n'))) + LoadLines(env, Split(more, '\n'))
  {
    SplitAfterBreak(file, more);
    LoadsInParts(env, Split(file + more, '\n'), Front(Split(file, '\n')), Split(more, '\n'));
  }

  lemma LoadMore(env: Env, file: string, more: string)
    requires WellEnded(file)
    ensures Load(env, file + more) == Load(env, file) + LoadLines(env, Split(more, '\n'))
  {
    FrontLoads(env, file);
    FrontAndMoreLoad(env, file, more);
  }

  lemma LoadAppended(env: Env, file: string, line: string)
    requires WellEnded(file) && '\n' !in line
    ensures Load(env, file + (line + "\n")) == Load(env, file) + LoadLine(env, line)
    ensures WellEnded(file + (line + "\n"))
  {
    LoadMore(env, file, line + "\n");
    SplitLine(line);
    LoadOneLine(env, line);
  }

  predicate AllRedacted(env: Env, records: seq<Record>) {
    forall i :: 0 <= i < |records| ==> Redacted(env, records[i]) == records[i]
  }

  lemma EncodedLoadsOne(env: Env, r: Record)
    requires Lawful(env) && Redacted(env, r) == r
    ensures LoadLine(env, env.encode(r)) == [r]
  {
    assert env.decode(env.encode(r)) == Some(r);
  }

  lemma {:induction false} EncodedLoads(env: Env, records: seq<Record>)
    requires Lawful(env) && AllRedacted(env, records)
    ensures LoadLines(env, Encoded(env, records)) == records
  {
    if records != [] {
      var n := |records| - 1;
      var lines := Encoded(env, records);
      EncodedLoads(env, records[..n]);
      assert lines[..n] == Encoded(env, records[..n]) && lines[n] == env.encode(records[n]);
      EncodedLoadsOne(env, records[n]);
    }
  }

  lemma {:induction false} JoinWithEnd(lines: seq<string>)
    requires lines != []
    ensures Join(lines + [""], "\n") == Join(lines, "\n") + "\n"
  {
    assert (lines + [""])[1..] == lines[1..] + [""];
    if |lines| > 1 {
      JoinWithEnd(lines[1..]);
    }
  }

  // A rewritten file holds exactly the records it was written from, an empty one included.
  lemma RebuiltLoads(env: Env, records: seq<Record>)
    requires Lawful(env) && AllRedacted(env, records)
    ensures Load(env, Rebuilt(env, records)) == records && WellEnded(Rebuilt(env, records))
  {
    var lines := Encoded(env, records);
    EncodedLoads(env, records);
    LoadOneLine(env, "");
    if records == [] {
      assert Rebuilt(env, records) == "\n";
      SplitAtFirst("", "", '\n');
      assert "" + ['\n'] + "" == "\n";
    } else {
      JoinWithEnd(lines);
      JoinedSplits(lines + [""], '\n');
      LoadLinesOfAppend(env, lines, [""]);
    }
  }

  // Reopening the files gives back the lists.
  predicate Agrees(env: Env, m: Store)
    requires Shaped(m)
  {
    forall s :: Persistent(s) ==> Load(env, m.files[s]) == m.cache[s]
  }

  predicate AllIn(s: Scope, records: seq<Record>) {
    forall i :: 0 <= i < |records| ==> records[i].scope == s
  }

  // The file gives back the list and ends its last line; every record is of the scope, and
  // a sensitive one is held redacted.
  predicate ScopeSound(env: Env, s: Scope, records: seq<Record>, file: string) {
    Load(env, file) == records && WellEnded(file) && AllRedacted(env, records) && AllIn(s, records)
  }

  predicate Sound(env: Env, m: Store) {
    Shaped(m) && forall s :: Persistent(s) ==> ScopeSound(env, s, m.cache[s], m.files[s])
  }

  lemma ScopeReplaced(env: Env, m: Store, s: Scope, records: seq<Record>, file: string)
    requires Sound(env, m) && Persistent(s) && ScopeSound(env, s, records, file)
    ensures Sound(env, m.(cache := m.cache[s := records], files := m.files[s := file]))
  {
  }

  lemma RedactedTwice(env: Env, r: Record)
    requires Lawful(env)
    ensures Redacted(env, Redacted(env, r)) == Redacted(env, r)
  {
    assert env.redact(env.redact(r.content)) == env.redact(r.content);
  }

  lemma AppendSound(env: Env, s: Scope, records: seq<Record>, file: string, r: Record)
    requires Lawful(env) && ScopeSound(env, s, records, file) && r.scope == s && Redacted(env, r) == r
    ensures ScopeSound(env, s, records + [r], file + (env.encode(r) + "\n"))
  {
    LoadAppended(env, file, env.encode(r));
    assert LoadLine(env, env.encode(r)) == [r];
  }

  lemma ScopeGrows(env: Env, m: Store, s: Scope, stored: Record)
    requires Lawful(env) && Sound(env, m) && Persistent(s) && stored.scope == s && Redacted(env, stored) == stored
    ensures Sound(env, m.(cache := m.cache[s := m.cache[s] + [stored]],
                          files := m.files[s := m.files[s] + (env.encode(stored) + "\n")]))
  {
    assert ScopeSound(env, s, m.cache[s], m.files[s]);
    AppendSound(env, s, m.cache[s], m.files[s], stored);
    ScopeReplaced(env, m, s, m.cache[s] + [stored], m.files[s] + (env.encode(stored) + "\n"));
  }

  lemma RememberKeepsSound(env: Env, m: Store, r: Record)
    requires Lawful(env) && Sound(env, m)
    ensures Sound(env, Remember(env, m, r))
  {
    if Persistent(r.scope) {
      ListedRememberKeepsSound(env, m, r.scope, r, Redacted(env, r));
    }
  }

  lemma ListedRememberKeepsSound(env: Env, m: Store, s: Scope, r: Record, stored: Record)
    requires Lawful(env) && Sound(env, m) && r.scope == s && Persistent(s) && stored == Redacted(env, r)
    ensures Sound(env, m.(cache := m.cache[s := m.cache[s] + [stored]],
                          files := m.files[s := m.files[s] + (env.encode(stored) + "\n")]))
  {
    RedactedTwice(env, r);
    ScopeGrows(env, m, s, stored);
  }

  // A list changed to redacted records of its scope, and its file rewritten.
  lemma RebuildKeepsSound(env: Env, m: Store, s: Scope, records: seq<Record>)
    requires Lawful(env) && Sound(env, m) && Persistent(s) && AllRedacted(env, records) && AllIn(s, records)
    ensures Sound(env, Rebuild(env, m.(cache := m.cache[s := records]), s))
  {
    RebuiltLoads(env, records);
    ScopeReplaced(env, m, s, records, Rebuilt(env, records));
  }

  // The patch leaves the record it finds in its scope.
  predicate KeepsScope(m: Store, id: string, p: Patch)
    requires Shaped(m)
  {
    var found := Find(m, id, PERSISTENT);
    found.Some? ==> p.scope.None? || p.scope.value == found.value.0
  }

  lemma UpdateKeepsSound(env: Env, m: Store, id: string, p: Patch)
    requires Lawful(env) && Sound(env, m) && KeepsScope(m, id, p)
    ensures Sound(env, Update(env, m, id, p))
  {
    var found := Find(m, id, PERSISTENT);
    if found.Some? {
      var (s, i) := found.value;
      if m.cache[s][i].editable {
        ListedUpdateKeepsSound(env, m, s, i, p);
      }
    } else if id in m.transient && m.transient[id].editable {
      var changed := Patched(env, m.transient[id], p);
      OtherUpdateKeepsSound(env, m, m.transient[id := changed], changed.scope);
    }
  }

  lemma ListedUpdateKeepsSound(env: Env, m: Store, s: Scope, i: nat, p: Patch)
    requires Lawful(env) && Sound(env, m) && Persistent(s) && i < |m.cache[s]|
    requires p.scope.None? || p.scope.value == s
    ensures var changed := Patched(env, m.cache[s][i], p);
            changed.scope == s && Sound(env, Rebuild(env, m.(cache := m.cache[s := m.cache[s][i := changed]]), s))
  {
    var changed := Patched(env, m.cache[s][i], p);
    PatchedIsRedacted(env, m.cache[s][i], p);
    assert ScopeSound(env, s, m.cache[s], m.files[s]);
    RebuildKeepsSound(env, m, s, m.cache[s][i := changed]);
  }

  // A transient record that claims another scope only has that scope's file written anew.
  lemma OtherUpdateKeepsSound(env: Env, m: Store, transient: map<string, Record>, s: Scope)
    requires Lawful(env) && Sound(env, m)
    ensures Sound(env, Rebuild(env, m.(transient := transient), s))
  {
    if Persistent(s) {
      assert ScopeSound(env, s, m.cache[s], m.files[s]);
      assert m.cache[s := m.cache[s]] == m.cache;
      RebuildKeepsSound(env, m.(transient := transient), s, m.cache[s]);
    }
  }

  lemma PatchedIsRedacted(env: Env, r: Record, p: Patch)
    requires Lawful(env)
    ensures Redacted(env, Patched(env, r, p)) == Patched(env, r, p)
    ensures Patched(env, r, p).scope == p.scope.GetOr(r.scope)
  {
    RedactedTwice(env, Record(p.id.GetOr(r.id), p.scope.GetOr(r.scope), p.content.GetOr(r.content),
                              p.tags.GetOr(r.tags), p.sensitive.GetOr(r.sensitive), p.editable.GetOr(r.editable),
                              p.rest));
  }

  lemma ForgetKeepsSound(env: Env, m: Store, id: string)
    requires Lawful(env) && Sound(env, m)
    ensures Sound(env, Forget(env, m, id))
  {
    var found := Find(m, id, PERSISTENT);
    if found.Some? {
      var (s, i) := found.value;
      assert ScopeSound(env, s, m.cache[s], m.files[s]);
      SplicedStays(env, s, m.cache[s], i);
      RebuildKeepsSound(env, m, s, Spliced(m.cache[s], i));
    }
  }

  lemma SplicedStays(env: Env, s: Scope, records: seq<Record>, i: nat)
    requires i < |records| && AllRedacted(env, records) && AllIn(s, records)
    ensures AllRedacted(env, Spliced(records, i)) && AllIn(s, Spliced(records, i))
  {
  }

  lemma {:induction false} KeptAllIfAsMany(records: seq<Record>, tag: string)
    ensures |Kept(records, tag)| == |records| ==> Kept(records, tag) == records
    ensures forall r :: r in Kept(records, tag) ==> r in records
  {
    if records != [] {
      KeptAllIfAsMany(records[..|records| - 1], tag);
    }
  }

  lemma KeptStays(env: Env, s: Scope, records: seq<Record>, tag: string)
    requires AllRedacted(env, records) && AllIn(s, records)
    ensures AllRedacted(env, Kept(records, tag)) && AllIn(s, Kept(records, tag))
  {
    var kept := Kept(records, tag);
    forall i | 0 <= i < |kept|
      ensures Redacted(env, kept[i]) == kept[i] && kept[i].scope == s
    {
      assert kept[i] in records;
    }
  }

  lemma ForgetTagInKeepsSound(env: Env, m: Store, s: Scope, tag: string)
    requires Lawful(env) && Sound(env, m) && Persistent(s)
    ensures Sound(env, ForgetTagIn(env, m, s, tag))
  {
    var kept := Kept(m.cache[s], tag);
    assert ScopeSound(env, s, m.cache[s], m.files[s]);
    if |kept| != |m.cache[s]| {
      KeptStays(env, s, m.cache[s], tag);
      RebuildKeepsSound(env, m, s, kept);
    } else {
      NothingToForget(env, m, s, tag);
    }
  }

  lemma NothingToForget(env: Env, m: Store, s: Scope, tag: string)
    requires Shaped(m) && Persistent(s) && |Kept(m.cache[s], tag)| == |m.cache[s]|
    ensures ForgetTagIn(env, m, s, tag) == m
  {
    KeptAllIfAsMany(m.cache[s], tag);
    assert m.cache[s := Kept(m.cache[s], tag)] == m.cache;
  }

  lemma {:induction false} ForgetTagInEachKeepsSound(env: Env, m: Store, scopes: seq<Scope>, tag: string)
    requires Lawful(env) && Sound(env, m) && forall s :: s in scopes ==> Persistent(s)
    ensures Sound(env, ForgetTagInEach(env, m, scopes, tag))
  {
    if scopes != [] {
      var last := |scopes| - 1;
      assert forall s :: s in scopes[..last] ==> s in scopes;
      ForgetTagInEachKeepsSound(env, m, scopes[..last], tag);
      ForgetTagInKeepsSound(env, ForgetTagInEach(env, m, scopes[..last], tag), scopes[last], tag);
    }
  }

  // ---- Whole runs -------------------------------------------------------------

  datatype Op = Add(record: Record) | Change(id: string, patch: Patch) | Drop(id: string) | DropTag(tag: string)

  function Apply(env: Env, m: Store, op: Op): Store
    requires Shaped(m)
  {
    match op
    case Add(r) => Remember(env, m, r)
    case Change(id, p) => Update(env, m, id, p)
    case Drop(id) => Forget(env, m, id)
    case DropTag(tag) => ForgetTag(env, m, tag)
  }

  lemma OpKeepsSound(env: Env, m: Store, op: Op)
    requires Lawful(env) && Sound(env, m) && (op.Change? ==> KeepsScope(m, op.id, op.patch))
    ensures Sound(env, Apply(env, m, op))
  {
    match op
    case Add(r) => RememberKeepsSound(env, m, r);
    case Change(id, p) => UpdateKeepsSound(env, m, id, p);
    case Drop(id) => ForgetKeepsSound(env, m, id);
    case DropTag(tag) => ForgetTagInEachKeepsSound(env, m, PERSISTENT, tag);
  }

  ghost predicate Run(env: Env, m: Store, ops: seq<Op>, n: Store)
    requires Shaped(m)
    decreases ops
  {
    if ops == [] then m == n
    else
      && (ops[0].Change? ==> KeepsScope(m, ops[0].id, ops[0].patch))
      && Shaped(Apply(env, m, ops[0]))
      && Run(env, Apply(env, m, ops[0]), ops[1..], n)
  }

  // After any sequence of operations whose patches leave scopes alone, loading the files
  // afresh gives the lists in memory, in their order, with sensitive records redacted.
  lemma {:induction false} FilesFollowLists(env: Env, m: Store, ops: seq<Op>, n: Store)
    requires Lawful(env) && Sound(env, m) && Run(env, m, ops, n)
    ensures Sound(env, n)
    decreases ops
  {
    if ops != [] {
      OpKeepsSound(env, m, ops[0]);
      FilesFollowLists(env, Apply(env, m, ops[0]), ops[1..], n);
    }
  }

  // What loading gives back is redacted already.
  lemma {:induction false} LoadedIsRedacted(env: Env, lines: seq<string>)
    requires Lawful(env)
    ensures AllRedacted(env, LoadLines(env, lines))
  {
    if lines != [] {
      var line := lines[|lines| - 1];
      LoadedIsRedacted(env, lines[..|lines| - 1]);
      if env.decode(line).Some? {
        RedactedTwice(env, env.decode(line).value);
      }
    }
  }

  // A store that was just opened is sound exactly if every file ends its last line and holds
  // records of its own scope only.
  lemma OpenedIsSound(env: Env, m: Store)
    requires Lawful(env) && Shaped(m) && forall s :: Persistent(s) ==> m.cache[s] == Load(env, m.files[s])
    ensures Sound(env, m)
       <==> forall s :: Persistent(s) ==> WellEnded(m.files[s]) && AllIn(s, m.cache[s])
  {
    forall s | Persistent(s)
      ensures AllRedacted(env, m.cache[s])
      ensures ScopeSound(env, s, m.cache[s], m.files[s]) <==> WellEnded(m.files[s]) && AllIn(s, m.cache[s])
    {
      LoadedIsRedacted(env, Split(m.files[s], '\n'));
    }
  }

  // ---- Where they part --------------------------------------------------------

  // An update that changes a listed record keeps the file in agreement exactly when the
  // record's scope stays that of the list it is in.
  lemma AgreementAfterUpdate(env: Env, m: Store, id: string, p: Patch, s: Scope, i: nat)
    requires Lawful(env) && Sound(env, m) && Find(m, id, PERSISTENT) == Some((s, i))
    requires m.cache[s][i].editable && Patched(env, m.cache[s][i], p) != m.cache[s][i]
    ensures Shaped(Update(env, m, id, p))
    ensures Agrees(env, Update(env, m, id, p)) <==> p.scope.None? || p.scope.value == s
  {
    var changed := Patched(env, m.cache[s][i], p);
    PatchedIsRedacted(env, m.cache[s][i], p);
    if changed.scope == s {
      UpdateKeepsSound(env, m, id, p);
    } else {
      ListLeavesFile(env, m, s, m.cache[s][i := changed], changed.scope);
      assert m.cache[s][i := changed][i] != m.cache[s][i];
    }
  }

  // A list that changed while another scope's file was written is not what its own file holds.
  lemma ListLeavesFile(env: Env, m: Store, s: Scope, records: seq<Record>, other: Scope)
    requires Sound(env, m) && Persistent(s) && other != s
    ensures var n := Rebuild(env, m.(cache := m.cache[s := records]), other);
            Shaped(n) && (records != m.cache[s] ==> !Agrees(env, n))
  {
    var n := Rebuild(env, m.(cache := m.cache[s := records]), other);
    assert ScopeSound(env, s, m.cache[s], m.files[s]);
    assert n.cache[s] == records && n.files[s] == m.files[s];
  }

  // An append to a file whose last line was never ended runs two records into one line:
  // if the torn line still loads, one of them is lost to the next load.
  lemma TornLineLosesARecord(env: Env, before: string, torn: string, line: string, r: Record)
    requires WellEnded(before) && '\n' !in torn && '\n' !in line && LoadLine(env, torn) != []
    ensures Load(env, before + torn + (line + "\n")) != Load(env, before + torn) + [r]
  {
    LoadMore(env, before, torn);
    SplitAtFirst(torn, "", '\n');
    LoadOneLine(env, torn);
    LoadAppended(env, before, torn + line);
    Regrouped(before, torn, line + "\n");
    Regrouped(torn, line, "\n");
    Outnumbered(Load(env, before), LoadLine(env, torn), LoadLine(env, torn + line), r);
  }

  lemma Regrouped(a: string, b: string, c: string)
    ensures a + b + c == a + (b + c)
  {
  }

  lemma Outnumbered(before: seq<Record>, torn: seq<Record>, joined: seq<Record>, r: Record)
    requires |torn| == 1 && |joined| <= 1
    ensures before + joined != before + torn + [r]
  {
    assert |before + joined| < |before + torn + [r]|;
  }

  // ---- Forgetting -------------------------------------------------------------

  lemma TagGoneFromOne(env: Env, m: Store, t: Scope, tag: string, s: Scope)
    requires Shaped(m) && Persistent(t) && Persistent(s)
    ensures var n := ForgetTagIn(env, m, t, tag);
            && Shaped(n) && n.transient == m.transient
            && n.cache[s] == if s == t then Kept(m.cache[s], tag) else m.cache[s]
  {
  }

  lemma {:induction false} TagGoneFromEach(env: Env, m: Store, scopes: seq<Scope>, tag: string, s: Scope)
    requires Shaped(m) && (forall t :: t in scopes ==> Persistent(t)) && Persistent(s)
    ensures ForgetTagInEach(env, m, scopes, tag).transient == m.transient
    ensures forall r :: r in ForgetTagInEach(env, m, scopes, tag).cache[s] <==>
              r in m.cache[s] && (s in scopes ==> tag !in r.tags)
  {
    if scopes != [] {
      var last := |scopes| - 1;
      assert forall t :: t in scopes[..last] ==> t in scopes;
      assert s in scopes <==> s in scopes[..last] || s == scopes[last];
      TagGoneFromEach(env, m, scopes[..last], tag, s);
      TagGoneFromOne(env, ForgetTagInEach(env, m, scopes[..last], tag), scopes[last], tag, s);
    }
  }

  // A listed record is kept exactly if it does not carry the tag. So is a transient one,
  // whatever key it is kept under, exactly if the ids that the tagged ones carry are the
  // keys they are kept under.
  lemma TagIsForgotten(env: Env, m: Store, tag: string)
    requires Shaped(m)
    ensures var n := ForgetTag(env, m, tag);
            && Shaped(n)
            && (forall s, r :: Persistent(s) ==> (r in n.cache[s] <==> r in m.cache[s] && tag !in r.tags))
            && ((forall key :: key in n.transient <==> key in m.transient && tag !in m.transient[key].tags)
                <==> Struck(m.transient, tag) == Tagged(m.transient, tag))
  {
    hide Tagged, Struck, ForgetTagInEach;
    forall s | Persistent(s)
      ensures forall r :: r in ForgetTag(env, m, tag).cache[s] <==> r in m.cache[s] && tag !in r.tags
    {
      TagGoneFromEach(env, m, PERSISTENT, tag, s);
      assert s in PERSISTENT by {
        assert s == PERSISTENT[0] || s == PERSISTENT[1] || s == PERSISTENT[2];
      }
    }
    TagGoneFromEach(env, m, PERSISTENT, tag, Project);
    StrikesTheTagged(m.transient, tag);
  }

  // Striking leaves exactly the untagged when it strikes no other keys: the struck ids are
  // no more than the tagged keys.
  lemma StrikesTheTagged(transient: map<string, Record>, tag: string)
    ensures (forall key :: key in transient - Struck(transient, tag) <==> key in transient && tag !in transient[key].tags)
       <==> Struck(transient, tag) == Tagged(transient, tag)
  {
    var struck, tagged := Struck(transient, tag), Tagged(transient, tag);
    ImageIsNoLarger(transient, tagged);
    if forall key :: key in transient - struck <==> key in transient && tag !in transient[key].tags {
      forall key | key in tagged
        ensures key in struck
      {
        assert key !in transient - struck;
      }
      SubsetOfNoLarger(tagged, struck);
    }
  }

  function Ids(transient: map<string, Record>, keys: set<string>): set<string>
    requires keys <= transient.Keys
  {
    set key | key in keys :: transient[key].id
  }

  lemma {:induction false} ImageIsNoLarger(transient: map<string, Record>, keys: set<string>)
    requires keys <= transient.Keys
    ensures |Ids(transient, keys)| <= |keys|
    decreases keys
  {
    if keys != {} {
      var key :| key in keys;
      ImageIsNoLarger(transient, keys - {key});
      assert Ids(transient, keys) == Ids(transient, keys - {key}) + {transient[key].id};
    }
  }

  lemma {:induction false} SubsetOfNoLarger(a: set<string>, b: set<string>)
    requires a <= b && |b| <= |a|
    ensures a == b
    decreases a
  {
    if a != {} {
      var x :| x in a;
      SubsetOfNoLarger(a - {x}, b - {x});
    }
  }

  // The answer is the number of records that went exactly if the ids of the tagged ones are
  // distinct and each is a key.
  lemma CountIsRight(env: Env, m: Store, tag: string)
    requires Shaped(m)
    ensures var n := ForgetTag(env, m, tag);
            && Shaped(n) && Listed(n) <= Listed(m) && Listed(n) == Listed(ForgetTagInEach(env, m, PERSISTENT, tag))
            && (ForgetCount(env, m, tag) == Size(m) - Size(n)
                <==> Struck(m.transient, tag) <= m.transient.Keys
                     && forall j, k :: j in Tagged(m.transient, tag) && k in Tagged(m.transient, tag) && j != k
                                       ==> m.transient[j].id != m.transient[k].id)
  {
    ForgottenIsShaped(env, m, tag);
    StruckAreCounted(m.transient, tag);
    hide ForgetTagInEach, Struck, Tagged, ForgetTag, Shaped;
  }

  lemma ForgottenIsShaped(env: Env, m: Store, tag: string)
    requires Shaped(m)
    ensures var n := ForgetTag(env, m, tag);
            && Shaped(n) && Listed(n) <= Listed(m) && Listed(n) == Listed(ForgetTagInEach(env, m, PERSISTENT, tag))
            && n.transient == m.transient - Struck(m.transient, tag)
  {
    TagGoneFromEach(env, m, PERSISTENT, tag, Project);
    EachListShrinks(env, m, PERSISTENT, tag);
  }

  lemma StruckAreCounted(transient: map<string, Record>, tag: string)
    ensures |transient| - |transient - Struck(transient, tag)| == |Tagged(transient, tag)|
       <==> Struck(transient, tag) <= transient.Keys
            && forall j, k :: j in Tagged(transient, tag) && k in Tagged(transient, tag) && j != k
                              ==> transient[j].id != transient[k].id
  {
    var struck, tagged := Struck(transient, tag), Tagged(transient, tag);
    var left := transient - struck;
    assert left.Keys == transient.Keys - struck;
    assert |left| == |left.Keys| && |transient| == |transient.Keys|;
    assert |transient.Keys - struck| == |transient.Keys| - |transient.Keys * struck|;
    assert struck == Ids(transient, tagged);
    ImageIsAsLarge(transient, tagged);
    PartIsSmaller(transient.Keys, struck);
  }

  lemma PartIsSmaller(keys: set<string>, struck: set<string>)
    ensures |keys * struck| <= |struck|
    ensures |keys * struck| == |struck| <==> struck <= keys
  {
    assert struck == keys * struck + (struck - keys);
    assert |struck| == |keys * struck| + |struck - keys|;
    if struck <= keys {
      assert struck - keys == {};
    }
  }

  lemma {:induction false} ImageIsAsLarge(transient: map<string, Record>, keys: set<string>)
    requires keys <= transient.Keys
    ensures |Ids(transient, keys)| <= |keys|
    ensures |Ids(transient, keys)| == |keys|
       <==> forall j, k :: j in keys && k in keys && j != k ==> transient[j].id != transient[k].id
    decreases keys
  {
    if keys != {} {
      var key :| key in keys;
      var rest := keys - {key};
      ImageIsAsLarge(transient, rest);
      assert Ids(transient, keys) == Ids(transient, rest) + {transient[key].id};
      if transient[key].id in Ids(transient, rest) {
        var other :| other in rest && transient[other].id == transient[key].id;
      }
    }
  }

  lemma {:induction false} EachListShrinks(env: Env, m: Store, scopes: seq<Scope>, tag: string)
    requires Shaped(m) && forall s :: s in scopes ==> Persistent(s)
    ensures Listed(ForgetTagInEach(env, m, scopes, tag)) <= Listed(m)
  {
    if scopes != [] {
      var last := |scopes| - 1;
      assert forall s :: s in scopes[..last] ==> s in scopes;
      EachListShrinks(env, m, scopes[..last], tag);
      ForgetTagCounts(env, ForgetTagInEach(env, m, scopes[..last], tag), scopes[last], tag);
    }
  }

  // ---- Keys and ids -----------------------------------------------------------

  predicate KeysAreIds(transient: map<string, Record>) {
    forall key :: key in transient ==> transient[key].id == key
  }

  // While they are, forgetting a tag does what it says.
  lemma KeyedTagIsForgotten(env: Env, m: Store, tag: string)
    requires Shaped(m) && KeysAreIds(m.transient)
    ensures var n := ForgetTag(env, m, tag);
            && Shaped(n) && Listed(n) == Listed(ForgetTagInEach(env, m, PERSISTENT, tag)) <= Listed(m)
            && (forall key :: key in n.transient <==> key in m.transient && tag !in m.transient[key].tags)
            && ForgetCount(env, m, tag) == Size(m) - Size(n)
  {
    assert Struck(m.transient, tag) == Tagged(m.transient, tag);
    TagIsForgotten(env, m, tag);
    CountIsRight(env, m, tag);
  }

  predicate KeepsIds(op: Op) {
    op.Change? ==> op.patch.id.None? || op.patch.id.value == op.id
  }

  lemma OpKeepsKeys(env: Env, m: Store, op: Op)
    requires Shaped(m) && KeysAreIds(m.transient) && KeepsIds(op) && Shaped(Apply(env, m, op))
    ensures KeysAreIds(Apply(env, m, op).transient)
  {
    hide Find, ForgetTagInEach, Struck, Rebuilt;
    if op.DropTag? {
      TagGoneFromEach(env, m, PERSISTENT, op.tag, Project);
    }
  }

  // And they are as long as no patch changes an id.
  lemma {:induction false} KeysStayIds(env: Env, m: Store, ops: seq<Op>, n: Store)
    requires Shaped(m) && Run(env, m, ops, n) && KeysAreIds(m.transient)
    requires forall i :: 0 <= i < |ops| ==> KeepsIds(ops[i])
    ensures KeysAreIds(n.transient)
    decreases ops
  {
    if ops != [] {
      assert forall i :: 0 <= i < |ops| - 1 ==> ops[1..][i] == ops[i + 1];
      OpKeepsKeys(env, m, ops[0]);
      KeysStayIds(env, Apply(env, m, ops[0]), ops[1..], n);
    }
  }

  // One that does makes forgetting miss: a transient record renamed by an update stays,
  // tag and all, and is counted as gone.
  lemma RenamedRecordStays(env: Env, m: Store, r: Record, id: string, p: Patch, tag: string)
    requires Shaped(m) && m.transient == map[] && Find(m, r.id, PERSISTENT).None?
    requires r.scope == Transient && r.editable && tag in r.tags
    requires id != r.id && p == Patch(Some(id), None, None, None, None, None, r.rest)
    ensures Shaped(Remember(env, m, r)) && Find(Remember(env, m, r), r.id, PERSISTENT).None?
    ensures var renamed := Update(env, Remember(env, m, r), r.id, p);
            && Shaped(renamed)
            && var n := ForgetTag(env, renamed, tag);
               && Tagged(renamed.transient, tag) == {r.id}
               && r.id in n.transient && tag in n.transient[r.id].tags && n.transient == renamed.transient
  {
    RenamedByUpdate(env, m, r, id, p);
    var renamed := Update(env, Remember(env, m, r), r.id, p);
    var changed := Patched(env, Redacted(env, r), p);
    hide Update, Remember, Patched, Redacted, Find;
    TagGoneFromEach(env, renamed, PERSISTENT, tag, Project);
    hide ForgetTagInEach;
    StruckUnderItsId(renamed.transient, r.id, changed, tag);
  }

  lemma RenamedByUpdate(env: Env, m: Store, r: Record, id: string, p: Patch)
    requires Shaped(m) && m.transient == map[] && Find(m, r.id, PERSISTENT).None?
    requires r.scope == Transient && r.editable && p == Patch(Some(id), None, None, None, None, None, r.rest)
    ensures Shaped(Remember(env, m, r)) && Find(Remember(env, m, r), r.id, PERSISTENT).None?
    ensures var renamed := Update(env, Remember(env, m, r), r.id, p);
            var changed := Patched(env, Redacted(env, r), p);
            Shaped(renamed) && renamed.transient == map[r.id := changed] && changed.id == id && changed.tags == r.tags
  {
    var remembered := Remember(env, m, r);
    SameListsFindTheSame(m, remembered, r.id, PERSISTENT);
    assert remembered.transient == map[r.id := Redacted(env, r)];
  }

  lemma StruckUnderItsId(transient: map<string, Record>, key: string, r: Record, tag: string)
    requires transient == map[key := r] && tag in r.tags
    ensures Tagged(transient, tag) == {key} && Struck(transient, tag) == {r.id}
    ensures r.id != key ==> transient - Struck(transient, tag) == transient
  {
    assert Tagged(transient, tag) == {key};
    assert Struck(transient, tag) == {transient[key].id};
  }

  lemma {:induction false} SameListsFindTheSame(m: Store, n: Store, id: string, scopes: seq<Scope>)
    requires Shaped(m) && Shaped(n) && m.cache == n.cache && forall s :: s in scopes ==> Persistent(s)
    ensures Find(m, id, scopes) == Find(n, id, scopes)
  {
    if scopes != [] {
      assert forall s :: s in scopes[1..] ==> s in scopes;
      SameListsFindTheSame(m, n, id, scopes[1..]);
    }
  }

  // Nor does it take keys that are ids: two tagged records that swapped ids go together.
  lemma SwappedRecordsGo(env: Env, m: Store, a: Record, b: Record, tag: string)
    requires Shaped(m) && a.id != b.id && tag in a.tags && tag in b.tags
    requires m.transient == map[a.id := b, b.id := a]
    ensures !KeysAreIds(m.transient) && ForgetTag(env, m, tag).transient == map[]
  {
    assert m.transient[a.id] == b && m.transient[b.id] == a;
    assert Struck(m.transient, tag) == {a.id, b.id} by {
      assert a.id in Tagged(m.transient, tag) && b.id in Tagged(m.transient, tag);
    }
    TagGoneFromEach(env, m, PERSISTENT, tag, Project);
  }

  // ---- What an operation comes to ---------------------------------------------

  // The record as it is kept.
  function Stored(env: Env, r: Record): Record {
    if r.sensitive then r.(content := env.redact(r.content)) else r
  }

  // A secret is refused; a transient record is kept under its id; any other is the last of its
  // scope's list and the last line of its file. The content of a sensitive one is redacted.
  lemma RememberedIsKept(env: Env, m: Store, r: Record)
    requires Shaped(m)
    ensures var n := Remember(env, m, r);
            match r.scope
            case Secret => n == m
            case Transient => n == m.(transient := m.transient[r.id := Stored(env, r)])
            case s =>
              && n.cache == m.cache[s := m.cache[s] + [Stored(env, r)]]
              && n.files == m.files[s := m.files[s] + env.encode(Stored(env, r)) + "\n"]
              && n.transient == m.transient
  {
    if Persistent(r.scope) {
      var line := env.encode(Stored(env, r));
      assert m.files[r.scope] + (line + "\n") == m.files[r.scope] + line + "\n";
    }
  }

  // The first record with the id: the project's list is searched first, then the user's, then
  // the machine's.
  predicate FirstAt(m: Store, id: string, s: Scope, i: nat)
    requires Shaped(m)
  {
    && Persistent(s) && i < |m.cache[s]| && m.cache[s][i].id == id
    && (forall j :: 0 <= j < i ==> m.cache[s][j].id != id)
    && (s.User? ==> !Lists(m, Project, id)) && (s.Machine? ==> !Lists(m, Project, id) && !Lists(m, User, id))
  }

  predicate Lists(m: Store, s: Scope, id: string)
    requires Shaped(m) && Persistent(s)
  {
    exists i :: 0 <= i < |m.cache[s]| && m.cache[s][i].id == id
  }

  predicate ListsNowhere(m: Store, id: string)
    requires Shaped(m)
  {
    !Lists(m, Project, id) && !Lists(m, User, id) && !Lists(m, Machine, id)
  }

  lemma IndexTells(m: Store, s: Scope, id: string)
    requires Shaped(m) && Persistent(s)
    ensures IndexOf(m.cache[s], id) < |m.cache[s]| <==> Lists(m, s, id)
  {
  }

  lemma FindsTheFirst(m: Store, id: string)
    requires Shaped(m)
    ensures match Find(m, id, PERSISTENT)
            case None => ListsNowhere(m, id)
            case Some((s, i)) => FirstAt(m, id, s, i)
  {
    assert PERSISTENT[1..] == [User, Machine] && [User, Machine][1..] == [Machine] && [Machine][1..] == [];
    IndexTells(m, Project, id);
    IndexTells(m, User, id);
    IndexTells(m, Machine, id);
    var first, second, third := IndexOf(m.cache[Project], id), IndexOf(m.cache[User], id), IndexOf(m.cache[Machine], id);
    assert Find(m, id, [Machine]) == if third < |m.cache[Machine]| then Some((Machine, third)) else None;
    assert Find(m, id, [User, Machine])
        == if second < |m.cache[User]| then Some((User, second)) else Find(m, id, [Machine]);
    assert Find(m, id, PERSISTENT)
        == if first < |m.cache[Project]| then Some((Project, first)) else Find(m, id, [User, Machine]);
  }

  lemma FirstIsOne(m: Store, id: string, s: Scope, i: nat, t: Scope, j: nat)
    requires Shaped(m) && FirstAt(m, id, s, i) && FirstAt(m, id, t, j)
    ensures s == t && i == j
  {
  }

  // q is r with what the patch gives, redacted if it is now sensitive.
  predicate IsPatched(env: Env, r: Record, p: Patch, q: Record) {
    var content := match p.content case None => r.content case Some(c) => c;
    && q.id == (match p.id case None => r.id case Some(id) => id)
    && q.scope == (match p.scope case None => r.scope case Some(s) => s)
    && q.tags == (match p.tags case None => r.tags case Some(tags) => tags)
    && q.sensitive == (match p.sensitive case None => r.sensitive case Some(b) => b)
    && q.editable == (match p.editable case None => r.editable case Some(b) => b)
    && q.rest == p.rest
    && q.content == if q.sensitive && q.scope != Secret then env.redact(content) else content
  }

  lemma PatchedAsGiven(env: Env, r: Record, p: Patch)
    ensures IsPatched(env, r, p, Patched(env, r, p))
  {
  }

  // The file of the scope, if it has one, is rewritten from its list; the others stay.
  predicate Rewritten(env: Env, m: Store, n: Store, scope: Scope)
    requires Shaped(n)
  {
    n.files == if Persistent(scope) then m.files[scope := Rebuilt(env, n.cache[scope])] else m.files
  }

  // An update changes the first record with the id, or the transient one under it if no list
  // has any, and rewrites the file of the scope the record then has. A record that is not
  // editable is left alone.
  lemma UpdateChangesTheFirst(env: Env, m: Store, id: string, p: Patch, s: Scope, i: nat) returns (q: Record)
    requires Shaped(m) && FirstAt(m, id, s, i)
    ensures var n := Update(env, m, id, p);
            && Shaped(n) && n.transient == m.transient && IsPatched(env, m.cache[s][i], p, q)
            && if m.cache[s][i].editable
               then n.cache == m.cache[s := m.cache[s][i := q]] && Rewritten(env, m, n, q.scope)
               else n == m
  {
    FindsTheFirst(m, id);
    var (t, j) := Find(m, id, PERSISTENT).value;
    FirstIsOne(m, id, s, i, t, j);
    q := Patched(env, m.cache[s][i], p);
    PatchedAsGiven(env, m.cache[s][i], p);
    UpdateAt(env, m, id, p, s, i);
    hide FirstAt, Find, Patched, IsPatched, Lists, Update, Rewritten, Shaped;
  }

  lemma UpdateAt(env: Env, m: Store, id: string, p: Patch, s: Scope, i: nat)
    requires Shaped(m) && Find(m, id, PERSISTENT) == Some((s, i))
    ensures var n, q := Update(env, m, id, p), Patched(env, m.cache[s][i], p);
            && Shaped(n) && n.transient == m.transient
            && if m.cache[s][i].editable
               then n.cache == m.cache[s := m.cache[s][i := q]] && Rewritten(env, m, n, q.scope)
               else n == m
  {
    hide Find, Patched;
  }

  lemma UpdateOtherwise(env: Env, m: Store, id: string, p: Patch) returns (q: Record)
    requires Shaped(m) && ListsNowhere(m, id)
    ensures var n := Update(env, m, id, p);
            && Shaped(n) && n.cache == m.cache
            && if id in m.transient && m.transient[id].editable
               then IsPatched(env, m.transient[id], p, q) && n.transient == m.transient[id := q]
                    && Rewritten(env, m, n, q.scope)
               else n == m
  {
    FindsTheFirst(m, id);
    if id in m.transient {
      q := Patched(env, m.transient[id], p);
      PatchedAsGiven(env, m.transient[id], p);
    } else {
      q := Record("", Project, "", [], false, false, "");
    }
    hide Find, Patched, IsPatched;
  }

  // Forgetting takes out the first record with the id, and no other, or else the transient one.
  lemma ForgetTakesTheFirst(env: Env, m: Store, id: string, s: Scope, i: nat)
    requires Shaped(m) && FirstAt(m, id, s, i)
    ensures var n := Forget(env, m, id);
            && Shaped(n) && n.transient == m.transient && Rewritten(env, m, n, s)
            && n.cache == m.cache[s := m.cache[s][..i] + m.cache[s][i + 1..]]
  {
    FindsTheFirst(m, id);
    var (t, j) := Find(m, id, PERSISTENT).value;
    FirstIsOne(m, id, s, i, t, j);
    hide FirstAt, Find, Lists;
  }

  lemma ForgetOtherwise(env: Env, m: Store, id: string)
    requires Shaped(m) && ListsNowhere(m, id)
    ensures Forget(env, m, id) == m.(transient := m.transient - {id})
  {
    FindsTheFirst(m, id);
  }

  // Loading a file gives the records of the lines that parse, in their order.
  lemma LoadedInOrder(env: Env, lines: seq<string>, line: string)
    ensures LoadLines(env, lines + [line])
         == LoadLines(env, lines)
            + (if AllSpace(line) then [] else match env.decode(line) case None => [] case Some(r) =>
                 [if r.sensitive && r.scope != Secret then r.(content := env.redact(r.content)) else r])
  {
    assert (lines + [line])[..|lines|] == lines;
    BlankIsSpace(line);
  }

  lemma {:induction false} LeftTrimmed(s: string)
    ensures TrimLeft(s) == "" <==> AllSpace(s)
  {
    if s != "" && Space(s[0]) {
      LeftTrimmed(s[1..]);
      assert forall c :: c in s <==> c == s[0] || c in s[1..];
    } else if s != "" {
      assert s[0] in s;
    }
  }

  lemma {:induction false} RightTrimmed(s: string)
    requires s != "" && !Space(s[0])
    ensures TrimRight(s) != ""
    decreases |s|
  {
    if |s| > 1 {
      RightTrimmed(s[..|s| - 1]);
    }
  }

  lemma BlankIsSpace(line: string)
    ensures Trim(line) == "" <==> AllSpace(line)
  {
    LeftTrimmed(line);
    TrimEnds(line);
    if TrimLeft(line) != "" {
      RightTrimmed(TrimLeft(line));
    }
  }
}
