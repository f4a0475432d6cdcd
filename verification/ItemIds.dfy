// The strings under which a turn files its items, and why the structured keys of
// Transcript stand for them faithfully.

module ItemIds {
  import opened Strings
  import opened Transcript

  // Step 0 keeps the unsuffixed id.
  function StepItemId(turnId: string, kind: string, step: nat): string {
    if step == 0 then turnId + ":" + kind else turnId + ":" + kind + "-" + Decimal(step)
  }

  function KindName(kind: ProseKind): string {
    match kind case Message => "agent-message" case Thought => "reasoning"
  }

  function Render(turnId: string, id: ItemId): string {
    match id
    case User(ordinal) => StepItemId(turnId, "user-message", ordinal)
    case Prose(kind, step) => StepItemId(turnId, KindName(kind), step)
    case Context(technique) => turnId + ":ctx:" + technique
    case Tool(callId) => callId
  }

  // The first item of a kind has the bare name; later ones carry their number.
  lemma RenderedAs(turnId: string, id: ItemId)
    ensures Render(turnId, id)
         == match id
            case User(n) => turnId + (if n == 0 then ":user-message" else ":user-message-" + Decimal(n))
            case Prose(Message, n) => turnId + (if n == 0 then ":agent-message" else ":agent-message-" + Decimal(n))
            case Prose(Thought, n) => turnId + (if n == 0 then ":reasoning" else ":reasoning-" + Decimal(n))
            case Context(technique) => turnId + (":ctx:" + technique)
            case Tool(callId) => callId
  {
    if id.User? || id.Prose? {
      var kind := if id.User? then "user-message" else KindName(id.kind);
      var n := if id.User? then id.ordinal else id.step;
      assert ":" + kind + "-" == ":" + (kind + "-");
      assert turnId + ":" + kind + "-" + Decimal(n) == turnId + (":" + kind + "-" + Decimal(n));
      assert turnId + ":" + kind == turnId + (":" + kind);
      NumberedKinds();
    }
  }

  lemma NumberedKinds()
    ensures ":" + "user-message" == ":user-message" && ":" + "user-message" + "-" == ":user-message-"
    ensures ":" + "agent-message" == ":agent-message" && ":" + "agent-message" + "-" == ":agent-message-"
    ensures ":" + "reasoning" == ":reasoning" && ":" + "reasoning" + "-" == ":reasoning-"
  {
  }

  // Tool call ids come from the model's provider; they never look like an id of this turn.
  predicate ForeignToolId(turnId: string, id: ItemId) {
    id.Tool? ==> !StartsWith(id.callId, turnId + ":")
  }

  // The part of a rendered id after "<turnId>:".
  function Local(id: ItemId): string
    requires !id.Tool?
  {
    match id
    case User(ordinal) => if ordinal == 0 then "user-message" else "user-message-" + Decimal(ordinal)
    case Prose(kind, step) => if step == 0 then KindName(kind) else KindName(kind) + "-" + Decimal(step)
    case Context(technique) => "ctx:" + technique
  }

  lemma RenderIsLocal(turnId: string, id: ItemId)
    requires !id.Tool?
    ensures Render(turnId, id) == turnId + ":" + Local(id)
  {
    match id
    case User(ordinal) =>
      assert "user-message" + "-" + Decimal(ordinal) == "user-message-" + Decimal(ordinal);
      assert turnId + ":" + "user-message" + "-" + Decimal(ordinal)
          == turnId + ":" + ("user-message" + "-" + Decimal(ordinal));
    case Prose(kind, step) =>
      assert turnId + ":" + KindName(kind) + "-" + Decimal(step)
          == turnId + ":" + (KindName(kind) + "-" + Decimal(step));
    case Context(technique) =>
      assert turnId + ":ctx:" + technique == turnId + ":" + ("ctx:" + technique);
  }

  // A name, then either nothing or a dash and a numeral: the numeral can be read back.
  lemma SuffixInjective(name: string, m: nat, n: nat)
    requires (if m == 0 then name else name + "-" + Decimal(m))
          == (if n == 0 then name else name + "-" + Decimal(n))
    ensures m == n
  {
    if m != 0 && n != 0 {
      assert (name + "-" + Decimal(m))[|name| + 1..] == Decimal(m);
      assert (name + "-" + Decimal(n))[|name| + 1..] == Decimal(n);
      DecimalInjective(m, n);
    }
  }

  lemma LocalInjective(a: ItemId, b: ItemId)
    requires !a.Tool? && !b.Tool? && Local(a) == Local(b)
    ensures a == b
  {
    var text := Local(a);
    assert a.User? ==> text[0] == 'u';
    assert a.Context? ==> text[0] == 'c';
    assert a.Prose? && a.kind == Message ==> text[0] == 'a';
    assert a.Prose? && a.kind == Thought ==> text[0] == 'r';
    match a
    case User(m) =>
      assert "user-message-" == "user-message" + "-";
      SuffixInjective("user-message", m, b.ordinal);
    case Prose(kind, m) =>
      SuffixInjective(KindName(kind), m, b.step);
    case Context(technique) =>
      assert Local(a)[4..] == technique && Local(b)[4..] == b.technique;
  }

  // Two keys that render to the same string are the same key, so a table keyed by the
  // strings and a table keyed by the structured keys behave alike.
  lemma RenderInjective(turnId: string, a: ItemId, b: ItemId)
    requires ForeignToolId(turnId, a) && ForeignToolId(turnId, b)
    requires Render(turnId, a) == Render(turnId, b)
    ensures a == b
  {
    if !a.Tool? {
      RenderIsLocal(turnId, a);
      StartsWithAppended(turnId + ":", Local(a));
    }
    if !b.Tool? {
      RenderIsLocal(turnId, b);
      StartsWithAppended(turnId + ":", Local(b));
    }
    if !a.Tool? && !b.Tool? {
      LocalInjective(a, b);
    }
  }

  // The prefix test that counts the user messages of a turn counts nothing else.
  lemma PrefixTestFindsUserMessages(turnId: string, id: ItemId)
    requires ForeignToolId(turnId, id)
    ensures StartsWith(Render(turnId, id), turnId + ":user-message") <==> id.User?
  {
    var prefix := turnId + ":user-message";
    assert prefix == turnId + ":" + "user-message";
    if id.Tool? {
      StartsWithLonger(id.callId, turnId + ":", "user-message");
    } else {
      RenderIsLocal(turnId, id);
      var rendered := Render(turnId, id);
      assert rendered[|turnId| + 1..] == Local(id);
      if id.User? {
        assert Local(id)[..12] == "user-message";
        assert rendered[..|prefix|] == prefix;
      } else {
        assert Local(id)[0] != 'u';
        assert rendered[|turnId| + 1] == Local(id)[0];
        assert prefix[|turnId| + 1] == 'u';
      }
    }
  }
}
