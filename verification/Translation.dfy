/** The agent's chat messages, and their translation into the Anthropic request. */
module Translation {
  import opened Text
  import opened Assembly

  /** Every role but the first three is taken for the user's. */
  datatype Role = System | Tool | Assistant | User

  datatype Message = Message(role: Role, content: string, calls: seq<ToolCall>, toolCallId: string, name: string)

  /** A decoded JSON value; a text that does not decode is taken for Null. */
  datatype Json = Null | Value(text: string)

  const EMPTY_OBJECT := Value("{}")
  const SEPARATOR := "\n\n"

  datatype Content = TextBlock(text: string) | ToolUse(id: string, name: string, input: Json)

  datatype WireMessage =
    | UserText(text: string)
    | ToolResult(toolUseId: string, content: string)
    | AssistantBlocks(blocks: seq<Content>)

  // ----- the loop

  function Input(parse: string -> Json, arguments: string): Json {
    if arguments == "" || parse(arguments).Null? then EMPTY_OBJECT else parse(arguments)
  }

  function Uses(parse: string -> Json, calls: seq<ToolCall>): seq<Content> {
    seq(|calls|, k requires 0 <= k < |calls| => ToolUse(calls[k].id, calls[k].name, Input(parse, calls[k].arguments)))
  }

  function Translate(parse: string -> Json, m: Message): WireMessage {
    if m.role == Tool then ToolResult(m.toolCallId, m.content)
    else if m.role == Assistant then
      AssistantBlocks((if m.content == "" then [] else [TextBlock(m.content)]) + Uses(parse, m.calls))
    else UserText(m.content)
  }

  function Spoken(messages: seq<Message>): seq<Message> {
    if messages == [] then []
    else
      var before, last := Spoken(messages[..|messages| - 1]), messages[|messages| - 1];
      if last.role == System then before else before + [last]
  }

  function SystemTexts(messages: seq<Message>): seq<string> {
    if messages == [] then []
    else
      var before, last := SystemTexts(messages[..|messages| - 1]), messages[|messages| - 1];
      if last.role == System then before + [last.content] else before
  }

  function Mapped(parse: string -> Json, h: seq<Message>): seq<WireMessage> {
    seq(|h|, k requires 0 <= k < |h| => Translate(parse, h[k]))
  }

  function TranslateAll(parse: string -> Json, messages: seq<Message>): seq<WireMessage> {
    Mapped(parse, Spoken(messages))
  }

  lemma SpokenAppend(messages: seq<Message>, m: Message)
    ensures Spoken(messages + [m]) == if m.role == System then Spoken(messages) else Spoken(messages) + [m]
    ensures SystemTexts(messages + [m]) ==
      if m.role == System then SystemTexts(messages) + [m.content] else SystemTexts(messages)
  {
    assert (messages + [m])[..|messages|] == messages;
  }

  lemma SpokenOneMore(a: seq<Message>, b: seq<Message>, m: Message)
    requires Spoken(a + b) == Spoken(a) + Spoken(b)
    ensures Spoken(a + (b + [m])) == Spoken(a) + Spoken(b + [m])
  {
    SpokenAppend(b, m);
    SpokenAppend(a + b, m);
    Associates(a, b, [m]);
    if m.role != System {
      Associates(Spoken(a), Spoken(b), [m]);
    }
  }

  lemma {:induction false} SpokenConcatenates(a: seq<Message>, b: seq<Message>)
    ensures Spoken(a + b) == Spoken(a) + Spoken(b)
  {
    if b == [] {
      assert a + b == a && Spoken(a) + [] == Spoken(a);
    } else {
      SpokenConcatenates(a, b[..|b| - 1]);
      SpokenOneMore(a, b[..|b| - 1], b[|b| - 1]);
      assert b == b[..|b| - 1] + [b[|b| - 1]];
    }
  }

  lemma SystemTextsOneMore(a: seq<Message>, b: seq<Message>, m: Message)
    requires SystemTexts(a + b) == SystemTexts(a) + SystemTexts(b)
    ensures SystemTexts(a + (b + [m])) == SystemTexts(a) + SystemTexts(b + [m])
  {
    SpokenAppend(b, m);
    SpokenAppend(a + b, m);
    Associates(a, b, [m]);
    if m.role == System {
      Associates(SystemTexts(a), SystemTexts(b), [m.content]);
    }
  }

  lemma {:induction false} SystemTextsConcatenate(a: seq<Message>, b: seq<Message>)
    ensures SystemTexts(a + b) == SystemTexts(a) + SystemTexts(b)
  {
    if b == [] {
      assert a + b == a && SystemTexts(a) + [] == SystemTexts(a);
    } else {
      SystemTextsConcatenate(a, b[..|b| - 1]);
      SystemTextsOneMore(a, b[..|b| - 1], b[|b| - 1]);
      assert b == b[..|b| - 1] + [b[|b| - 1]];
    }
  }

  lemma MappedConcatenates(parse: string -> Json, a: seq<Message>, b: seq<Message>)
    ensures Mapped(parse, a + b) == Mapped(parse, a) + Mapped(parse, b)
  {
  }

  /** Conversations translate piece by piece, and each message to a system text or to one message of its kind. */
  lemma TranslationsConcatenate(parse: string -> Json, a: seq<Message>, b: seq<Message>, m: Message)
    ensures TranslateAll(parse, a + b) == TranslateAll(parse, a) + TranslateAll(parse, b)
    ensures SystemTexts(a + b) == SystemTexts(a) + SystemTexts(b)
    ensures SystemTexts([m]) == if m.role == System then [m.content] else []
    ensures |TranslateAll(parse, [m])| == if m.role == System then 0 else 1
  {
    SpokenConcatenates(a, b);
    SystemTextsConcatenate(a, b);
    MappedConcatenates(parse, Spoken(a), Spoken(b));
    SpokenAppend([], m);
    assert [] + [m] == [m];
  }

  method AssistantContent(parse: string -> Json, m: Message) returns (content: seq<Content>)
    ensures content == (if m.content == "" then [] else [TextBlock(m.content)]) + Uses(parse, m.calls)
  {
    content := if m.content == "" then [] else [TextBlock(m.content)];
    ghost var text := content;
    for j := 0 to |m.calls|
      invariant content == text + Uses(parse, m.calls)[..j]
    {
      var call := m.calls[j];
      var input := if call.arguments == "" then Null else parse(call.arguments);
      if input == Null {
        input := EMPTY_OBJECT;
      }
      content := content + [ToolUse(call.id, call.name, input)];
    }
    assert Uses(parse, m.calls)[..|m.calls|] == Uses(parse, m.calls);
  }

  method ToAnthropicMessages(parse: string -> Json, messages: seq<Message>)
    returns (system: string, out: seq<WireMessage>)
    ensures system == Join(SystemTexts(messages), SEPARATOR)
    ensures out == TranslateAll(parse, messages)
  {
    var sys: seq<string> := [];
    out := [];
    for k := 0 to |messages|
      invariant sys == SystemTexts(messages[..k])
      invariant out == TranslateAll(parse, messages[..k])
    {
      var m := messages[k];
      assert messages[..k + 1][..k] == messages[..k];
      if m.role == System {
        sys := sys + [m.content];
      } else if m.role == Tool {
        out := out + [ToolResult(m.toolCallId, m.content)];
      } else if m.role == Assistant {
        var content := AssistantContent(parse, m);
        out := out + [AssistantBlocks(content)];
      } else {
        out := out + [UserText(m.content)];
      }
    }
    assert messages[..|messages|] == messages;
    system := Join(sys, SEPARATOR);
  }

  // ----- the meaning of a conversation

  datatype Use = Use(id: string, name: string, input: Json)

  datatype Meaning = Says(text: string) | Answers(id: string, text: string) | Asks(text: string, uses: seq<Use>)

  /** What a message means, whatever the wire format: a call's arguments are what they decode to. */
  function Meant(parse: string -> Json, m: Message): Meaning {
    if m.role == Tool then Answers(m.toolCallId, m.content)
    else if m.role == Assistant then
      Asks(m.content,
           seq(|m.calls|, k requires 0 <= k < |m.calls| =>
             Use(m.calls[k].id, m.calls[k].name, parse(m.calls[k].arguments))))
    else Says(m.content)
  }

  /** The meaning with an empty object for every input that is missing. */
  function Supplied(parse: string -> Json, m: Message): Meaning {
    if m.role != Assistant then Meant(parse, m)
    else
      Asks(m.content,
           seq(|m.calls|, k requires 0 <= k < |m.calls| =>
             Use(m.calls[k].id, m.calls[k].name, Input(parse, m.calls[k].arguments))))
  }

  /** The arguments are there and decode, or stand for the empty object anyway. */
  predicate Survives(parse: string -> Json, arguments: string) {
    (arguments != "" && !parse(arguments).Null?) || parse(arguments) == EMPTY_OBJECT
  }

  predicate AllSurvive(parse: string -> Json, m: Message) {
    m.role == Assistant ==> forall k :: 0 <= k < |m.calls| ==> Survives(parse, m.calls[k].arguments)
  }

  function TextOf(blocks: seq<Content>): string {
    if blocks == [] then ""
    else (if blocks[0].TextBlock? then blocks[0].text else "") + TextOf(blocks[1..])
  }

  function UsesOf(blocks: seq<Content>): seq<Use> {
    if blocks == [] then []
    else (if blocks[0].ToolUse? then [Use(blocks[0].id, blocks[0].name, blocks[0].input)] else []) + UsesOf(blocks[1..])
  }

  /** What the receiver of the request reads. */
  function ReadBack(w: WireMessage): Meaning {
    match w
    case UserText(text) => Says(text)
    case ToolResult(id, content) => Answers(id, content)
    case AssistantBlocks(blocks) => Asks(TextOf(blocks), UsesOf(blocks))
  }

  lemma {:induction false} ReadUses(parse: string -> Json, calls: seq<ToolCall>)
    ensures TextOf(Uses(parse, calls)) == ""
    ensures |UsesOf(Uses(parse, calls))| == |calls|
    ensures forall k :: 0 <= k < |calls| ==>
      UsesOf(Uses(parse, calls))[k] == Use(calls[k].id, calls[k].name, Input(parse, calls[k].arguments))
  {
    if calls != [] {
      ReadUses(parse, calls[1..]);
      assert Uses(parse, calls)[1..] == Uses(parse, calls[1..]);
    }
  }

  lemma ReadAssistant(content: string, uses: seq<Content>)
    requires TextOf(uses) == ""
    ensures
      var blocks := (if content == "" then [] else [TextBlock(content)]) + uses;
      TextOf(blocks) == content && UsesOf(blocks) == UsesOf(uses)
  {
    if content == "" {
      assert [] + uses == uses;
    } else {
      assert ([TextBlock(content)] + uses)[1..] == uses;
      assert [] + UsesOf(uses) == UsesOf(uses);
    }
  }

  lemma ReadsAsSupplied(parse: string -> Json, m: Message)
    ensures ReadBack(Translate(parse, m)) == Supplied(parse, m)
  {
    if m.role == Assistant {
      ReadUses(parse, m.calls);
      ReadAssistant(m.content, Uses(parse, m.calls));
      assert UsesOf(Uses(parse, m.calls)) == Supplied(parse, m).uses;
    }
  }

  lemma SuppliedIsMeant(parse: string -> Json, m: Message)
    ensures Supplied(parse, m) == Meant(parse, m) <==> AllSurvive(parse, m)
  {
    if m.role == Assistant {
      var supplied, meant := Supplied(parse, m).uses, Meant(parse, m).uses;
      forall k | 0 <= k < |m.calls|
        ensures supplied[k] == meant[k] <==> Survives(parse, m.calls[k].arguments)
      {
      }
      if AllSurvive(parse, m) {
        assert supplied == meant;
      }
    }
  }

  /**
   * The conversation survives: same turns, same order, same texts, ids, names and inputs, but
   * for an empty object in place of arguments that are missing or do not decode. A turn keeps
   * its meaning exactly when it has no such arguments.
   */
  lemma TranslationKeepsMeaning(parse: string -> Json, messages: seq<Message>)
    ensures |TranslateAll(parse, messages)| == |Spoken(messages)|
    ensures forall k :: 0 <= k < |Spoken(messages)| ==>
      ReadBack(TranslateAll(parse, messages)[k]) == Supplied(parse, Spoken(messages)[k])
    ensures forall k :: 0 <= k < |Spoken(messages)| ==>
      (ReadBack(TranslateAll(parse, messages)[k]) == Meant(parse, Spoken(messages)[k]) <==>
       AllSurvive(parse, Spoken(messages)[k]))
  {
    forall k | 0 <= k < |Spoken(messages)|
      ensures ReadBack(TranslateAll(parse, messages)[k]) == Supplied(parse, Spoken(messages)[k])
      ensures Supplied(parse, Spoken(messages)[k]) == Meant(parse, Spoken(messages)[k]) <==>
        AllSurvive(parse, Spoken(messages)[k])
    {
      ReadsAsSupplied(parse, Spoken(messages)[k]);
      SuppliedIsMeant(parse, Spoken(messages)[k]);
    }
  }

  // ----- calls and their results

  /** An assistant message with calls, and then one tool message for each call, in order. */
  ghost predicate Round(h: seq<Message>, n: nat) {
    && 1 <= n < |h|
    && h[0].role == Assistant && |h[0].calls| == n
    && forall k :: 1 <= k <= n ==> h[k].role == Tool && h[k].toolCallId == h[0].calls[k - 1].id
  }

  /** Whole rounds only. */
  ghost predicate Rounds(h: seq<Message>)
    decreases |h|
  {
    h != [] ==> h[0].role == Assistant && Round(h, |h[0].calls|) && Rounds(h[|h[0].calls| + 1..])
  }

  ghost predicate WireRound(w: seq<WireMessage>, n: nat) {
    && 1 <= n < |w|
    && w[0].AssistantBlocks? && |UsesOf(w[0].blocks)| == n
    && forall k :: 1 <= k <= n ==> w[k].ToolResult? && w[k].toolUseId == UsesOf(w[0].blocks)[k - 1].id
  }

  ghost predicate WireRounds(w: seq<WireMessage>)
    decreases |w|
  {
    w != [] ==>
      && w[0].AssistantBlocks?
      && WireRound(w, |UsesOf(w[0].blocks)|)
      && WireRounds(w[|UsesOf(w[0].blocks)| + 1..])
  }

  lemma RoundAtFront(round: seq<Message>, n: nat, more: seq<Message>)
    requires Round(round, n)
    ensures Round(round + more, n)
  {
    assert forall k :: 0 <= k < |round| ==> (round + more)[k] == round[k];
  }

  lemma {:induction false} RoundsAppend(h: seq<Message>, round: seq<Message>, n: nat)
    requires Rounds(h) && |round| == n + 1 && Round(round, n)
    ensures Rounds(h + round)
    decreases |h|
  {
    if h == [] {
      assert h + round == round && round[n + 1..] == [];
    } else {
      var m := |h[0].calls|;
      RoundsAppend(h[m + 1..], round, n);
      RoundAtFront(h, m, round);
      assert (h + round)[m + 1..] == h[m + 1..] + round;
    }
  }

  /** A history as the runner sends it: the system text, the user's intent, then whole rounds. */
  ghost predicate WellPaired(h: seq<Message>) {
    && |h| >= 2
    && h[0].role == System
    && h[1].role == User
    && Rounds(h[2..])
  }

  lemma AssistantTranslates(parse: string -> Json, m: Message)
    requires m.role == Assistant
    ensures
      var w := Translate(parse, m);
      && w.AssistantBlocks? && |UsesOf(w.blocks)| == |m.calls|
      && forall k :: 0 <= k < |m.calls| ==> UsesOf(w.blocks)[k].id == m.calls[k].id
  {
    ReadUses(parse, m.calls);
    ReadAssistant(m.content, Uses(parse, m.calls));
  }

  lemma RoundTranslates(parse: string -> Json, h: seq<Message>, n: nat)
    requires Round(h, n)
    ensures WireRound(Mapped(parse, h), n)
  {
    AssistantTranslates(parse, h[0]);
  }

  lemma MappedTail(parse: string -> Json, h: seq<Message>, n: nat)
    requires n <= |h|
    ensures Mapped(parse, h)[n..] == Mapped(parse, h[n..])
  {
  }

  lemma {:induction false} RoundsTranslate(parse: string -> Json, h: seq<Message>)
    requires Rounds(h)
    ensures WireRounds(Mapped(parse, h))
    decreases |h|
  {
    if h != [] {
      var n := |h[0].calls|;
      RoundsTranslate(parse, h[n + 1..]);
      RoundTranslates(parse, h, n);
      MappedTail(parse, h, n + 1);
    }
  }

  lemma {:induction false} RoundsHaveNoSystem(h: seq<Message>)
    requires Rounds(h)
    ensures forall k :: 0 <= k < |h| ==> h[k].role != System
    decreases |h|
  {
    if h != [] {
      var n := |h[0].calls|;
      RoundsHaveNoSystem(h[n + 1..]);
      assert forall k :: n < k < |h| ==> h[k] == h[n + 1..][k - n - 1];
    }
  }

  lemma {:induction false} NothingHoisted(h: seq<Message>)
    requires forall k :: 0 <= k < |h| ==> h[k].role != System
    ensures Spoken(h) == h && SystemTexts(h) == []
  {
    if h != [] {
      NothingHoisted(h[..|h| - 1]);
    }
  }

  lemma {:induction false} FirstHoisted(first: Message, h: seq<Message>)
    requires first.role == System && forall k :: 0 <= k < |h| ==> h[k].role != System
    ensures Spoken([first] + h) == h && SystemTexts([first] + h) == [first.content]
  {
    var all := [first] + h;
    if h == [] {
      assert all[..0] == [];
    } else {
      FirstHoisted(first, h[..|h| - 1]);
      assert all[..|all| - 1] == [first] + h[..|h| - 1];
    }
  }

  /**
   * A well-paired history goes out as its system text, its intent, and rounds in which each
   * tool_use id is answered, in order, before anything else is said.
   */
  lemma PairingSurvives(parse: string -> Json, h: seq<Message>)
    requires WellPaired(h)
    ensures Join(SystemTexts(h), SEPARATOR) == h[0].content
    ensures
      var out := TranslateAll(parse, h);
      && |out| == |h| - 1
      && out[0] == UserText(h[1].content)
      && WireRounds(out[1..])
  {
    HistoryParts(h);
    HistoryTranslates(parse, h[1], h[2..]);
    assert h[1..] == [h[1]] + h[2..];
  }

  lemma HistoryTranslates(parse: string -> Json, user: Message, rounds: seq<Message>)
    requires user.role == User && Rounds(rounds)
    ensures
      var out := Mapped(parse, [user] + rounds);
      out[0] == UserText(user.content) && WireRounds(out[1..])
  {
    RoundsTranslate(parse, rounds);
    MappedTail(parse, [user] + rounds, 1);
    assert ([user] + rounds)[1..] == rounds;
  }

  lemma HistoryParts(h: seq<Message>)
    requires WellPaired(h)
    ensures Spoken(h) == h[1..] && SystemTexts(h) == [h[0].content]
  {
    RoundsHaveNoSystem(h[2..]);
    assert forall k :: 2 <= k < |h| ==> h[k] == h[2..][k - 2];
    assert h == [h[0]] + h[1..];
    FirstHoisted(h[0], h[1..]);
  }
}
