/**
 The transcript on the Anthropic Messages wire (`map_messages` of
 `src/llm/anthropic.rs`).

 `WireOf` says what any list of messages becomes. For the transcripts a run
 builds, the wire is the turns one by one, so every `tool_use` message is
 answered at once and in full, and no other message answers anything.
 */
module MessagesRequest {
  import opened Prelude
  import opened Json
  import opened Reply
  import opened Transcript

  datatype Block =
    | TextBlock(text: string)
    | ReplayBlock(value: Value)
    | ToolUse(id: string, name: string, input: Value)
    | ToolResult(id: string, content: string)

  datatype WireMessage = UserWire(content: seq<Block>) | AssistantWire(content: seq<Block>)

  /** JSON text to a value, when it parses. */
  type JsonParser = string -> Option<Value>

  function ToolInput(parse: JsonParser, arguments: string): Value {
    match parse(arguments)
    case Some(value) => if value.Object? then value else Object(map[])
    case None => Object(map[])
  }

  // ----- What a message becomes -----

  function TextBlocks(text: string): seq<Block> {
    if IsBlank(text) then [] else [TextBlock(text)]
  }

  function ReplayAsBlocks(values: seq<Value>): seq<Block> {
    if values == [] then [] else ReplayAsBlocks(values[..|values| - 1]) + [ReplayBlock(values[|values| - 1])]
  }

  function ToolUses(parse: JsonParser, calls: seq<RequestedToolCall>): seq<Block> {
    if calls == [] then []
    else
      var call := calls[|calls| - 1];
      ToolUses(parse, calls[..|calls| - 1]) + [ToolUse(call.id, call.name, ToolInput(parse, call.arguments))]
  }

  function ResultBlock(message: ChatMessage): Block {
    ToolResult(OrEmpty(message.toolCallId), message.ContentText())
  }

  function ResultBlocks(messages: seq<ChatMessage>): seq<Block> {
    if messages == [] then []
    else ResultBlocks(messages[..|messages| - 1]) + [ResultBlock(messages[|messages| - 1])]
  }

  function Calls(message: ChatMessage): seq<RequestedToolCall> {
    if message.toolCalls.Some? then message.toolCalls.value else []
  }

  /** The one wire message of a message that is not a tool result, if anything of it is left. */
  function OwnWire(parse: JsonParser, message: ChatMessage): seq<WireMessage>
    requires !message.role.ToolRole?
  {
    match message.role
    case SystemRole => []
    case AssistantRole =>
      var content :=
        ReplayAsBlocks(message.replay) + TextBlocks(message.ContentText()) + ToolUses(parse, Calls(message));
      if content == [] then [] else [AssistantWire(content)]
    case _ =>
      if IsBlank(message.ContentText()) then [] else [UserWire([TextBlock(message.ContentText())])]
  }

  /** How many tool results a list of messages starts with. */
  function ToolRun(messages: seq<ChatMessage>): (n: nat)
    ensures n <= |messages|
    ensures forall i :: 0 <= i < n ==> messages[i].role.ToolRole?
    ensures n < |messages| ==> !messages[n].role.ToolRole?
  {
    if messages == [] || !messages[0].role.ToolRole? then 0 else 1 + ToolRun(messages[1..])
  }

  function ResultWire(messages: seq<ChatMessage>): seq<WireMessage> {
    if messages == [] then [] else [UserWire(ResultBlocks(messages))]
  }

  /** Each run of tool results is one user message; every other message stands for itself. */
  function WireOf(parse: JsonParser, messages: seq<ChatMessage>): seq<WireMessage>
    decreases |messages|
  {
    var n := ToolRun(messages);
    if n == |messages| then ResultWire(messages)
    else ResultWire(messages[..n]) + OwnWire(parse, messages[n]) + WireOf(parse, messages[n + 1..])
  }

  /** The system blocks: every system message with something to say. */
  function SystemOf(messages: seq<ChatMessage>): seq<Block> {
    if messages == [] then []
    else
      var last := messages[|messages| - 1];
      SystemOf(messages[..|messages| - 1]) + if last.role.SystemRole? then TextBlocks(last.ContentText()) else []
  }

  // ----- The loop -----

  method AssistantContent(parse: JsonParser, message: ChatMessage) returns (content: seq<Block>)
    ensures content
         == ReplayAsBlocks(message.replay) + TextBlocks(message.ContentText()) + ToolUses(parse, Calls(message))
  {
    content := [];
    for i := 0 to |message.replay|
      invariant content == ReplayAsBlocks(message.replay[..i])
    {
      assert message.replay[..i + 1][..i] == message.replay[..i];
      content := content + [ReplayBlock(message.replay[i])];
    }
    assert message.replay[..|message.replay|] == message.replay;
    if !IsBlank(message.ContentText()) {
      content := content + [TextBlock(message.ContentText())];
    }
    ghost var head := content;
    var calls := Calls(message);
    for i := 0 to |calls|
      invariant content == head + ToolUses(parse, calls[..i])
    {
      assert calls[..i + 1][..i] == calls[..i];
      content := content + [ToolUse(calls[i].id, calls[i].name, ToolInput(parse, calls[i].arguments))];
    }
    assert calls[..|calls|] == calls;
  }

  lemma {:induction false} ToolRunIs(messages: seq<ChatMessage>, n: nat)
    requires n <= |messages| && forall i :: 0 <= i < n ==> messages[i].role.ToolRole?
    requires n < |messages| ==> !messages[n].role.ToolRole?
    ensures ToolRun(messages) == n
  {
    if n > 0 {
      ToolRunIs(messages[1..], n - 1);
    }
  }

  lemma WireUnfolds(parse: JsonParser, messages: seq<ChatMessage>, n: nat)
    requires n == ToolRun(messages) < |messages|
    ensures WireOf(parse, messages)
         == ResultWire(messages[..n]) + OwnWire(parse, messages[n]) + WireOf(parse, messages[n + 1..])
  {
    hide OwnWire, ResultWire, ToolRun;
  }

  lemma WireStep(parse: JsonParser, messages: seq<ChatMessage>, from: nat, i: nat)
    requires from <= i < |messages| && !messages[i].role.ToolRole?
    requires forall j :: from <= j < i ==> messages[j].role.ToolRole?
    ensures WireOf(parse, messages[from..])
         == ResultWire(messages[from..i]) + OwnWire(parse, messages[i]) + WireOf(parse, messages[i + 1..])
  {
    hide WireOf, OwnWire, ResultWire, ToolRun;
    var rest := messages[from..];
    ToolRunIs(rest, i - from);
    WireUnfolds(parse, rest, i - from);
    assert rest[..i - from] == messages[from..i] && rest[i - from] == messages[i];
    assert rest[i - from + 1..] == messages[i + 1..];
  }

  lemma Reassociate<T>(a: seq<T>, b: seq<T>, c: seq<T>, d: seq<T>)
    ensures a + (b + c + d) == a + b + c + d
  {
  }

  lemma WireEnd(parse: JsonParser, messages: seq<ChatMessage>)
    requires forall j :: 0 <= j < |messages| ==> messages[j].role.ToolRole?
    ensures WireOf(parse, messages) == ResultWire(messages)
  {
    ToolRunIs(messages, |messages|);
  }

  lemma ResultBlocksSnoc(messages: seq<ChatMessage>, message: ChatMessage)
    ensures ResultBlocks(messages + [message]) == ResultBlocks(messages) + [ResultBlock(message)]
  {
    assert (messages + [message])[..|messages|] == messages;
  }

  lemma SystemSnoc(messages: seq<ChatMessage>, message: ChatMessage)
    ensures SystemOf(messages + [message])
         == SystemOf(messages) + if message.role.SystemRole? then TextBlocks(message.ContentText()) else []
    ensures SystemOf([]) == []
  {
    assert (messages + [message])[..|messages|] == messages;
  }

  lemma Empties(parse: JsonParser)
    ensures SystemOf([]) == [] && ResultBlocks([]) == [] && WireOf(parse, []) == []
  {
  }

  method Flush(wire: seq<WireMessage>, pending: seq<Block>, ghost results: seq<ChatMessage>)
    returns (flushed: seq<WireMessage>)
    requires pending == ResultBlocks(results)
    ensures flushed == wire + ResultWire(results)
  {
    flushed := if pending == [] then wire else wire + [UserWire(pending)];
  }

  /** What one message that is not a tool result adds to the system blocks and to the wire. */
  method MapOne(parse: JsonParser, message: ChatMessage) returns (system: seq<Block>, wire: seq<WireMessage>)
    requires !message.role.ToolRole?
    ensures system == if message.role.SystemRole? then TextBlocks(message.ContentText()) else []
    ensures wire == OwnWire(parse, message)
  {
    system, wire := [], [];
    match message.role {
      case SystemRole =>
        if !IsBlank(message.ContentText()) {
          system := [TextBlock(message.ContentText())];
        }
      case AssistantRole =>
        var content := AssistantContent(parse, message);
        if content != [] {
          wire := [AssistantWire(content)];
        }
      case _ =>
        if !IsBlank(message.ContentText()) {
          wire := [UserWire([TextBlock(message.ContentText())])];
        }
    }
  }

  method MapMessages(parse: JsonParser, messages: seq<ChatMessage>) returns (system: seq<Block>, wire: seq<WireMessage>)
    ensures system == SystemOf(messages) && wire == WireOf(parse, messages)
  {
    hide *;
    Empties(parse);
    assert messages[0..] == messages && messages[..0] == [] && messages[0..0] == [];
    system, wire := [], [];
    var pending: seq<Block> := [];
    ghost var from := 0;
    for i := 0 to |messages|
      invariant from <= i && pending == ResultBlocks(messages[from..i])
      invariant forall j :: from <= j < i ==> messages[j].role.ToolRole?
      invariant system == SystemOf(messages[..i])
      invariant WireOf(parse, messages) == wire + WireOf(parse, messages[from..])
    {
      var message := messages[i];
      assert messages[..i + 1] == messages[..i] + [message] && messages[from..i + 1] == messages[from..i] + [message];
      SystemSnoc(messages[..i], message);
      if message.role.ToolRole? {
        ResultBlocksSnoc(messages[from..i], message);
        pending := pending + [ResultBlock(message)];
      } else {
        ghost var was, before := from, wire;
        WireStep(parse, messages, from, i);
        wire := Flush(wire, pending, messages[from..i]);
        var blocks, own := MapOne(parse, message);
        system, wire, pending := system + blocks, wire + own, [];
        from := i + 1;
        Reassociate(before, ResultWire(messages[was..i]), own, WireOf(parse, messages[from..]));
        assert messages[from..i + 1] == [];
      }
    }
    assert messages[..|messages|] == messages && messages[from..|messages|] == messages[from..];
    WireEnd(parse, messages[from..]);
    wire := Flush(wire, pending, messages[from..]);
  }

  // ----- Nothing is lost -----

  /** What a message says on the wire, whoever's message it ends up in. */
  function BlocksOf(parse: JsonParser, message: ChatMessage): seq<Block> {
    match message.role
    case ToolRole => [ResultBlock(message)]
    case SystemRole => []
    case AssistantRole =>
      ReplayAsBlocks(message.replay) + TextBlocks(message.ContentText()) + ToolUses(parse, Calls(message))
    case UserRole => TextBlocks(message.ContentText())
  }

  function AllBlocks(parse: JsonParser, messages: seq<ChatMessage>): seq<Block> {
    if messages == [] then [] else BlocksOf(parse, messages[0]) + AllBlocks(parse, messages[1..])
  }

  function WireBlocks(wire: seq<WireMessage>): seq<Block> {
    if wire == [] then [] else wire[0].content + WireBlocks(wire[1..])
  }

  lemma {:induction false} AllBlocksAppend(parse: JsonParser, a: seq<ChatMessage>, b: seq<ChatMessage>)
    ensures AllBlocks(parse, a + b) == AllBlocks(parse, a) + AllBlocks(parse, b)
  {
    hide BlocksOf;
    if a == [] {
      assert a + b == b;
    } else {
      assert (a + b)[1..] == a[1..] + b;
      AllBlocksAppend(parse, a[1..], b);
      assert AllBlocks(parse, a) == BlocksOf(parse, a[0]) + AllBlocks(parse, a[1..]);
      assert AllBlocks(parse, a + b) == BlocksOf(parse, a[0]) + AllBlocks(parse, a[1..] + b);
      hide AllBlocks;
      ConcatAssociates(BlocksOf(parse, a[0]), AllBlocks(parse, a[1..]), AllBlocks(parse, b));
    }
  }

  lemma {:induction false} WireBlocksAppend(a: seq<WireMessage>, b: seq<WireMessage>)
    ensures WireBlocks(a + b) == WireBlocks(a) + WireBlocks(b)
  {
    if a == [] {
      assert a + b == b;
    } else {
      assert (a + b)[1..] == a[1..] + b;
      WireBlocksAppend(a[1..], b);
    }
  }

  lemma {:induction false} ResultsAreBlocks(parse: JsonParser, messages: seq<ChatMessage>)
    requires forall i :: 0 <= i < |messages| ==> messages[i].role.ToolRole?
    ensures AllBlocks(parse, messages) == ResultBlocks(messages) == WireBlocks(ResultWire(messages))
  {
    if messages != [] {
      var n := |messages| - 1;
      ResultsAreBlocks(parse, messages[..n]);
      assert messages == messages[..n] + [messages[n]];
      AllBlocksAppend(parse, messages[..n], [messages[n]]);
      assert AllBlocks(parse, [messages[n]]) == BlocksOf(parse, messages[n]) + [];
      assert WireBlocks([UserWire(ResultBlocks(messages))]) == ResultBlocks(messages) + [];
    }
  }

  lemma OwnWireIsItsBlocks(parse: JsonParser, message: ChatMessage)
    requires !message.role.ToolRole?
    ensures WireBlocks(OwnWire(parse, message)) == BlocksOf(parse, message)
  {
    hide ReplayAsBlocks, ToolUses, IsBlank;
    assert WireBlocks([]) == [];
    assert forall m: WireMessage :: WireBlocks([m]) == m.content + [];
  }

  /** No block is lost, doubled or moved past another, whatever the transcript. */
  lemma {:induction false} WireKeepsEveryBlock(parse: JsonParser, messages: seq<ChatMessage>)
    ensures WireBlocks(WireOf(parse, messages)) == AllBlocks(parse, messages)
    decreases |messages|
  {
    hide WireOf, OwnWire, ResultWire, ToolRun, ResultBlocks, BlocksOf;
    var n := ToolRun(messages);
    ResultsAreBlocks(parse, messages[..n]);
    if n == |messages| {
      assert messages[..n] == messages;
      WireEnd(parse, messages);
    } else {
      WireUnfolds(parse, messages, n);
      WireKeepsEveryBlock(parse, messages[n + 1..]);
      OwnWireIsItsBlocks(parse, messages[n]);
      var results, own, rest := ResultWire(messages[..n]), OwnWire(parse, messages[n]),
        WireOf(parse, messages[n + 1..]);
      WireBlocksAppend(results + own, rest);
      WireBlocksAppend(results, own);
      assert messages == messages[..n] + messages[n..];
      AllBlocksAppend(parse, messages[..n], messages[n..]);
      assert messages[n..][1..] == messages[n + 1..];
      ConcatAssociates(AllBlocks(parse, messages[..n]), BlocksOf(parse, messages[n]),
        AllBlocks(parse, messages[n + 1..]));
    }
  }

  // ----- Turn by turn -----

  function IdsOf(calls: seq<RequestedToolCall>): seq<string> {
    if calls == [] then [] else [calls[0].id] + IdsOf(calls[1..])
  }

  function ResultIds(results: seq<ToolMessage>): seq<string> {
    if results == [] then [] else [results[0].id] + ResultIds(results[1..])
  }

  /** What the loop guarantees of every turn it stores: at least one call, and one result per call in call order. */
  predicate Answers(entry: HistoryEntry) {
    entry.ToolTurn? ==> entry.calls != [] && ResultIds(entry.results) == IdsOf(entry.calls)
  }

  predicate AllAnswer(history: seq<HistoryEntry>) {
    forall i :: 0 <= i < |history| ==> Answers(history[i])
  }

  function TextWire(text: string, user: bool): seq<WireMessage> {
    if IsBlank(text) then []
    else if user then [UserWire([TextBlock(text)])]
    else [AssistantWire([TextBlock(text)])]
  }

  function ToolAnswers(results: seq<ToolMessage>): seq<Block> {
    if results == [] then [] else [ToolResult(results[0].id, results[0].content)] + ToolAnswers(results[1..])
  }

  function TurnWire(parse: JsonParser, entry: HistoryEntry): seq<WireMessage> {
    match entry
    case TextTurn(assistant, observation) => TextWire(assistant, false) + TextWire(observation, true)
    case ToolTurn(text, calls, results, replay) =>
      [AssistantWire(ReplayAsBlocks(replay.blocks) + TextBlocks(text) + ToolUses(parse, calls))]
      + [UserWire(ToolAnswers(results))]
  }

  function TurnsWire(parse: JsonParser, history: seq<HistoryEntry>): seq<WireMessage> {
    if history == [] then [] else TurnWire(parse, history[0]) + TurnsWire(parse, history[1..])
  }

  lemma WireAfterResults(parse: JsonParser, a: seq<ChatMessage>, b: seq<ChatMessage>)
    requires b != [] && !b[0].role.ToolRole?
    requires forall i :: 0 <= i < |a| ==> a[i].role.ToolRole?
    ensures WireOf(parse, a + b) == ResultWire(a) + WireOf(parse, b)
  {
    assert ResultWire([]) == [];
    hide WireOf, OwnWire, ToolRun, ResultWire;
    ToolRunIs(a + b, |a|);
    ToolRunIs(b, 0);
    WireUnfolds(parse, a + b, |a|);
    WireUnfolds(parse, b, 0);
    assert (a + b)[..|a|] == a && (a + b)[|a|] == b[0] && (a + b)[|a| + 1..] == b[1..] && b[..0] == [];
    ConcatAssociates(ResultWire(a), OwnWire(parse, b[0]), WireOf(parse, b[1..]));
    assert [] + OwnWire(parse, b[0]) == OwnWire(parse, b[0]);
  }

  /** A message that is not a tool result starts afresh. */
  lemma {:induction false} WireAppend(parse: JsonParser, a: seq<ChatMessage>, b: seq<ChatMessage>)
    requires b != [] ==> !b[0].role.ToolRole?
    ensures WireOf(parse, a + b) == WireOf(parse, a) + WireOf(parse, b)
    decreases |a|
  {
    hide WireOf, OwnWire, ToolRun, ResultWire;
    Empties(parse);
    var n := ToolRun(a);
    if b == [] {
      assert a + b == a;
    } else if n == |a| {
      WireEnd(parse, a);
      WireAfterResults(parse, a, b);
    } else {
      ToolRunIs(a + b, n);
      WireUnfolds(parse, a + b, n);
      WireUnfolds(parse, a, n);
      WireAppend(parse, a[n + 1..], b);
      assert (a + b)[..n] == a[..n] && (a + b)[n] == a[n] && (a + b)[n + 1..] == a[n + 1..] + b;
      ConcatAssociates(ResultWire(a[..n]) + OwnWire(parse, a[n]), WireOf(parse, a[n + 1..]), WireOf(parse, b));
    }
  }

  lemma OneMessage(parse: JsonParser, message: ChatMessage)
    requires !message.role.ToolRole?
    ensures WireOf(parse, [message]) == OwnWire(parse, message)
  {
    Empties(parse);
    WireUnfolds(parse, [message], 0);
    hide WireOf, OwnWire;
    assert [message][..0] == [] && [message][1..] == [];
    assert ResultWire([]) + OwnWire(parse, message) + [] == OwnWire(parse, message);
  }

  lemma TextMessageWire(parse: JsonParser, text: string, user: bool)
    ensures WireOf(parse, [TextMessage(if user then UserRole else AssistantRole, text)]) == TextWire(text, user)
  {
    var message := TextMessage(if user then UserRole else AssistantRole, text);
    OneMessage(parse, message);
    assert ReplayAsBlocks([]) == [] && ToolUses(parse, []) == [];
    hide IsBlank;
    assert [] + TextBlocks(text) + [] == TextBlocks(text);
  }

  lemma {:induction false} ResultMessagesAre(results: seq<ToolMessage>)
    ensures |ResultMessages(results)| == |results|
    ensures forall i :: 0 <= i < |results| ==> ResultMessages(results)[i] == ResultMessage(results[i])
  {
    if results != [] {
      ResultMessagesAre(results[1..]);
    }
  }

  lemma {:induction false} AnswersOfResults(results: seq<ToolMessage>)
    ensures ResultBlocks(ResultMessages(results)) == ToolAnswers(results)
  {
    if results != [] {
      var n := |results| - 1;
      AnswersOfResults(results[..n]);
      assert results == results[..n] + [results[n]];
      ResultMessagesAppend(results[..n], [results[n]]);
      assert ResultMessages([results[n]]) == [ResultMessage(results[n])];
      ResultBlocksSnoc(ResultMessages(results[..n]), ResultMessage(results[n]));
      ToolAnswersAppend(results[..n], [results[n]]);
    }
  }

  lemma {:induction false} ToolAnswersAppend(a: seq<ToolMessage>, b: seq<ToolMessage>)
    ensures ToolAnswers(a + b) == ToolAnswers(a) + ToolAnswers(b)
  {
    if a == [] {
      assert a + b == b;
    } else {
      assert (a + b)[1..] == a[1..] + b;
      ToolAnswersAppend(a[1..], b);
    }
  }

  /** One stored turn on the wire. */
  lemma TurnOnTheWire(parse: JsonParser, entry: HistoryEntry)
    requires Answers(entry)
    ensures WireOf(parse, EntryMessages(entry)) == TurnWire(parse, entry)
    ensures !EntryMessages(entry)[0].role.ToolRole?
  {
    hide WireOf, OwnWire, ResultWire, IsBlank;
    match entry {
      case TextTurn(assistant, observation) =>
        TextTurnOnTheWire(parse, assistant, observation);
      case ToolTurn(text, calls, results, replay) =>
        ToolTurnOnTheWire(parse, text, calls, results, replay);
    }
  }

  lemma TextTurnOnTheWire(parse: JsonParser, assistant: string, observation: string)
    ensures WireOf(parse, EntryMessages(TextTurn(assistant, observation)))
         == TurnWire(parse, TextTurn(assistant, observation))
  {
    assert IsBlank("");
    hide WireOf, IsBlank;
    TextMessageWire(parse, observation, true);
    var said := [TextMessage(UserRole, observation)];
    if assistant == "" {
      assert TextWire(assistant, false) == [];
      hide TextWire;
      assert [] + said == said && [] + TextWire(observation, true) == TextWire(observation, true);
    } else {
      hide TextWire;
      TextMessageWire(parse, assistant, false);
      WireAppend(parse, [TextMessage(AssistantRole, assistant)], said);
    }
  }

  lemma ToolTurnOnTheWire(
    parse: JsonParser, text: string, calls: seq<RequestedToolCall>, results: seq<ToolMessage>, replay: ReplayBlocks)
    requires calls != [] && ResultIds(results) == IdsOf(calls)
    ensures WireOf(parse, EntryMessages(ToolTurn(text, calls, results, replay)))
         == TurnWire(parse, ToolTurn(text, calls, results, replay))
  {
    var call, answers := ToolCallsMessage(text, calls, replay), ResultMessages(results);
    assert results != [] && OrEmpty(NonEmpty(Some(text))) == text;
    ResultMessagesAre(results);
    AnswersOfResults(results);
    assert ToolUses(parse, calls) != [];
    CallThenResults(parse, call, answers);
    hide WireOf, ToolUses, ToolAnswers, ReplayAsBlocks, TextBlocks, IdsOf, ResultIds;
  }

  /** A message followed by results alone is that message on the wire, then one message of the results. */
  lemma CallThenResults(parse: JsonParser, call: ChatMessage, answers: seq<ChatMessage>)
    requires !call.role.ToolRole? && forall i :: 0 <= i < |answers| ==> answers[i].role.ToolRole?
    ensures WireOf(parse, [call] + answers) == OwnWire(parse, call) + ResultWire(answers)
  {
    hide WireOf, OwnWire, ResultWire, ToolRun;
    ToolRunIs([call] + answers, 0);
    WireUnfolds(parse, [call] + answers, 0);
    assert ([call] + answers)[..0] == [] && ([call] + answers)[1..] == answers;
    WireEnd(parse, answers);
    WireEnd(parse, []);
    Empties(parse);
    assert [] + OwnWire(parse, call) == OwnWire(parse, call);
  }

  /** The stored turns on the wire, whichever of them a request carries. */
  lemma {:induction false} TurnsOnTheWire(parse: JsonParser, history: seq<HistoryEntry>)
    requires AllAnswer(history)
    ensures WireOf(parse, HistoryMessages(history)) == TurnsWire(parse, history)
    ensures HistoryMessages(history) != [] ==> !HistoryMessages(history)[0].role.ToolRole?
  {
    Empties(parse);
    if history != [] {
      TurnsOnTheWire(parse, history[1..]);
      TurnOnTheWire(parse, history[0]);
      hide WireOf, EntryMessages, TurnWire;
      WireAppend(parse, EntryMessages(history[0]), HistoryMessages(history[1..]));
    }
  }

  /** The messages before the turns: the goal, and the note when turns were dropped. */
  function HeadWire(frame: Frame, dropped: nat): seq<WireMessage> {
    TextWire(frame.goal, true) + if dropped > 0 then TextWire(TruncationNote(dropped), true) else []
  }

  lemma ConversationOnTheWire(parse: JsonParser, frame: Frame, history: seq<HistoryEntry>, dropped: nat)
    requires AllAnswer(history) && dropped <= |history|
    ensures WireOf(parse, Conversation(frame, history, dropped))
         == HeadWire(frame, dropped) + TurnsWire(parse, history[dropped..])
  {
    hide WireOf, TurnsWire, HistoryMessages, TextWire, TruncationNote;
    var goal, turns := [TextMessage(UserRole, frame.goal)], HistoryMessages(history[dropped..]);
    TurnsOnTheWire(parse, history[dropped..]);
    TextMessageWire(parse, frame.goal, true);
    if dropped > 0 {
      TextMessageWire(parse, TruncationNote(dropped), true);
      WireAppend(parse, goal, NoteMessages(dropped));
    } else {
      assert goal + [] == goal;
      assert TextWire(frame.goal, true) + [] == TextWire(frame.goal, true);
    }
    WireAppend(parse, goal + NoteMessages(dropped), turns);
  }

  predicate NoSystem(messages: seq<ChatMessage>) {
    forall i :: 0 <= i < |messages| ==> !messages[i].role.SystemRole?
  }

  lemma {:induction false} TurnsHoldNoSystem(history: seq<HistoryEntry>)
    ensures NoSystem(HistoryMessages(history))
  {
    if history != [] {
      TurnsHoldNoSystem(history[1..]);
      if history[0].ToolTurn? {
        ResultMessagesAre(history[0].results);
      }
      hide ResultMessages;
      assert NoSystem(EntryMessages(history[0]));
    }
  }

  lemma {:induction false} OnlySystemCounts(first: ChatMessage, messages: seq<ChatMessage>)
    requires first.role.SystemRole? && NoSystem(messages)
    ensures SystemOf([first] + messages) == TextBlocks(first.ContentText())
  {
    if messages == [] {
      assert [first] + [] == [first];
      SystemSnoc([], first);
      assert [] + [first] == [first];
    } else {
      var n := |messages| - 1;
      OnlySystemCounts(first, messages[..n]);
      assert [first] + messages == [first] + messages[..n] + [messages[n]];
      SystemSnoc([first] + messages[..n], messages[n]);
    }
  }

  /**
   A request at any truncation level is the goal, the note and the turns it carries, each turn translated by
   itself; the system prompt goes beside them.
   */
  lemma RequestOnTheWire(parse: JsonParser, frame: Frame, history: seq<HistoryEntry>, dropped: nat)
    requires AllAnswer(history) && dropped <= |history|
    ensures var messages := [TextMessage(SystemRole, frame.system)] + Conversation(frame, history, dropped);
            && WireOf(parse, messages) == HeadWire(frame, dropped) + TurnsWire(parse, history[dropped..])
            && SystemOf(messages) == TextBlocks(frame.system)
  {
    hide WireOf, SystemOf, HistoryMessages, TruncationNote, HeadWire, TurnsWire, TextBlocks;
    var system, conversation := TextMessage(SystemRole, frame.system), Conversation(frame, history, dropped);
    ConversationOnTheWire(parse, frame, history, dropped);
    WireAppend(parse, [system], conversation);
    OneMessage(parse, system);
    assert [] + WireOf(parse, conversation) == WireOf(parse, conversation);
    TurnsHoldNoSystem(history[dropped..]);
    assert NoSystem(conversation);
    OnlySystemCounts(system, conversation);
  }

  // ----- Every tool_use is answered -----

  function UseIds(content: seq<Block>): seq<string> {
    if content == [] then []
    else (if content[0].ToolUse? then [content[0].id] else []) + UseIds(content[1..])
  }

  function AnswerIds(content: seq<Block>): seq<string> {
    if content == [] then []
    else (if content[0].ToolResult? then [content[0].id] else []) + AnswerIds(content[1..])
  }

  predicate OnlyResults(content: seq<Block>) {
    forall i :: 0 <= i < |content| ==> content[i].ToolResult?
  }

  /** `answer` is one user message holding nothing but the results for the uses of `call`, in their order. */
  predicate AnswersCall(call: WireMessage, answer: WireMessage) {
    && call.AssistantWire? && UseIds(call.content) != []
    && answer.UserWire? && OnlyResults(answer.content) && AnswerIds(answer.content) == UseIds(call.content)
  }

  /** Every message with uses is answered by the next one, and no other message holds results. */
  predicate Answered(wire: seq<WireMessage>) {
    && (forall i :: 0 <= i < |wire| && UseIds(wire[i].content) != [] ==>
          i + 1 < |wire| && AnswersCall(wire[i], wire[i + 1]))
    && (forall i :: 0 <= i < |wire| && AnswerIds(wire[i].content) != [] ==>
          i > 0 && AnswersCall(wire[i - 1], wire[i]))
  }

  lemma AnsweredAppend(a: seq<WireMessage>, b: seq<WireMessage>)
    requires Answered(a) && Answered(b)
    ensures Answered(a + b)
  {
    hide UseIds, AnswerIds, AnswersCall;
    var wire := a + b;
    forall i | 0 <= i < |wire| && UseIds(wire[i].content) != []
      ensures i + 1 < |wire| && AnswersCall(wire[i], wire[i + 1])
    {
      assert wire[i] == if i < |a| then a[i] else b[i - |a|];
    }
    forall i | 0 <= i < |wire| && AnswerIds(wire[i].content) != []
      ensures i > 0 && AnswersCall(wire[i - 1], wire[i])
    {
      assert wire[i] == if i < |a| then a[i] else b[i - |a|];
    }
  }

  lemma {:induction false} UseIdsAppend(a: seq<Block>, b: seq<Block>)
    ensures UseIds(a + b) == UseIds(a) + UseIds(b)
    ensures AnswerIds(a + b) == AnswerIds(a) + AnswerIds(b)
  {
    if a == [] {
      assert a + b == b;
    } else {
      assert (a + b)[1..] == a[1..] + b && (a + b)[0] == a[0];
      UseIdsAppend(a[1..], b);
      var uses, answers := if a[0].ToolUse? then [a[0].id] else [], if a[0].ToolResult? then [a[0].id] else [];
      ConcatAssociates(uses, UseIds(a[1..]), UseIds(b));
      ConcatAssociates(answers, AnswerIds(a[1..]), AnswerIds(b));
    }
  }

  lemma {:induction false} IdsAppend(a: seq<RequestedToolCall>, b: seq<RequestedToolCall>)
    ensures IdsOf(a + b) == IdsOf(a) + IdsOf(b)
  {
    if a == [] {
      assert a + b == b;
    } else {
      assert (a + b)[1..] == a[1..] + b;
      IdsAppend(a[1..], b);
    }
  }

  lemma {:induction false} UsesNameTheirCalls(parse: JsonParser, calls: seq<RequestedToolCall>)
    ensures UseIds(ToolUses(parse, calls)) == IdsOf(calls) && AnswerIds(ToolUses(parse, calls)) == []
  {
    if calls != [] {
      var n := |calls| - 1;
      UsesNameTheirCalls(parse, calls[..n]);
      var last := ToolUse(calls[n].id, calls[n].name, ToolInput(parse, calls[n].arguments));
      UseIdsAppend(ToolUses(parse, calls[..n]), [last]);
      assert UseIds([last]) == [last.id] + UseIds([]) && AnswerIds([last]) == [] + AnswerIds([]);
      assert calls == calls[..n] + [calls[n]];
      IdsAppend(calls[..n], [calls[n]]);
      assert IdsOf([calls[n]]) == [calls[n].id] + IdsOf([]);
    }
  }

  lemma {:induction false} ReplayNamesNothing(values: seq<Value>)
    ensures UseIds(ReplayAsBlocks(values)) == AnswerIds(ReplayAsBlocks(values)) == []
  {
    if values != [] {
      var n := |values| - 1;
      ReplayNamesNothing(values[..n]);
      UseIdsAppend(ReplayAsBlocks(values[..n]), [ReplayBlock(values[n])]);
      assert UseIds([ReplayBlock(values[n])]) == [] + UseIds([]);
      assert AnswerIds([ReplayBlock(values[n])]) == [] + AnswerIds([]);
    }
  }

  lemma {:induction false} AnswersNameTheirResults(results: seq<ToolMessage>)
    ensures AnswerIds(ToolAnswers(results)) == ResultIds(results) && UseIds(ToolAnswers(results)) == []
    ensures OnlyResults(ToolAnswers(results))
  {
    if results != [] {
      AnswersNameTheirResults(results[1..]);
      var first := ToolResult(results[0].id, results[0].content);
      assert ToolAnswers(results)[1..] == ToolAnswers(results[1..]);
      assert UseIds(ToolAnswers(results)) == [] + UseIds(ToolAnswers(results[1..]));
    }
  }

  lemma {:induction false} TextNamesNothing(text: string)
    ensures UseIds([TextBlock(text)]) == AnswerIds([TextBlock(text)]) == []
    ensures UseIds(TextBlocks(text)) == AnswerIds(TextBlocks(text)) == []
  {
    hide IsBlank;
    assert [TextBlock(text)][1..] == [];
  }

  lemma {:induction false} TextIsAnswered(text: string, user: bool)
    ensures Answered(TextWire(text, user))
  {
    TextNamesNothing(text);
    hide IsBlank, UseIds, AnswerIds, AnswersCall;
  }

  lemma TurnIsAnswered(parse: JsonParser, entry: HistoryEntry)
    requires Answers(entry)
    ensures Answered(TurnWire(parse, entry))
  {
    hide Answered, TextWire, ToolUses, ToolAnswers, ReplayAsBlocks, TextBlocks, IdsOf, ResultIds, UseIds, AnswerIds;
    match entry {
      case TextTurn(assistant, observation) =>
        TextIsAnswered(assistant, false);
        TextIsAnswered(observation, true);
        AnsweredAppend(TextWire(assistant, false), TextWire(observation, true));
      case ToolTurn(text, calls, results, replay) =>
        var uses := ReplayAsBlocks(replay.blocks) + TextBlocks(text) + ToolUses(parse, calls);
        AssistantNamesItsCalls(parse, text, calls, replay);
        AnswersNameTheirResults(results);
        IdsAreSome(calls);
        PairIsAnswered(uses, ToolAnswers(results));
        hide Answered;
    }
  }

  lemma {:induction false} IdsAreSome(calls: seq<RequestedToolCall>)
    requires calls != []
    ensures IdsOf(calls) != []
  {
  }

  lemma AssistantNamesItsCalls(parse: JsonParser, text: string, calls: seq<RequestedToolCall>, replay: ReplayBlocks)
    ensures var blocks := ReplayAsBlocks(replay.blocks) + TextBlocks(text) + ToolUses(parse, calls);
            UseIds(blocks) == IdsOf(calls) && AnswerIds(blocks) == []
  {
    hide *;
    ReplayNamesNothing(replay.blocks);
    UsesNameTheirCalls(parse, calls);
    TextNamesNothing(text);
    UseIdsAppend(ReplayAsBlocks(replay.blocks), TextBlocks(text));
    UseIdsAppend(ReplayAsBlocks(replay.blocks) + TextBlocks(text), ToolUses(parse, calls));
    assert [] + [] + IdsOf(calls) == IdsOf(calls);
  }

  lemma PairIsAnswered(uses: seq<Block>, answers: seq<Block>)
    requires UseIds(uses) != [] && AnswerIds(uses) == []
    requires OnlyResults(answers) && AnswerIds(answers) == UseIds(uses) && UseIds(answers) == []
    ensures Answered([AssistantWire(uses)] + [UserWire(answers)])
  {
    hide UseIds, AnswerIds, OnlyResults;
    var wire := [AssistantWire(uses)] + [UserWire(answers)];
    assert AnswersCall(wire[0], wire[1]);
  }

  lemma {:induction false} TurnsAreAnswered(parse: JsonParser, history: seq<HistoryEntry>)
    requires AllAnswer(history)
    ensures Answered(TurnsWire(parse, history))
  {
    if history != [] {
      hide Answered, TurnWire;
      TurnIsAnswered(parse, history[0]);
      TurnsAreAnswered(parse, history[1..]);
      AnsweredAppend(TurnWire(parse, history[0]), TurnsWire(parse, history[1..]));
    }
  }

  /**
   In every request a run can send, however many turns were dropped, each message with `tool_use` blocks is
   followed at once by one user message holding exactly their results in order, and results occur nowhere else.
   */
  lemma EveryToolUseIsAnswered(parse: JsonParser, frame: Frame, history: seq<HistoryEntry>, dropped: nat)
    requires AllAnswer(history) && dropped <= |history|
    ensures Answered(WireOf(parse, [TextMessage(SystemRole, frame.system)] + Conversation(frame, history, dropped)))
  {
    hide WireOf, Answered, TurnsWire, TextWire, Conversation;
    RequestOnTheWire(parse, frame, history, dropped);
    TextIsAnswered(frame.goal, true);
    if dropped > 0 {
      TextIsAnswered(TruncationNote(dropped), true);
      AnsweredAppend(TextWire(frame.goal, true), TextWire(TruncationNote(dropped), true));
    } else {
      assert TextWire(frame.goal, true) + [] == TextWire(frame.goal, true);
    }
    TurnsAreAnswered(parse, history[dropped..]);
    AnsweredAppend(HeadWire(frame, dropped), TurnsWire(parse, history[dropped..]));
  }

  // ----- Block by block -----

  /** The input a call is sent with: its arguments when they are an object, else an empty one. */
  predicate InputTells(parse: JsonParser, arguments: string, input: Value) {
    match parse(arguments)
    case Some(Object(fields)) => input == Object(fields)
    case _ => input == Object(map[])
  }

  predicate EchoesAre(blocks: seq<Block>, values: seq<Value>) {
    |blocks| == |values| && forall i :: 0 <= i < |blocks| ==> blocks[i] == ReplayBlock(values[i])
  }

  predicate UsesAre(parse: JsonParser, blocks: seq<Block>, calls: seq<RequestedToolCall>) {
    && |blocks| == |calls|
    && forall i :: 0 <= i < |blocks| ==>
         && blocks[i].ToolUse? && blocks[i].id == calls[i].id && blocks[i].name == calls[i].name
         && InputTells(parse, calls[i].arguments, blocks[i].input)
  }

  predicate AnswersAre(blocks: seq<Block>, results: seq<ToolMessage>) {
    && |blocks| == |results|
    && forall i :: 0 <= i < |blocks| ==> blocks[i] == ToolResult(results[i].id, results[i].content)
  }

  lemma {:induction false} UsesTell(parse: JsonParser, calls: seq<RequestedToolCall>)
    ensures UsesAre(parse, ToolUses(parse, calls), calls)
  {
    if calls != [] {
      UsesTell(parse, calls[..|calls| - 1]);
    }
  }

  lemma {:induction false} EchoesTell(values: seq<Value>)
    ensures EchoesAre(ReplayAsBlocks(values), values)
  {
    if values != [] {
      EchoesTell(values[..|values| - 1]);
    }
  }

  lemma {:induction false} AnswersTell(results: seq<ToolMessage>)
    ensures AnswersAre(ToolAnswers(results), results)
  {
    if results != [] {
      AnswersTell(results[1..]);
    }
  }

  /** A text is sent as one block, and not at all when it has no visible character. */
  lemma {:induction false} TextsTell(text: string)
    ensures TextBlocks(text) == [] <==> forall i :: 0 <= i < |text| ==> IsWhitespace(text[i])
    ensures TextBlocks(text) != [] ==> TextBlocks(text) == [TextBlock(text)]
  {
  }

  /** Who says what: the answer text is the assistant's; a repair, the goal and the note of dropped turns the user's. */
  lemma {:induction false} SpeakersTell(parse: JsonParser, assistant: string, observation: string, frame: Frame)
    ensures TurnWire(parse, TextTurn(assistant, observation))
         == (if IsBlank(assistant) then [] else [AssistantWire([TextBlock(assistant)])])
            + (if IsBlank(observation) then [] else [UserWire([TextBlock(observation)])])
    ensures HeadWire(frame, 0) == if IsBlank(frame.goal) then [] else [UserWire([TextBlock(frame.goal)])]
    ensures forall dropped: nat :: dropped > 0 ==>
              HeadWire(frame, dropped) == HeadWire(frame, 0) + [UserWire([TextBlock(TruncationNote(dropped))])]
  {
    forall dropped: nat
      ensures !IsBlank(TruncationNote(dropped))
    {
      assert TruncationNote(dropped)[0] == '[' && !IsWhitespace('[');
    }
    hide IsBlank, TruncationNote;
  }

  /**
   The two messages of a tool turn, block by block: the provider's blocks, the text if it has
   any, and every call with its input; then one result for every call.
   */
  lemma {:induction false} ToolTurnTells(
    parse: JsonParser, text: string, calls: seq<RequestedToolCall>, results: seq<ToolMessage>, replay: ReplayBlocks)
    returns (echoes: seq<Block>, uses: seq<Block>, answers: seq<Block>)
    ensures TurnWire(parse, ToolTurn(text, calls, results, replay))
         == [AssistantWire(echoes + TextBlocks(text) + uses)] + [UserWire(answers)]
    ensures EchoesAre(echoes, replay.blocks) && UsesAre(parse, uses, calls) && AnswersAre(answers, results)
  {
    echoes, uses, answers := ReplayAsBlocks(replay.blocks), ToolUses(parse, calls), ToolAnswers(results);
    EchoesTell(replay.blocks);
    UsesTell(parse, calls);
    AnswersTell(results);
    hide ReplayAsBlocks, TextBlocks, ToolUses, ToolAnswers, EchoesAre, UsesAre, AnswersAre;
  }
}
