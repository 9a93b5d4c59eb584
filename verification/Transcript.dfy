/**
 The transcript of a run: what the loop keeps of each turn, which turns a
 request carries, and the messages they become
 (`src/research/agent_loop/context.rs`, the constructors of
 `src/llm/request.rs`). Page parts are in `Pages`.
 */
module Transcript {
  import opened Prelude
  import opened Json
  import opened Reply

  datatype ToolMessage = ToolMessage(id: string, content: string)

  /** Provider blocks an assistant message echoes, and their size as counted when they were parsed. */
  datatype ReplayBlocks = ReplayBlocks(blocks: seq<Value>, chars: nat)

  datatype HistoryEntry =
    | TextTurn(assistant: string, observation: string)
    | ToolTurn(text: string, calls: seq<RequestedToolCall>, results: seq<ToolMessage>, replay: ReplayBlocks)

  datatype Role = SystemRole | UserRole | AssistantRole | ToolRole

  datatype ChatMessage = ChatMessage(
    role: Role,
    content: Option<string>,
    toolCalls: Option<seq<RequestedToolCall>>,
    toolCallId: Option<string>,
    replay: seq<Value>)
  {
    function ContentText(): string {
      OrEmpty(content)
    }
  }

  function TextMessage(role: Role, content: string): ChatMessage {
    ChatMessage(role, Some(content), None, None, [])
  }

  function ToolCallsMessage(text: string, calls: seq<RequestedToolCall>, replay: ReplayBlocks): ChatMessage {
    ChatMessage(AssistantRole, NonEmpty(Some(text)), Some(calls), None, replay.blocks)
  }

  function ResultMessage(result: ToolMessage): ChatMessage {
    ChatMessage(ToolRole, Some(result.content), None, Some(result.id), [])
  }

  // ----- Size and truncation -----

  function CallsChars(calls: seq<RequestedToolCall>): nat {
    if calls == [] then 0
    else |calls[0].id| + |calls[0].name| + |calls[0].arguments| + CallsChars(calls[1..])
  }

  function ResultsChars(results: seq<ToolMessage>): nat {
    if results == [] then 0 else |results[0].id| + |results[0].content| + ResultsChars(results[1..])
  }

  function Chars(entry: HistoryEntry): nat {
    match entry
    case TextTurn(assistant, observation) => |assistant| + |observation|
    case ToolTurn(text, calls, results, replay) => |text| + replay.chars + CallsChars(calls) + ResultsChars(results)
  }

  function TotalChars(history: seq<HistoryEntry>): nat {
    if history == [] then 0 else Chars(history[0]) + TotalChars(history[1..])
  }

  /** Whether the entries fit beside the `fixed` characters of system prompt and goal. */
  predicate Fits(fixed: nat, history: seq<HistoryEntry>, maxChars: nat) {
    fixed + TotalChars(history) <= maxChars
  }

  /** How many oldest turns a request leaves out. */
  function Dropped(fixed: nat, history: seq<HistoryEntry>, maxChars: nat): (n: nat)
    ensures n <= |history|
  {
    if |history| <= 1 || Fits(fixed, history, maxChars) then 0
    else 1 + Dropped(fixed, history[1..], maxChars)
  }

  method TruncateHistory(fixed: nat, history: seq<HistoryEntry>, maxChars: nat)
    returns (surviving: seq<HistoryEntry>, dropped: nat)
    ensures dropped == Dropped(fixed, history, maxChars) && surviving == history[dropped..]
  {
    surviving, dropped := history, 0;
    while |surviving| > 1 && fixed + TotalChars(surviving) > maxChars
      invariant dropped <= |history| && surviving == history[dropped..]
      invariant Dropped(fixed, history, maxChars) == dropped + Dropped(fixed, surviving, maxChars)
      decreases |surviving|
    {
      surviving := surviving[1..];
      dropped := dropped + 1;
    }
  }

  lemma {:induction false} LongerIsLarger(history: seq<HistoryEntry>, i: nat, j: nat)
    requires i <= j <= |history|
    ensures TotalChars(history[j..]) <= TotalChars(history[i..])
    decreases j - i
  {
    if i < j {
      LongerIsLarger(history, i + 1, j);
      assert history[i..][1..] == history[i + 1..];
    }
  }

  /** What is left is the longest run of newest turns that fits, or the newest turn alone. */
  lemma {:induction false} LongestSuffixIsKept(fixed: nat, history: seq<HistoryEntry>, maxChars: nat, i: nat)
    requires i < |history|
    ensures Dropped(fixed, history, maxChars) < |history|
    ensures Dropped(fixed, history, maxChars) <= i <==> Fits(fixed, history[i..], maxChars) || i == |history| - 1
  {
    assert history[0..] == history;
    LongerIsLarger(history, 0, i);
    if |history| > 1 && !Fits(fixed, history, maxChars) {
      if i > 0 {
        LongestSuffixIsKept(fixed, history[1..], maxChars, i - 1);
        assert history[1..][i - 1..] == history[i..];
      } else {
        LongestSuffixIsKept(fixed, history[1..], maxChars, 0);
      }
    }
  }

  lemma {:induction false} TotalCharsAppend(a: seq<HistoryEntry>, b: seq<HistoryEntry>)
    ensures TotalChars(a + b) == TotalChars(a) + TotalChars(b)
  {
    if a == [] {
      assert a + b == b;
    } else {
      assert (a + b)[1..] == a[1..] + b;
      TotalCharsAppend(a[1..], b);
    }
  }

  /** A turn once dropped never comes back. */
  lemma DropsOnlyGrow(fixed: nat, history: seq<HistoryEntry>, entry: HistoryEntry, maxChars: nat)
    ensures Dropped(fixed, history, maxChars) <= Dropped(fixed, history + [entry], maxChars)
  {
    var grown := history + [entry];
    var d := Dropped(fixed, grown, maxChars);
    LongestSuffixIsKept(fixed, grown, maxChars, 0);
    LongestSuffixIsKept(fixed, grown, maxChars, d);
    if d < |history| {
      assert grown[d..] == history[d..] + [entry];
      TotalCharsAppend(history[d..], [entry]);
      LongestSuffixIsKept(fixed, history, maxChars, d);
    }
  }

  // ----- Messages -----

  function TruncationNote(dropped: nat): string {
    "[history truncated: " + Decimal(dropped) + " oldest turn(s) dropped]"
  }

  lemma NotesDiffer(m: nat, n: nat)
    requires m != n
    ensures TruncationNote(m) != TruncationNote(n)
  {
    var head, tail := "[history truncated: ", " oldest turn(s) dropped]";
    DecimalIsInjective(m, n);
    var a, b := TruncationNote(m), TruncationNote(n);
    assert a[|head|..|a| - |tail|] == Decimal(m);
    assert b[|head|..|b| - |tail|] == Decimal(n);
  }

  function ResultMessages(results: seq<ToolMessage>): seq<ChatMessage> {
    if results == [] then [] else [ResultMessage(results[0])] + ResultMessages(results[1..])
  }

  /** The messages of one turn: empty commentary has no message in a text turn and no content in a tool turn. */
  function EntryMessages(entry: HistoryEntry): seq<ChatMessage> {
    match entry
    case TextTurn(assistant, observation) =>
      (if assistant == "" then [] else [TextMessage(AssistantRole, assistant)]) + [TextMessage(UserRole, observation)]
    case ToolTurn(text, calls, results, replay) =>
      [ToolCallsMessage(text, calls, replay)] + ResultMessages(results)
  }

  function HistoryMessages(history: seq<HistoryEntry>): seq<ChatMessage> {
    if history == [] then [] else EntryMessages(history[0]) + HistoryMessages(history[1..])
  }

  function NoteMessages(dropped: nat): seq<ChatMessage> {
    if dropped > 0 then [TextMessage(UserRole, TruncationNote(dropped))] else []
  }

  /** The fixed inputs of a run: its prompt, its goal message and the context cap. */
  datatype Frame = Frame(system: string, goal: string, maxChars: nat)
  {
    function Fixed(): nat {
      |system| + |goal|
    }
  }

  /** The messages after the system message when the `dropped` oldest turns are left out. */
  function Conversation(frame: Frame, history: seq<HistoryEntry>, dropped: nat): seq<ChatMessage>
    requires dropped <= |history|
  {
    [TextMessage(UserRole, frame.goal)] + NoteMessages(dropped) + HistoryMessages(history[dropped..])
  }

  function Assembled(frame: Frame, history: seq<HistoryEntry>): seq<ChatMessage> {
    [TextMessage(SystemRole, frame.system)]
    + Conversation(frame, history, Dropped(frame.Fixed(), history, frame.maxChars))
  }

  lemma {:induction false} HistoryMessagesAppend(a: seq<HistoryEntry>, b: seq<HistoryEntry>)
    ensures HistoryMessages(a + b) == HistoryMessages(a) + HistoryMessages(b)
  {
    if a == [] {
      assert a + b == b;
    } else {
      assert (a + b)[1..] == a[1..] + b;
      HistoryMessagesAppend(a[1..], b);
      ConcatAssociates(EntryMessages(a[0]), HistoryMessages(a[1..]), HistoryMessages(b));
    }
  }

  method Assemble(frame: Frame, history: seq<HistoryEntry>) returns (messages: seq<ChatMessage>, dropped: nat)
    ensures messages == Assembled(frame, history) && dropped == Dropped(frame.Fixed(), history, frame.maxChars)
  {
    hide Dropped, TruncationNote, EntryMessages;
    var surviving;
    surviving, dropped := TruncateHistory(frame.Fixed(), history, frame.maxChars);
    messages := [TextMessage(SystemRole, frame.system)];
    messages := messages + [TextMessage(UserRole, frame.goal)];
    if dropped > 0 {
      messages := messages + [TextMessage(UserRole, TruncationNote(dropped))];
    }
    ghost var head := messages;
    assert head == [TextMessage(SystemRole, frame.system)]
                   + ([TextMessage(UserRole, frame.goal)] + NoteMessages(dropped));
    for i := 0 to |surviving|
      invariant messages == head + HistoryMessages(surviving[..i])
    {
      assert surviving[..i + 1] == surviving[..i] + [surviving[i]];
      HistoryMessagesAppend(surviving[..i], [surviving[i]]);
      assert HistoryMessages([surviving[i]]) == EntryMessages(surviving[i]) + [];
      var turn := MessagesOfEntry(surviving[i]);
      ConcatAssociates(head, HistoryMessages(surviving[..i]), turn);
      messages := messages + turn;
    }
    assert surviving[..|surviving|] == surviving;
    ConcatAssociates([TextMessage(SystemRole, frame.system)],
      [TextMessage(UserRole, frame.goal)] + NoteMessages(dropped), HistoryMessages(surviving));
  }

  lemma {:induction false} ResultMessagesAppend(a: seq<ToolMessage>, b: seq<ToolMessage>)
    ensures ResultMessages(a + b) == ResultMessages(a) + ResultMessages(b)
  {
    if a == [] {
      assert a + b == b;
    } else {
      assert (a + b)[1..] == a[1..] + b;
      ResultMessagesAppend(a[1..], b);
    }
  }

  method MessagesOfEntry(entry: HistoryEntry) returns (messages: seq<ChatMessage>)
    ensures messages == EntryMessages(entry)
  {
    messages := [];
    match entry {
      case TextTurn(assistant, observation) =>
        if assistant != "" {
          messages := messages + [TextMessage(AssistantRole, assistant)];
        }
        messages := messages + [TextMessage(UserRole, observation)];
      case ToolTurn(text, calls, results, replay) =>
        messages := messages + [ToolCallsMessage(text, calls, replay)];
        ghost var head := messages;
        for i := 0 to |results|
          invariant messages == head + ResultMessages(results[..i])
        {
          assert results[..i + 1] == results[..i] + [results[i]];
          ResultMessagesAppend(results[..i], [results[i]]);
          messages := messages + [ResultMessage(results[i])];
        }
        assert results[..|results|] == results;
    }
  }

  // ----- What is counted -----

  /** The characters a message carries: its text, its calls and the id it answers. */
  function Carried(message: ChatMessage): nat {
    |message.ContentText()|
    + (if message.toolCalls.Some? then CallsChars(message.toolCalls.value) else 0)
    + (if message.toolCallId.Some? then |message.toolCallId.value| else 0)
  }

  function CarriedByAll(messages: seq<ChatMessage>): nat {
    if messages == [] then 0 else Carried(messages[0]) + CarriedByAll(messages[1..])
  }

  lemma {:induction false} CarriedAppend(a: seq<ChatMessage>, b: seq<ChatMessage>)
    ensures CarriedByAll(a + b) == CarriedByAll(a) + CarriedByAll(b)
  {
    hide Carried;
    if a == [] {
      assert a + b == b;
    } else {
      assert (a + b)[1..] == a[1..] + b;
      CarriedAppend(a[1..], b);
    }
  }

  lemma {:induction false} ResultsCarried(results: seq<ToolMessage>)
    ensures CarriedByAll(ResultMessages(results)) == ResultsChars(results)
  {
    if results != [] {
      ResultsCarried(results[1..]);
      assert ResultMessages(results)[1..] == ResultMessages(results[1..]);
    }
  }

  /** A turn counts exactly what its messages carry, and the provider's blocks as they were sized. */
  lemma {:induction false} TurnsCountWhatTheyCarry(entry: HistoryEntry)
    ensures Chars(entry)
         == CarriedByAll(EntryMessages(entry)) + if entry.ToolTurn? then entry.replay.chars else 0
  {
    hide CallsChars;
    match entry {
      case TextTurn(assistant, observation) =>
        CarriedOne(TextMessage(UserRole, observation));
        if assistant != "" {
          CarriedAppend([TextMessage(AssistantRole, assistant)], [TextMessage(UserRole, observation)]);
          CarriedOne(TextMessage(AssistantRole, assistant));
        } else {
          assert [] + [TextMessage(UserRole, observation)] == [TextMessage(UserRole, observation)];
        }
        hide CarriedByAll;
      case ToolTurn(text, calls, results, replay) =>
        CarriedAppend([ToolCallsMessage(text, calls, replay)], ResultMessages(results));
        CarriedOne(ToolCallsMessage(text, calls, replay));
        ResultsCarried(results);
        hide CarriedByAll, ResultMessages, ResultsChars;
    }
  }

  lemma {:induction false} CarriedOne(message: ChatMessage)
    ensures CarriedByAll([message]) == Carried(message) && CarriedByAll([]) == 0
  {
    assert [message][1..] == [];
  }

  /** The calls of a turn count their ids, names and arguments. */
  lemma {:induction false} CallsCount(calls: seq<RequestedToolCall>, call: RequestedToolCall)
    ensures CallsChars([]) == 0
    ensures CallsChars([call] + calls) == |call.id + call.name + call.arguments| + CallsChars(calls)
  {
    assert ([call] + calls)[1..] == calls;
  }

  /** The note tells how many turns were left out. */
  lemma {:induction false} NoteTells(dropped: nat)
    ensures var note, head, tail := TruncationNote(dropped), "[history truncated: ", " oldest turn(s) dropped]";
            && note == head + Decimal(dropped) + tail && ReadDecimal(Decimal(dropped)) == dropped
  {
    DecimalReadsBack(dropped);
    hide Decimal, ReadDecimal;
  }
}
