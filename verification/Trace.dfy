/**
 The `model` rows of a trace (`TraceState` of `src/research/trace.rs`): each
 carries the messages added since the last request, or the whole request when
 it does not extend the last one.
 */
module Trace {
  import opened Prelude
  import opened Json
  import opened Reply
  import opened Budget
  import opened Transcript
  import opened Runner

  // ----- Messages as written -----

  function RoleName(role: Role): string {
    match role
    case SystemRole => "system"
    case UserRole => "user"
    case AssistantRole => "assistant"
    case ToolRole => "tool"
  }

  function CallJson(call: RequestedToolCall): Value {
    Object(map[
        "id" := Str(call.id), "type" := Str("function"),
        "function" := Object(map["name" := Str(call.name), "arguments" := Str(call.arguments)])])
  }

  function CallsJson(calls: seq<RequestedToolCall>): seq<Value> {
    if calls == [] then [] else [CallJson(calls[0])] + CallsJson(calls[1..])
  }

  /** The wire shape of a message, with the replay blocks the wire leaves out added back. */
  function MessageFields(message: ChatMessage): map<string, Value> {
    var content := if message.content.Some? then Str(message.content.value) else Null;
    var plain := map["role" := Str(RoleName(message.role)), "content" := content];
    var called :=
      if message.toolCalls.Some? then plain["tool_calls" := Array(CallsJson(message.toolCalls.value))] else plain;
    var paired :=
      if message.toolCallId.Some? then called["tool_call_id" := Str(message.toolCallId.value)] else called;
    if message.replay != [] then paired["replay" := Array(message.replay)] else paired
  }

  function MessageJson(message: ChatMessage): Value {
    Object(MessageFields(message))
  }

  function MessagesJson(messages: seq<ChatMessage>): seq<Value> {
    if messages == [] then [] else [MessageJson(messages[0])] + MessagesJson(messages[1..])
  }

  lemma {:induction false} MessagesJsonAppend(a: seq<ChatMessage>, b: seq<ChatMessage>)
    ensures MessagesJson(a + b) == MessagesJson(a) + MessagesJson(b)
  {
    if a == [] {
      assert a + b == b;
    } else {
      assert (a + b)[1..] == a[1..] + b;
      MessagesJsonAppend(a[1..], b);
    }
  }

  lemma {:induction false} MessagesJsonAt(messages: seq<ChatMessage>, i: nat)
    requires i < |messages|
    ensures |MessagesJson(messages)| == |messages| && MessagesJson(messages)[i] == MessageJson(messages[i])
  {
    if |messages| > 1 {
      MessagesJsonAt(messages[1..], if i > 0 then i - 1 else 0);
    } else {
      assert MessagesJson(messages[1..]) == [];
    }
  }

  lemma JsonTellsRoleAndContent(a: ChatMessage, b: ChatMessage)
    requires MessageJson(a) == MessageJson(b)
    ensures a.role == b.role && a.content == b.content
  {
    hide CallsJson;
    var x, y := MessageFields(a), MessageFields(b);
    assert x["role"] == Str(RoleName(a.role)) && y["role"] == Str(RoleName(b.role));
    assert x["content"] == y["content"];
  }

  /** The fields of a message as written, under the names of the wire. */
  lemma {:induction false} MessageTells(message: ChatMessage)
    ensures var fields := MessageFields(message);
            && "role" in fields && "content" in fields
            && fields["role"]
               == Str(if message.role.SystemRole? then "system" else if message.role.UserRole? then "user"
                      else if message.role.AssistantRole? then "assistant" else "tool")
            && fields["content"] == (if message.content.None? then Null else Str(message.content.value))
            && ("tool_calls" in fields <==> message.toolCalls.Some?)
            && (message.toolCalls.Some? ==> fields["tool_calls"] == Array(CallsJson(message.toolCalls.value)))
            && ("tool_call_id" in fields <==> message.toolCallId.Some?)
            && (message.toolCallId.Some? ==> fields["tool_call_id"] == Str(message.toolCallId.value))
            && ("replay" in fields <==> message.replay != [])
            && (message.replay != [] ==> fields["replay"] == Array(message.replay))
  {
    hide CallsJson;
    assert |"role"| == 4 && |"content"| == 7 && |"tool_calls"| == 10 && |"tool_call_id"| == 12 && |"replay"| == 6;
  }

  lemma {:induction false} CallTells(call: RequestedToolCall)
    ensures var fields := CallJson(call).fields;
            && fields.Keys == {"id", "type", "function"} && fields["id"] == Str(call.id)
            && fields["type"] == Str("function") && fields["function"].Object?
            && fields["function"].fields == map["name" := Str(call.name), "arguments" := Str(call.arguments)]
  {
  }

  lemma {:induction false} CallsReadBack(a: seq<RequestedToolCall>, b: seq<RequestedToolCall>)
    requires CallsJson(a) == CallsJson(b)
    ensures a == b
  {
    if a != [] && b != [] {
      CallTells(a[0]);
      CallTells(b[0]);
      assert CallsJson(a)[0] == CallJson(a[0]) && CallsJson(b)[0] == CallJson(b[0]);
      assert CallsJson(a)[1..] == CallsJson(a[1..]) && CallsJson(b)[1..] == CallsJson(b[1..]);
      CallsReadBack(a[1..], b[1..]);
      SameCallFields(a[0], b[0]);
      hide CallJson;
      assert a == [a[0]] + a[1..] && b == [b[0]] + b[1..];
    }
  }

  lemma {:induction false} SameCallFields(a: RequestedToolCall, b: RequestedToolCall)
    requires CallJson(a) == CallJson(b)
    ensures a == b
  {
    var x, y := CallJson(a).fields["function"].fields, CallJson(b).fields["function"].fields;
    assert x["name"] == y["name"] && x["arguments"] == y["arguments"];
    assert CallJson(a).fields["id"] == CallJson(b).fields["id"];
  }

  /** A message as written tells the whole message. */
  lemma {:induction false} MessagesReadBack(a: ChatMessage, b: ChatMessage)
    requires MessageJson(a) == MessageJson(b)
    ensures a == b
  {
    MessageTells(a);
    MessageTells(b);
    JsonTellsRoleAndContent(a, b);
    hide MessageFields, CallsJson;
    if a.toolCalls.Some? {
      CallsReadBack(a.toolCalls.value, b.toolCalls.value);
    }
  }

  // ----- Rows -----

  datatype TraceRow = TraceRow(
    system: Option<string>, messagesDelta: Option<seq<Value>>, messages: Option<seq<Value>>, full: bool)

  predicate StartsWithSystem(messages: seq<ChatMessage>) {
    messages != [] && messages[0].role.SystemRole?
  }

  /** A request as the trace keeps it: without its leading system message. */
  function Body(messages: seq<ChatMessage>): seq<Value> {
    MessagesJson(if StartsWithSystem(messages) then messages[1..] else messages)
  }

  /** The rebuild rule: a full row replaces the transcript, any other appends to it. */
  function Rebuilt(rows: seq<TraceRow>): seq<Value> {
    if rows == [] then []
    else
      var row := rows[|rows| - 1];
      if row.full then OrNothing(row.messages)
      else Rebuilt(rows[..|rows| - 1]) + OrNothing(row.messagesDelta)
  }

  function OrNothing(messages: Option<seq<Value>>): seq<Value> {
    if messages.Some? then messages.value else []
  }

  /** The row written for a request after `previous`, the body of the last one. */
  function RowFor(previous: Option<seq<Value>>, messages: seq<ChatMessage>): TraceRow {
    var body := Body(messages);
    match previous
    case None =>
      TraceRow(if StartsWithSystem(messages) then Some(messages[0].ContentText()) else None, Some(body), None, false)
    case Some(last) =>
      if last <= body then TraceRow(None, Some(body[|last|..]), None, false)
      else TraceRow(None, None, Some(body), true)
  }

  function LastBody(requests: seq<seq<ChatMessage>>): Option<seq<Value>> {
    if requests == [] then None else Some(Body(requests[|requests| - 1]))
  }

  function RowsOf(requests: seq<seq<ChatMessage>>): (rows: seq<TraceRow>)
    ensures |rows| == |requests|
  {
    if requests == [] then []
    else
      var earlier := requests[..|requests| - 1];
      RowsOf(earlier) + [RowFor(LastBody(earlier), requests[|requests| - 1])]
  }

  class TraceState {
    var sent: Option<seq<Value>>
    ghost var requests: seq<seq<ChatMessage>>

    ghost predicate Valid()
      reads this
    {
      sent == LastBody(requests)
    }

    constructor ()
      ensures Valid() && requests == []
    {
      sent, requests := None, [];
    }

    method ModelRow(messages: seq<ChatMessage>) returns (row: TraceRow)
      requires Valid()
      modifies this
      ensures Valid() && requests == old(requests) + [messages]
      ensures RowsOf(requests) == RowsOf(old(requests)) + [row]
    {
      assert (requests + [messages])[..|requests|] == requests;
      var current := Body(messages);
      match sent {
        case None =>
          var system := if StartsWithSystem(messages) then Some(messages[0].ContentText()) else None;
          row := TraceRow(system, Some(current), None, false);
        case Some(previous) =>
          if previous <= current {
            row := TraceRow(None, Some(current[|previous|..]), None, false);
          } else {
            row := TraceRow(None, None, Some(current), true);
          }
      }
      sent := Some(current);
      requests := requests + [messages];
    }
  }

  // ----- What the rows give back -----

  lemma RebuiltSnoc(rows: seq<TraceRow>, row: TraceRow)
    ensures Rebuilt(rows + [row])
         == if row.full then OrNothing(row.messages) else Rebuilt(rows) + OrNothing(row.messagesDelta)
    ensures Rebuilt([]) == []
  {
    assert (rows + [row])[..|rows|] == rows;
  }

  lemma RowsSnoc(requests: seq<seq<ChatMessage>>, n: nat)
    requires n < |requests|
    ensures RowsOf(requests[..n + 1]) == RowsOf(requests[..n]) + [RowFor(LastBody(requests[..n]), requests[n])]
  {
    assert requests[..n + 1][..n] == requests[..n];
  }

  /** The rows of the requests so far read back as the last of them. */
  lemma {:induction false} LastRequestIsRebuilt(requests: seq<seq<ChatMessage>>, n: nat)
    requires n <= |requests|
    ensures Rebuilt(RowsOf(requests[..n])) == OrNothing(LastBody(requests[..n]))
  {
    if n == 0 {
      assert requests[..0] == [];
    } else {
      LastRequestIsRebuilt(requests, n - 1);
      LastBodyAt(requests, n);
      hide *;
      RowsSnoc(requests, n - 1);
      var last := LastBody(requests[..n - 1]);
      RebuiltSnoc(RowsOf(requests[..n - 1]), RowFor(last, requests[n - 1]));
      OneRowRebuilds(last, requests[n - 1]);
    }
  }

  lemma {:induction false} LastBodyAt(requests: seq<seq<ChatMessage>>, n: nat)
    requires 0 < n <= |requests|
    ensures OrNothing(LastBody(requests[..n])) == Body(requests[n - 1])
  {
    hide Body;
    assert requests[..n][|requests[..n]| - 1] == requests[n - 1];
  }

  lemma {:induction false} OneRowRebuilds(last: Option<seq<Value>>, messages: seq<ChatMessage>)
    ensures var row := RowFor(last, messages);
            Body(messages)
            == if row.full then OrNothing(row.messages) else OrNothing(last) + OrNothing(row.messagesDelta)
  {
    hide Body;
    assert [] + Body(messages) == Body(messages);
  }

  lemma {:induction false} RowsArePrefixes(requests: seq<seq<ChatMessage>>, k: nat)
    requires k <= |requests|
    ensures RowsOf(requests)[..k] == RowsOf(requests[..k])
    decreases |requests|
  {
    hide RowFor;
    var n := |requests| - 1;
    if k <= n {
      RowsArePrefixes(requests[..n], k);
      assert requests[..n][..k] == requests[..k];
    } else {
      assert requests[..k] == requests && RowsOf(requests)[..k] == RowsOf(requests);
    }
  }

  /** Reading the rows up to any request gives back that request, its system message apart. */
  lemma RowsRebuildRequests(requests: seq<seq<ChatMessage>>, k: nat)
    requires k < |requests|
    ensures Rebuilt(RowsOf(requests)[..k + 1]) == Body(requests[k])
  {
    LastRequestIsRebuilt(requests, k + 1);
    RowsArePrefixes(requests, k + 1);
    hide Rebuilt, RowsOf, Body;
  }

  /** Only the first row carries the system prompt. */
  lemma {:induction false} SystemIsWrittenOnce(requests: seq<seq<ChatMessage>>, k: nat)
    requires k < |requests| && StartsWithSystem(requests[0])
    requires forall i :: 0 <= i < |requests| ==> StartsWithSystem(requests[i])
    ensures RowsOf(requests)[k].system == if k == 0 then Some(requests[0][0].ContentText()) else None
  {
    hide Body;
    if k < |requests| - 1 {
      SystemIsWrittenOnce(requests[..|requests| - 1], k);
    }
  }

  // ----- The requests of a run -----

  function Requests(log: seq<Row>): seq<seq<ChatMessage>> {
    if log == [] then [] else Requests(log[..|log| - 1]) + [log[|log| - 1].sent]
  }

  function DroppedAt(frame: Frame, row: Row): nat {
    Transcript.Dropped(frame.Fixed(), row.history, frame.maxChars)
  }

  /** While no further turn is dropped a request extends the last one. */
  lemma SameDropsExtend(frame: Frame, history: seq<HistoryEntry>, entry: HistoryEntry, dropped: nat)
    requires dropped <= |history|
    ensures Conversation(frame, history + [entry], dropped)
       == Conversation(frame, history, dropped) + EntryMessages(entry)
  {
    hide EntryMessages, NoteMessages;
    assert (history + [entry])[dropped..] == history[dropped..] + [entry];
    HistoryMessagesAppend(history[dropped..], [entry]);
    assert HistoryMessages([entry]) == EntryMessages(entry) + HistoryMessages([]);
    assert EntryMessages(entry) + [] == EntryMessages(entry);
    ConcatAssociates([TextMessage(UserRole, frame.goal)] + NoteMessages(dropped), HistoryMessages(history[dropped..]),
      EntryMessages(entry));
  }

  lemma FirstMessage(entry: HistoryEntry)
    requires Stored(entry)
    ensures var messages := EntryMessages(entry);
            messages != [] && (messages[0].role.AssistantRole?
                               || (messages[0].content.Some? && REPAIR_OPENING <= messages[0].content.value))
  {
    match entry {
      case TextTurn(assistant, observation) =>
        assert assistant == "" ==> EntryMessages(entry)[0] == TextMessage(UserRole, observation);
      case ToolTurn(text, calls, results, replay) =>
        assert EntryMessages(entry)[0] == ToolCallsMessage(text, calls, replay);
    }
  }

  /** The message after the goal is the note when turns were dropped, and is no note at all when none were. */
  lemma SecondMessage(frame: Frame, history: seq<HistoryEntry>, dropped: nat)
    requires dropped <= |history| && AllStored(history) && (dropped > 0 || history != [])
    ensures var messages := Conversation(frame, history, dropped);
            && |messages| >= 2
            && (dropped > 0 ==> messages[1] == TextMessage(UserRole, TruncationNote(dropped)))
            && (dropped == 0 ==> messages[1].role.AssistantRole?
                                 || (messages[1].content.Some? && REPAIR_OPENING <= messages[1].content.value))
  {
    hide TruncationNote;
    if dropped == 0 {
      assert Stored(history[0]);
      assert history[0..] == history;
      var first := EntryMessages(history[0]);
      FirstMessage(history[0]);
      assert HistoryMessages(history) == first + HistoryMessages(history[1..]);
      hide EntryMessages, HistoryMessages, Stored, AllStored;
      assert Conversation(frame, history, 0)[1] == first[0];
    }
  }

  lemma NoteIsNoRepair(dropped: nat)
    ensures !(REPAIR_OPENING <= TruncationNote(dropped))
  {
    assert TruncationNote(dropped)[0] == '[' && REPAIR_OPENING[0] == 'Y';
  }

  /** When more turns are dropped the request parts from the last one right after the goal. */
  lemma MoreDropsPart(frame: Frame, history: seq<HistoryEntry>, entry: HistoryEntry, before: nat, after: nat)
    requires AllStored(history) && Stored(entry) && history != []
    requires before <= |history| && after <= |history| + 1 && before < after
    ensures var old_, new_ := MessagesJson(Conversation(frame, history, before)),
                              MessagesJson(Conversation(frame, history + [entry], after));
            !(old_ <= new_)
  {
    var first, second := Conversation(frame, history, before), Conversation(frame, history + [entry], after);
    StoredSnoc(history, entry);
    SecondMessage(frame, history, before);
    SecondMessage(frame, history + [entry], after);
    hide Conversation, TruncationNote, AllStored, Stored;
    MessagesJsonAt(first, 1);
    MessagesJsonAt(second, 1);
    if MessageJson(first[1]) == MessageJson(second[1]) {
      JsonTellsRoleAndContent(first[1], second[1]);
      NoteIsNoRepair(after);
      NotesDiffer(before, after);
      assert false;
    }
  }

  lemma {:induction false} RequestsAre(log: seq<Row>, i: nat)
    requires i < |log|
    ensures |Requests(log)| == |log| && Requests(log)[i] == log[i].sent
  {
    var n := |log| - 1;
    if n > 0 {
      RequestsAre(log[..n], if i < n then i else 0);
    }
  }

  lemma {:induction false} RowAt(requests: seq<seq<ChatMessage>>, i: nat)
    requires i + 1 < |requests|
    ensures RowsOf(requests)[i + 1] == RowFor(Some(Body(requests[i])), requests[i + 1])
  {
    hide Body, RowFor;
    var n := |requests| - 1;
    if i + 1 < n {
      RowAt(requests[..n], i);
    }
  }

  lemma BodyOfRequest(frame: Frame, history: seq<HistoryEntry>)
    ensures var dropped := Transcript.Dropped(frame.Fixed(), history, frame.maxChars);
            Body(Assembled(frame, history)) == MessagesJson(Conversation(frame, history, dropped))
  {
    hide MessagesJson, Conversation, Transcript.Dropped;
    var dropped := Transcript.Dropped(frame.Fixed(), history, frame.maxChars);
    assert Assembled(frame, history)[1..] == Conversation(frame, history, dropped);
  }

  lemma FullExactlyWhenMoreDropped(frame: Frame, history: seq<HistoryEntry>, entry: HistoryEntry)
    requires AllStored(history) && Stored(entry)
    ensures RowFor(Some(Body(Assembled(frame, history))), Assembled(frame, history + [entry])).full
       <==> Transcript.Dropped(frame.Fixed(), history, frame.maxChars)
            != Transcript.Dropped(frame.Fixed(), history + [entry], frame.maxChars)
  {
    var fixed, grown := frame.Fixed(), history + [entry];
    var before, after := Transcript.Dropped(fixed, history, frame.maxChars),
                         Transcript.Dropped(fixed, grown, frame.maxChars);
    DropsOnlyGrow(fixed, history, entry, frame.maxChars);
    assert history == [] ==> before == after;
    hide Conversation, AllStored, Stored, MessagesJson, Body, Transcript.Dropped, Assembled;
    BodyOfRequest(frame, history);
    BodyOfRequest(frame, grown);
    if before == after {
      SameDropsExtend(frame, history, entry, before);
      MessagesJsonAppend(Conversation(frame, history, before), EntryMessages(entry));
    } else {
      MoreDropsPart(frame, history, entry, before, after);
    }
  }

  lemma RowIsItsRequest(frame: Frame, budget: LoopBudget, log: seq<Row>, i: nat)
    requires LogOk(frame, budget, log) && i < |log|
    ensures log[i].sent == Assembled(frame, log[i].history)
  {
    RowsAreOk(frame, budget, log, i);
    hide LogOk, Assembled, AllStored, BudgetFor, Searches;
  }

  lemma LastIsStored(history: seq<HistoryEntry>, entry: HistoryEntry, grown: seq<HistoryEntry>)
    requires grown == history + [entry] && AllStored(grown)
    ensures AllStored(history) && Stored(entry)
  {
    hide Stored;
    assert grown[|history|] == entry;
    assert forall i :: 0 <= i < |history| ==> grown[i] == history[i];
  }

  lemma DroppedIs(frame: Frame, row: Row)
    ensures DroppedAt(frame, row) == Transcript.Dropped(frame.Fixed(), row.history, frame.maxChars)
  {
  }

  /**
   In the trace of a run a row holds the whole request exactly when more turns were left out of it than of the
   one before.
   */
  lemma FullRowsMarkDrops(frame: Frame, budget: LoopBudget, log: seq<Row>, i: nat)
    requires LogOk(frame, budget, log) && i + 1 < |log|
    ensures |Requests(log)| == |log|
    ensures RowsOf(Requests(log))[i + 1].full <==> DroppedAt(frame, log[i]) != DroppedAt(frame, log[i + 1])
  {
    hide *;
    RequestsAre(log, i);
    RequestsAre(log, i + 1);
    RowAt(Requests(log), i);
    RowIsItsRequest(frame, budget, log, i);
    RowIsItsRequest(frame, budget, log, i + 1);
    HistoriesGrow(frame, budget, log, i, i + 1);
    var history, grown := log[i].history, log[i + 1].history;
    assert grown == history + [grown[i]];
    LastIsStored(history, grown[i], grown);
    DroppedIs(frame, log[i]);
    DroppedIs(frame, log[i + 1]);
    FullExactlyWhenMoreDropped(frame, history, grown[i]);
  }
}
