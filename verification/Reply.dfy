/** JSON values, as far as the wire formats look inside them. */
module Json {
  import opened Prelude

  /** `as_u64` sees a `U64`; a negative or fractional number is an `OtherNumber`. */
  datatype Number = U64(n: nat) | OtherNumber(text: string)

  datatype Value =
    | Null
    | Bool(b: bool)
    | Num(number: Number)
    | Str(text: string)
    | Array(items: seq<Value>)
    | Object(fields: map<string, Value>)

  /** `value.get(key)`: absent on anything but an object. */
  function Get(value: Value, key: string): Option<Value> {
    if value.Object? && key in value.fields then Some(value.fields[key]) else None
  }

  /** The string under `key`, if it is one. */
  function StringOf(value: Value, key: string): Option<string> {
    match Get(value, key)
    case Some(Str(text)) => Some(text)
    case _ => None
  }
}

/** The format-neutral reply, the gateway's errors and the events of one call. */
module Reply {
  import opened Prelude
  import opened Json

  datatype RequestedToolCall = RequestedToolCall(id: string, name: string, arguments: string)

  datatype TokenUsage = TokenUsage(
    promptTokens: nat,
    completionTokens: nat,
    totalTokens: nat,
    reasoningTokens: nat,
    cachedPromptTokens: nat,
    cacheCreationPromptTokens: nat)

  const NO_USAGE := TokenUsage(0, 0, 0, 0, 0, 0)

  datatype LlmReply = LlmReply(
    thinking: string,
    output: string,
    finishReason: Option<string>,
    toolCalls: seq<RequestedToolCall>,
    usage: TokenUsage,
    replay: seq<Value>)

  datatype GatewayError =
    | MissingApiKey
    | Auth
    | Forbidden(detail: string)
    | RateLimited(retryAfterSecs: Option<nat>)
    | Server(status: nat, detail: string, retryAfterSecs: Option<nat>)
    | Client(status: nat, detail: string)
    | ErrorBody(error: Value)
    | Timeout
    | Transport(detail: string)
    | InvalidRequest(detail: string)
    | Parse(detail: string)
    | EmptyChoices
    | Refused(text: string)
  {
    predicate IsRetryable() {
      match this
      case RateLimited(_) => true
      case Timeout => true
      case Transport(_) => true
      case Server(status, _, _) => status != 501 && status != 505
      case ErrorBody(error) => KindIsRetryable(error, "type") || KindIsRetryable(error, "code")
      case _ => false
    }

    function RetryAfterSecs(): Option<nat> {
      match this
      case RateLimited(secs) => secs
      case Server(_, _, secs) => secs
      case _ => None
    }
  }

  const RETRYABLE_ERROR_KINDS := {
    "overloaded_error", "api_error", "rate_limit_error", "rate_limit_exceeded", "server_error"
  }

  predicate KindIsRetryable(error: Value, key: string) {
    match StringOf(error, key)
    case Some(kind) => kind in RETRYABLE_ERROR_KINDS
    case None => false
  }

  datatype LlmEvent =
    | Text(fragment: string)
    | Thinking(fragment: string)
    | ToolArgs(index: nat, id: Option<string>, name: Option<string>, fragment: string)
    | Retry(attempt: nat, delayMs: nat)

  /** Whether the stream is over after a payload. */
  datatype Flow = More | Done

  function NonEmpty(text: Option<string>): Option<string> {
    if text == Some("") then None else text
  }

  function OrEmpty(text: Option<string>): string {
    match text case Some(s) => s case None => ""
  }

  function Pieces(parts: seq<string>): seq<string> {
    if parts == [] then []
    else (if parts[0] == "" then [] else [parts[0]]) + Pieces(parts[1..])
  }

  lemma {:induction false} PiecesAppend(a: seq<string>, b: seq<string>)
    ensures Pieces(a + b) == Pieces(a) + Pieces(b)
  {
    if a == [] {
      assert a + b == b;
    } else {
      assert (a + b)[1..] == a[1..] + b;
      PiecesAppend(a[1..], b);
    }
  }

  /** The answer text a list of events carries. */
  function TextOf(events: seq<LlmEvent>): string {
    if events == [] then ""
    else (if events[0].Text? then events[0].fragment else "") + TextOf(events[1..])
  }

  /** The argument text a list of events carries for call `index`. */
  function ArgsOf(events: seq<LlmEvent>, index: nat): string {
    if events == [] then ""
    else
      var event := events[0];
      (if event.ToolArgs? && event.index == index then event.fragment else "") + ArgsOf(events[1..], index)
  }

  lemma {:induction false} TextOfAppend(a: seq<LlmEvent>, b: seq<LlmEvent>)
    ensures TextOf(a + b) == TextOf(a) + TextOf(b)
  {
    if a == [] {
      assert a + b == b;
    } else {
      var text := if a[0].Text? then a[0].fragment else "";
      assert (a + b)[1..] == a[1..] + b && TextOf(a + b) == text + TextOf(a[1..] + b);
      TextOfAppend(a[1..], b);
      assert TextOf(a) == text + TextOf(a[1..]);
      hide TextOf;
      ConcatAssociates(text, TextOf(a[1..]), TextOf(b));
    }
  }

  lemma {:induction false} ArgsOfAppend(a: seq<LlmEvent>, b: seq<LlmEvent>, index: nat)
    ensures ArgsOf(a + b, index) == ArgsOf(a, index) + ArgsOf(b, index)
  {
    if a == [] {
      assert a + b == b;
    } else {
      var text := if a[0].ToolArgs? && a[0].index == index then a[0].fragment else "";
      assert (a + b)[1..] == a[1..] + b && ArgsOf(a + b, index) == text + ArgsOf(a[1..] + b, index);
      ArgsOfAppend(a[1..], b, index);
      assert ArgsOf(a, index) == text + ArgsOf(a[1..], index);
      hide ArgsOf;
      ConcatAssociates(text, ArgsOf(a[1..], index), ArgsOf(b, index));
    }
  }

  /** The reasoning that a list of events carries. */
  function ThoughtOf(events: seq<LlmEvent>): string {
    Flatten(seq(|events|, i requires 0 <= i < |events| => if events[i].Thinking? then events[i].fragment else ""))
  }

  lemma {:induction false} ThoughtAppend(a: seq<LlmEvent>, b: seq<LlmEvent>)
    ensures ThoughtOf(a + b) == ThoughtOf(a) + ThoughtOf(b)
  {
    var x := seq(|a|, i requires 0 <= i < |a| => if a[i].Thinking? then a[i].fragment else "");
    var y := seq(|b|, i requires 0 <= i < |b| => if b[i].Thinking? then b[i].fragment else "");
    var c := a + b;
    assert seq(|c|, i requires 0 <= i < |c| => if c[i].Thinking? then c[i].fragment else "") == x + y;
    FlattenAppend(x, y);
  }

  lemma {:induction false} OneThought(event: LlmEvent)
    ensures ThoughtOf([event]) == if event.Thinking? then event.fragment else ""
    ensures ThoughtOf([]) == ""
  {
    var x := if event.Thinking? then event.fragment else "";
    assert seq(1, i requires 0 <= i < 1 => if [event][i].Thinking? then [event][i].fragment else "") == [x];
    assert [x][1..] == [];
    assert Flatten([x]) == x + Flatten([]) == x;
  }
}
