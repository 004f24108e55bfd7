/** Chat messages and the provider-neutral token estimate of agent/core/context.py. */
module Messages {
  import opened Options

  // `Other` stands for any role outside the four the chat protocol knows.
  datatype Role = System | User | Assistant | Tool | Other(name: string)

  // The "id" of one raw tool call: absent or falsy, a string, or some other truthy value.
  datatype CallId = Missing | Text(text: string) | NonText(shown: string)

  // One raw tool call; `json` is its compact JSON text.
  datatype ToolCall = ToolCall(id: CallId, json: string)

  /** A stored message, and also the chat dictionary made from it (whose turn fields are blank).
      The empty string stands for an absent name, tool call id or turn id. */
  datatype Message = Message(
    role: Role,
    content: string,
    name: string,
    toolCallId: string,
    calls: seq<ToolCall>,
    turnId: string,
    turnIndex: Option<int>)

  function Plain(role: Role, content: string): Message {
    Message(role, content, "", "", [], "", None)
  }

  // An assistant message that announces tool calls.
  predicate IsCaller(m: Message) {
    m.role.Assistant? && m.calls != []
  }

  const MESSAGE_TOKEN_OVERHEAD := 4

  predicate IsCjk(c: char) {
    0x3400 <= c as int <= 0x9fff || 0xf900 <= c as int <= 0xfaff
  }

  function CjkCount(text: string): (n: nat)
    ensures n <= |text|
  {
    if text == [] then 0
    else (if IsCjk(text[0]) then 1 else 0) + CjkCount(text[1..])
  }

  function TextTokens(text: string): nat {
    var cjk := CjkCount(text);
    cjk + (|text| - cjk + 3) / 4
  }

  function RoleText(role: Role): string {
    match role
    case System => "system"
    case User => "user"
    case Assistant => "assistant"
    case Tool => "tool"
    case Other(name) => name
  }

  function JoinCalls(calls: seq<ToolCall>): string {
    if calls == [] then ""
    else if |calls| == 1 then calls[0].json
    else calls[0].json + "," + JoinCalls(calls[1..])
  }

  function CallsJson(calls: seq<ToolCall>): string {
    "[" + JoinCalls(calls) + "]"
  }

  function MessageTokens(m: Message): (n: nat)
    ensures n >= MESSAGE_TOKEN_OVERHEAD
  {
    MESSAGE_TOKEN_OVERHEAD
    + TextTokens(RoleText(m.role))
    + TextTokens(m.content)
    + TextTokens(m.name)
    + TextTokens(m.toolCallId)
    + (if m.calls == [] then 0 else TextTokens(CallsJson(m.calls)))
  }

  function Sum<T>(xs: seq<T>, f: T -> nat): nat {
    if xs == [] then 0 else f(xs[0]) + Sum(xs[1..], f)
  }

  // The estimate without tool definitions, as a sum over the messages.
  function Tokens(messages: seq<Message>): nat {
    Sum(messages, MessageTokens)
  }

  /** `definitions` is the compact JSON of the tool definitions, or "" when there are none. */
  method EstimateLlmTokens(messages: seq<Message>, definitions: string) returns (total: nat)
    ensures total == Tokens(messages) + TextTokens(definitions)
  {
    total := 0;
    for i := 0 to |messages|
      invariant total + Tokens(messages[i..]) == Tokens(messages)
    {
      assert messages[i..][1..] == messages[i + 1..];
      total := total + MessageTokens(messages[i]);
    }
    if definitions != "" {
      total := total + TextTokens(definitions);
    }
  }

  lemma {:induction false} SumAppend<T>(a: seq<T>, b: seq<T>, f: T -> nat)
    ensures Sum(a + b, f) == Sum(a, f) + Sum(b, f)
  {
    if a == [] {
      assert a + b == b;
    } else {
      SumAppend(a[1..], b, f);
      assert (a + b)[1..] == a[1..] + b;
    }
  }

  lemma {:induction false} SumPointwise<T>(a: seq<T>, b: seq<T>, f: T -> nat)
    requires |a| == |b|
    requires forall i :: 0 <= i < |a| ==> f(a[i]) <= f(b[i])
    ensures Sum(a, f) <= Sum(b, f)
  {
    if a != [] {
      SumPointwise(a[1..], b[1..], f);
    }
  }

  lemma TokensAppend(a: seq<Message>, b: seq<Message>)
    ensures Tokens(a + b) == Tokens(a) + Tokens(b)
  {
    SumAppend(a, b, MessageTokens);
  }

  lemma {:induction false} CjkCountAppend(a: string, b: string)
    ensures CjkCount(a + b) == CjkCount(a) + CjkCount(b)
  {
    if a == [] {
      assert a + b == b;
    } else {
      CjkCountAppend(a[1..], b);
      assert (a + b)[1..] == a[1..] + b;
    }
  }

  lemma {:induction false} NoCjk(text: string)
    requires forall i :: 0 <= i < |text| ==> !IsCjk(text[i])
    ensures CjkCount(text) == 0
  {
    if text != [] {
      NoCjk(text[1..]);
    }
  }

  // A shorter text with no more CJK characters never costs more.
  lemma TextTokensMonotone(a: string, b: string)
    requires |a| <= |b| && CjkCount(a) <= CjkCount(b)
    ensures TextTokens(a) <= TextTokens(b)
  {
    var d := CjkCount(b) - CjkCount(a);
    assert |a| - CjkCount(a) <= |b| - CjkCount(b) + d;
    assert (|b| - CjkCount(b) + d + 3) / 4 <= (|b| - CjkCount(b) + 3) / 4 + d;
  }
}
