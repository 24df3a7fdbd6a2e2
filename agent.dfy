/** The query processor of main.py: `run_agent` hands a one-message
    conversation to the reasoning engine, picks the text to display out of
    what comes back, and turns every engine failure into an "Error: ..."
    reply; `main` forwards console lines to it until one of them is "exit".
    The engine itself is a parameter of the model. */
module Agent {
  import opened Text
  import opened WeatherTool

  datatype Option<T> = None | Some(value: T)

  /** One tool invocation requested by the model: the tool's name and its
      arguments, kept as the opaque text the log line shows. */
  datatype ToolCall = ToolCall(name: string, args: string)

  /** A message of a conversation history.  `Assistant` is an `AIMessage`
      and `Tool` a `ToolMessage`; `User` stands for every other message
      (a `HumanMessage`, but also a `SystemMessage` or any other kind), all
      of which both selection rules skip. */
  datatype Message =
    | User(content: string)
    | Assistant(content: string, toolCalls: seq<ToolCall>)
    | Tool(content: string)

  /** The state handed to the engine: the history and a session identifier. */
  datatype Request = Request(messages: seq<Message>, sessionId: string)

  /** What the engine's call can come back with: a state carrying a message
      list, a single assistant message, anything else, or an exception with
      its description. */
  datatype EngineResult =
    | MessagesState(messages: seq<Message>)
    | SingleAI(content: string, toolCalls: seq<ToolCall>)
    | OtherShape
    | Raised(description: string)

  const Marker := "[TOOL_CALLS]"
  const NoContent := "No response content found"
  const Unexpected := "Unexpected response format"
  const DefaultSession := "default"

  /** Python truthiness of the local `final_message`: None and "" are false. */
  predicate Falsy(final: Option<string>) {
    final.None? || final.value == ""
  }

  // ---------------------------------------------------------------------
  // Specification of the selection over a message list

  /** An assistant message the first rule may display: its content is
      non-empty, not only whitespace, and free of the "[TOOL_CALLS]" marker. */
  predicate Displayable(m: Message) {
    m.Assistant? && m.content != "" && Strip(m.content) != "" && !Contains(m.content, Marker)
  }

  /** A tool message, the only kind the second rule looks at. */
  predicate IsTool(m: Message) {
    m.Tool?
  }

  /** `i` is the position of the last message of `ms` that satisfies `p`. */
  ghost predicate IsLast(ms: seq<Message>, p: Message -> bool, i: int) {
    0 <= i < |ms| && p(ms[i]) && forall j :: i < j < |ms| ==> !p(ms[j])
  }

  /** A reverse scan that stops at the first match: the position of the
      last message satisfying `p`, or None when no message does. */
  function LastIndex(ms: seq<Message>, p: Message -> bool): (r: Option<nat>)
    ensures r.Some? ==> IsLast(ms, p, r.value)
    ensures r.None? <==> forall j :: 0 <= j < |ms| ==> !p(ms[j])
  {
    if ms == [] then None
    else if p(ms[|ms| - 1]) then Some(|ms| - 1)
    else LastIndex(ms[..|ms| - 1], p)
  }

  /** Stripped content of the message found by a scan, if it found one. */
  function TextAt(ms: seq<Message>, found: Option<nat>): Option<string>
    requires found.Some? ==> found.value < |ms|
  {
    if found.Some? then Some(Strip(ms[found.value].content)) else None
  }

  /** The three rules in order: rule 1 scans for a displayable assistant
      message; rule 2, consulted only while the result so far is None or "",
      takes the last tool message; rule 3 is the sentinel for a result that
      is still None or "". */
  function Select(ms: seq<Message>): string {
    var first := TextAt(ms, LastIndex(ms, Displayable));
    var second := if Falsy(first) && LastIndex(ms, IsTool).Some? then TextAt(ms, LastIndex(ms, IsTool)) else first;
    if Falsy(second) then NoContent else second.value
  }

  /** The tool calls an assistant message carries (none for other kinds). */
  function CallsOf(m: Message): seq<ToolCall> {
    if m.Assistant? then m.toolCalls else []
  }

  /** The tool calls logged for a message list, in forward order. */
  function ToolCallLog(ms: seq<Message>): seq<ToolCall> {
    if ms == [] then [] else ToolCallLog(ms[..|ms| - 1]) + CallsOf(ms[|ms| - 1])
  }

  // ---------------------------------------------------------------------
  // The selection as main.py runs it

  /** One `for msg in reversed(messages)` loop of `run_agent`: walk back from
      the end and stop at the first message satisfying `p`. */
  method FindLast(messages: seq<Message>, p: Message -> bool) returns (found: Option<nat>)
    ensures found == LastIndex(messages, p)
  {
    assert messages[..|messages|] == messages;
    found := None;
    var i := |messages|;
    while i > 0
      invariant 0 <= i <= |messages|
      invariant LastIndex(messages, p) == LastIndex(messages[..i], p)
    {
      i := i - 1;
      var msg := messages[i];
      assert messages[..i + 1][..i] == messages[..i];
      if p(msg) {
        found := Some(i);
        return;
      }
    }
  }

  /** The forward logging pass: one entry per tool call of every assistant
      message, in order. */
  method LogToolCalls(messages: seq<Message>) returns (logged: seq<ToolCall>)
    ensures logged == ToolCallLog(messages)
  {
    logged := [];
    for k := 0 to |messages|
      invariant logged == ToolCallLog(messages[..k])
    {
      var msg := messages[k];
      assert messages[..k + 1][..k] == messages[..k];
      if msg.Assistant? && msg.toolCalls != [] {
        for c := 0 to |msg.toolCalls|
          invariant logged == ToolCallLog(messages[..k]) + msg.toolCalls[..c]
        {
          logged := logged + [msg.toolCalls[c]];
        }
      }
    }
    assert messages[..|messages|] == messages;
  }

  /** The message-list branch of `run_agent`: the reverse scan for a
      displayable assistant message, the reverse scan for a tool message
      while nothing usable is found, the sentinel, then the logging pass. */
  method SelectResponse(messages: seq<Message>) returns (text: string, logged: seq<ToolCall>)
    ensures text == Select(messages)
    ensures logged == ToolCallLog(messages)
  {
    var final: Option<string> := None;
    var found := FindLast(messages, Displayable);
    if found.Some? {
      final := Some(Strip(messages[found.value].content));
    }
    if Falsy(final) {
      var tool := FindLast(messages, IsTool);
      if tool.Some? {
        final := Some(Strip(messages[tool.value].content));
      }
    }
    text := if Falsy(final) then NoContent else final.value;
    logged := LogToolCalls(messages);
  }

  // ---------------------------------------------------------------------
  // What the selection promises

  /** There is one last position, so a scan's answer is determined. */
  lemma {:induction false} IsLastUnique(ms: seq<Message>, p: Message -> bool, i: int, i': int)
    requires IsLast(ms, p, i) && IsLast(ms, p, i')
    ensures i == i'
  {
  }

  /** Rule 1 wins: when some assistant message is displayable, the result is
      the stripped content of the last such message, whatever earlier
      assistant messages or any tool messages (even later ones) contain. */
  lemma {:induction false} AssistantRuleWins(ms: seq<Message>, i: int)
    requires IsLast(ms, Displayable, i)
    ensures Select(ms) == Strip(ms[i].content)
  {
    IsLastUnique(ms, Displayable, i, LastIndex(ms, Displayable).value);
  }

  /** Rule 2: with no displayable assistant message, only the last tool
      message counts, marker or not; if it strips to "" the result is the
      sentinel, even when earlier tool messages have content. */
  lemma {:induction false} ToolFallback(ms: seq<Message>, i: int)
    requires forall j :: 0 <= j < |ms| ==> !Displayable(ms[j])
    requires IsLast(ms, IsTool, i)
    ensures Select(ms) == if Strip(ms[i].content) != "" then Strip(ms[i].content) else NoContent
  {
    IsLastUnique(ms, IsTool, i, LastIndex(ms, IsTool).value);
  }

  /** Rule 3: with neither a displayable assistant message nor a tool
      message, the result is the sentinel. */
  lemma {:induction false} NothingToShow(ms: seq<Message>)
    requires forall j :: 0 <= j < |ms| ==> !Displayable(ms[j]) && !IsTool(ms[j])
    ensures Select(ms) == NoContent
  {
  }

  /** An empty history, or one of user messages only, yields the sentinel. */
  lemma {:induction false} OnlyUserMessages(ms: seq<Message>)
    requires forall j :: 0 <= j < |ms| ==> ms[j].User?
    ensures Select(ms) == NoContent
  {
    NothingToShow(ms);
  }

  /** The message-list branch never displays the empty string. */
  lemma {:induction false} SelectNeverEmpty(ms: seq<Message>)
    ensures Select(ms) != ""
  {
  }

  /** What is displayed is never a marked or blank assistant message: it is
      the stripped content of the last displayable one, or, when there is
      none, the stripped content of the last tool message or the sentinel. */
  lemma {:induction false} SelectOrigin(ms: seq<Message>)
    ensures || (exists i :: IsLast(ms, Displayable, i) && Select(ms) == Strip(ms[i].content))
            || ((forall j :: 0 <= j < |ms| ==> !Displayable(ms[j])) &&
                (Select(ms) == NoContent || exists i :: IsLast(ms, IsTool, i) && Select(ms) == Strip(ms[i].content)))
  {
    var first := LastIndex(ms, Displayable);
    var second := LastIndex(ms, IsTool);
    if first.Some? {
      assert IsLast(ms, Displayable, first.value);
    } else if second.Some? {
      assert IsLast(ms, IsTool, second.value);
    }
  }

  /** Logging a concatenated history logs each part in turn. */
  lemma {:induction false} ToolCallLogAppend(a: seq<Message>, b: seq<Message>)
    ensures ToolCallLog(a + b) == ToolCallLog(a) + ToolCallLog(b)
    decreases |b|
  {
    if b == [] {
      assert a + b == a;
    } else {
      var init := b[..|b| - 1];
      assert (a + b)[..|a + b| - 1] == a + init;
      assert (a + b)[|a + b| - 1] == b[|b| - 1];
      ToolCallLogAppend(a, init);
    }
  }

  /** The log visits messages in forward order: the tool calls of the
      message at `i` come right after those of every earlier message and
      before those of every later one. */
  lemma {:induction false} ToolCallLogAt(ms: seq<Message>, i: int)
    requires 0 <= i < |ms|
    ensures ToolCallLog(ms) == ToolCallLog(ms[..i]) + CallsOf(ms[i]) + ToolCallLog(ms[i + 1..])
  {
    var upTo := ms[..i] + [ms[i]];
    assert upTo[..i] == ms[..i];
    assert ms == upTo + ms[i + 1..];
    ToolCallLogAppend(upTo, ms[i + 1..]);
  }

  // ---------------------------------------------------------------------
  // Dispatch on the engine's result

  /** The reply for a single assistant message: its stripped content when
      the content is non-empty and unmarked, the sentinel otherwise. */
  function SingleReply(content: string): string {
    if content != "" && !Contains(content, Marker) then Strip(content) else NoContent
  }

  /** The string `run_agent` returns for each shape of engine result. */
  function Reply(r: EngineResult): string {
    match r
    case MessagesState(ms) => Select(ms)
    case SingleAI(content, _) => SingleReply(content)
    case OtherShape => Unexpected
    case Raised(description) => "Error: " + description
  }

  /** The tool calls `run_agent` logs for each shape of engine result. */
  function LoggedCalls(r: EngineResult): seq<ToolCall> {
    match r
    case MessagesState(ms) => ToolCallLog(ms)
    case SingleAI(_, calls) => calls
    case _ => []
  }

  /** The request `run_agent` builds: the query as the only message. */
  function NewRequest(query: string, sessionId: string): Request {
    Request([User(query)], sessionId)
  }

  /** `agent.ainvoke`: what the engine returns for the request `run_agent`
      builds from the query and the session id.  The engine need not answer
      the same request the same way twice, so it also receives the number of
      the call (0 for the first call of the program). */
  function Invoke(engine: (nat, Request) -> EngineResult, call: nat, query: string, sessionId: string): EngineResult {
    engine(call, NewRequest(query, sessionId))
  }

  /** `run_agent`: one engine call, number `call`, on a fresh one-message
      request, then dispatch on the shape of what came back.  An engine
      failure arrives as `Raised` and becomes a reply like any other
      result. */
  method RunAgent(query: string, sessionId: string, engine: (nat, Request) -> EngineResult, call: nat)
    returns (reply: string, logged: seq<ToolCall>)
    ensures reply == Reply(Invoke(engine, call, query, sessionId))
    ensures logged == LoggedCalls(Invoke(engine, call, query, sessionId))
  {
    var response := engine(call, Request([User(query)], sessionId));
    match response {
      case MessagesState(messages) =>
        reply, logged := SelectResponse(messages);
      case SingleAI(content, toolCalls) =>
        reply := if content != "" && !Contains(content, Marker) then Strip(content) else NoContent;
        logged := [];
        if toolCalls != [] {
          for c := 0 to |toolCalls|
            invariant logged == toolCalls[..c]
          {
            logged := logged + [toolCalls[c]];
          }
        }
      case OtherShape =>
        reply, logged := Unexpected, [];
      case Raised(description) =>
        reply, logged := "Error: " + description, [];
    }
  }

  /** The reply is "" in one case only: a single assistant message whose
      content is non-empty, unmarked and all whitespace. */
  lemma {:induction false} ReplyEmptyIff(r: EngineResult)
    ensures Reply(r) == "" <==> r.SingleAI? && r.content != "" && IsBlank(r.content) && !Contains(r.content, Marker)
  {
    if r.MessagesState? {
      SelectNeverEmpty(r.messages);
    }
  }

  /** The reply never invents text: it is a sentinel, the wrapped failure
      description, or the stripped content of a message the engine returned. */
  lemma {:induction false} ReplyOrigin(r: EngineResult)
    ensures || Reply(r) == NoContent
            || (r.OtherShape? && Reply(r) == Unexpected)
            || (r.Raised? && Reply(r) == "Error: " + r.description)
            || (r.SingleAI? && Reply(r) == Strip(r.content))
            || (r.MessagesState? &&
                exists i :: 0 <= i < |r.messages| && (r.messages[i].Assistant? || r.messages[i].Tool?) &&
                            Reply(r) == Strip(r.messages[i].content))
  {
    if r.MessagesState? {
      SelectOrigin(r.messages);
    }
  }

  /** The single-message branch and the message-list branch agree on one
      assistant message except when its content is non-empty, unmarked and
      all whitespace: then the single-message branch displays "" and the
      list branch the sentinel. */
  lemma {:induction false} SingleAndListBranchesAgree(content: string, calls: seq<ToolCall>)
    ensures Reply(SingleAI(content, calls)) == Reply(MessagesState([Assistant(content, calls)]))
        <==> !(content != "" && IsBlank(content) && !Contains(content, Marker))
  {
    var ms := [Assistant(content, calls)];
    if Displayable(ms[0]) {
      AssistantRuleWins(ms, 0);
    } else {
      NothingToShow(ms);
    }
  }

  /** A failure's description can be read back from its reply. */
  lemma {:induction false} ErrorReplyRoundTrip(description: string)
    ensures Reply(Raised(description))[..7] == "Error: "
    ensures Reply(Raised(description))[7..] == description
  {
  }

  // ---------------------------------------------------------------------
  // The weather query end to end

  /** The turns the engine appends for a weather query: an assistant turn
      with some content that calls the tool, the tool's sentence and a final
      assistant turn. */
  function WeatherTurns(callContent: string, calls: seq<ToolCall>, city: string, answer: string): seq<Message> {
    [Assistant(callContent, calls), Tool(GetWeather(city)), Assistant(answer, [])]
  }

  /** A displayable final answer is preferred to the tool's sentence and to
      whatever the tool-calling turn says. */
  lemma {:induction false} WeatherAnswerPreferred(query: string, callContent: string, calls: seq<ToolCall>,
                                                  city: string, answer: string)
    requires Displayable(Assistant(answer, []))
    ensures Reply(MessagesState(NewRequest(query, DefaultSession).messages +
                                WeatherTurns(callContent, calls, city, answer)))
         == Strip(answer)
  {
    AssistantRuleWins(NewRequest(query, DefaultSession).messages + WeatherTurns(callContent, calls, city, answer), 3);
  }

  /** When neither the tool-calling turn nor the final answer can be
      displayed (each is blank or marked with "[TOOL_CALLS]"), the tool's
      sentence is displayed verbatim. */
  lemma {:induction false} WeatherToolSentenceFallback(query: string, callContent: string, calls: seq<ToolCall>,
                                                       city: string, answer: string)
    requires !Displayable(Assistant(callContent, calls))
    requires !Displayable(Assistant(answer, []))
    ensures Reply(MessagesState(NewRequest(query, DefaultSession).messages +
                                WeatherTurns(callContent, calls, city, answer)))
         == GetWeather(city)
  {
    var ms := NewRequest(query, DefaultSession).messages + WeatherTurns(callContent, calls, city, answer);
    assert ms == [User(query), Assistant(callContent, calls), Tool(GetWeather(city)), Assistant(answer, [])];
    forall j | 0 <= j < |ms| ensures !Displayable(ms[j]) {
      if j == 1 { assert ms[j] == Assistant(callContent, calls); }
      if j == 3 { assert ms[j] == Assistant(answer, []); }
    }
    assert IsLast(ms, IsTool, 2);
    StripGetWeather(city);
    ToolFallback(ms, 2);
  }

  /** The Paris example: the engine calls the tool for "Paris" and then
      answers in its own words; the query returns that answer exactly. */
  lemma {:induction false} ParisExample(query: string, city: string, answer: string)
    requires query == "What's the weather in Paris?" && city == "Paris"
    requires answer == "It's sunny and 25\U{B0}C in Paris."
    ensures Reply(MessagesState(NewRequest(query, DefaultSession).messages +
                                WeatherTurns("", [ToolCall("get_weather", "{'city': '" + city + "'}")], city, answer)))
         == answer
  {
    assert forall k :: 0 <= k < |answer| ==> answer[k] != '[';
    NotContainsWithoutFirst(answer, Marker);
    StripTrimmed(answer);
    WeatherAnswerPreferred(query, "", [ToolCall("get_weather", "{'city': '" + city + "'}")], city, answer);
  }

  // ---------------------------------------------------------------------
  // The console loop

  /** The loop's stop test: the line, lower-cased, is exactly "exit". */
  predicate IsExit(line: string) {
    Lower(line) == "exit"
  }

  /** A line stops the loop exactly when it is "exit" in any mix of cases;
      so "", " exit" and "exit " do not. */
  lemma {:induction false} ExitIff(line: string)
    ensures IsExit(line) <==>
      |line| == 4 && forall k :: 0 <= k < 4 ==> line[k] == "exit"[k] || line[k] == "EXIT"[k]
  {
    if |line| == 4 {
      if IsExit(line) {
        forall k | 0 <= k < 4 ensures line[k] == "exit"[k] || line[k] == "EXIT"[k] {
          assert LowerChar(line[k]) == "exit"[k];
        }
      }
    }
  }

  /** The lines forwarded to the agent: those before the first exit line. */
  function QueriesBeforeExit(lines: seq<string>): (r: seq<string>)
    ensures r <= lines
    ensures forall k :: 0 <= k < |r| ==> !IsExit(r[k])
    ensures |r| < |lines| ==> IsExit(lines[|r|])
  {
    if lines == [] || IsExit(lines[0]) then []
    else [lines[0]] + QueriesBeforeExit(lines[1..])
  }

  /** The three properties of QueriesBeforeExit determine it. */
  lemma {:induction false} QueriesBeforeExitUnique(lines: seq<string>, p: seq<string>)
    requires p <= lines
    requires forall k :: 0 <= k < |p| ==> !IsExit(p[k])
    requires |p| < |lines| ==> IsExit(lines[|p|])
    ensures p == QueriesBeforeExit(lines)
  {
  }

  /** The reply the loop prints for the query sent in engine call number
      `call`. */
  function Answer(call: nat, query: string, engine: (nat, Request) -> EngineResult): string {
    Reply(Invoke(engine, call, query, DefaultSession))
  }

  /** A line that is not an exit line extends the run of lines the loop
      has forwarded. */
  lemma {:induction false} NoExitStep(lines: seq<string>, n: nat)
    requires n < |lines| && !IsExit(lines[n])
    requires forall k :: 0 <= k < n ==> !IsExit(lines[k])
    ensures forall k :: 0 <= k < n + 1 ==> !IsExit(lines[k])
  {
  }

  /** One more line printed keeps the printed lines in step with the
      forwarded ones. */
  lemma {:induction false} PrintedStep(forwarded: seq<string>, printed: seq<string>, engine: (nat, Request) -> EngineResult,
                                       query: string, response: string)
    requires |printed| == |forwarded|
    requires forall k: nat {:trigger Answer(k, forwarded[k], engine)} :: k < |forwarded| ==>
               printed[k] == "Agent: " + Answer(k, forwarded[k], engine) + "\n\n"
    requires response == Answer(|forwarded|, query, engine)
    ensures forall k: nat {:trigger Answer(k, (forwarded + [query])[k], engine)} :: k < |forwarded| + 1 ==>
              (printed + ["Agent: " + response + "\n\n"])[k] == "Agent: " + Answer(k, (forwarded + [query])[k], engine) + "\n\n"
  {
    forall k: nat | k < |forwarded| + 1
      ensures (printed + ["Agent: " + response + "\n\n"])[k] == "Agent: " + Answer(k, (forwarded + [query])[k], engine) + "\n\n"
    {
      if k < |forwarded| {
        assert (forwarded + [query])[k] == forwarded[k];
      }
    }
  }

  /** `main`: read lines until one is "exit" (or the input ends), forwarding
      each other line to `run_agent` with the default session and printing
      "Agent: " and the reply followed by a blank line.  Each forwarded line
      is a fresh engine call: the k-th forwarded line (from 0) is engine call
      number k, so the same line sent twice may get different replies. */
  method Repl(lines: seq<string>, engine: (nat, Request) -> EngineResult)
    returns (forwarded: seq<string>, printed: seq<string>)
    ensures forwarded == QueriesBeforeExit(lines)
    ensures |printed| == |forwarded|
    ensures forall k :: 0 <= k < |printed| ==> printed[k] == "Agent: " + Answer(k, forwarded[k], engine) + "\n\n"
  {
    forwarded, printed := [], [];
    var n: nat := 0;
    while n < |lines|
      invariant 0 <= n <= |lines|
      invariant forwarded == lines[..n]
      invariant forall k :: 0 <= k < n ==> !IsExit(lines[k])
      invariant |printed| == n
      invariant forall k: nat {:trigger Answer(k, forwarded[k], engine)} :: k < n ==> printed[k] == "Agent: " + Answer(k, forwarded[k], engine) + "\n\n"
    {
      var userInput := lines[n];
      if IsExit(userInput) {
        break;
      }
      NoExitStep(lines, n);
      var response, _ := RunAgent(userInput, DefaultSession, engine, n);
      PrintedStep(forwarded, printed, engine, userInput, response);
      forwarded := forwarded + [userInput];
      printed := printed + ["Agent: " + response + "\n\n"];
      n := n + 1;
    }
    QueriesBeforeExitUnique(lines, forwarded);
  }
}
