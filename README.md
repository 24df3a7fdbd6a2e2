# weatherAgent: response selection, dispatch and the console loop

weatherAgent is a command-line chat loop. Each line the user types goes to a
ReAct reasoning engine that may call one mock tool, `get_weather`. The agent
then picks one string to display out of what the engine returns. This project
models the agent's own logic and proves what it promises:

- `run_agent` (main.py) hands the engine a one-message request. It dispatches
  on the shape of the result and turns every engine failure that is an
  `Exception` into an error reply. For a message list it applies three rules
  in order:
  1. the stripped content of the last assistant message that is non-blank and
     free of the `[TOOL_CALLS]` marker;
  2. otherwise, the stripped content of the last tool message;
  3. otherwise, the sentinel `"No response content found"`.

  A forward pass logs every tool call.
- `main` (main.py) forwards each line to `run_agent` until a line whose
  lower-case form is `"exit"`.
- `get_weather` (tools/weather_tool.py) is a fixed sentence around the city.

Modules:

- `Text` (text.dfy) holds the Python string built-ins the code uses.
  `str.strip()` uses the exact set of 29 code points for which Python's
  `isspace()` is true. The substring test `in` is a left-to-right scan, proved
  equal to "occurs at some index". The `str.lower()` part models only the exit
  test.
- `WeatherTool` (weather_tool.dfy) models the tool.
- `Agent` (agent.dfy) models the messages, the selector, the dispatch and the
  console loop.

main.py is imperative, so the model is imperative too. Each
`for msg in reversed(messages)` loop with its `break` is the method
`FindLast`. The logging pass is `LogToolCalls`, `run_agent` is `RunAgent`, and
the `while True` loop is `Repl`. Each method is proved against a pure
specification (`LastIndex`, `Select`, `ToolCallLog`, `Reply`,
`QueriesBeforeExit`), and the lemmas state the selection rules in terms of
positions in the history.

The reasoning engine is a parameter `engine: (nat, Request) -> EngineResult`.
Its first argument is the number of the call: `RunAgent` is told which call
it makes, and `Repl` makes call number k for the k-th forwarded line. The same
query may therefore get different replies at different points of the session.
A result is a message list (`MessagesState`), a single assistant message
(`SingleAI`), any other shape (`OtherShape`), or an exception with its
description (`Raised`).

Three behaviours of the code are easy to misread:

- Rule 1 displays the stripped content, not the raw content.
- Rule 2 yields the sentinel when the last tool message strips to `""`, even
  when an earlier tool message has text.
- A single assistant message that is non-empty, unmarked and all whitespace
  displays `""`. The list branch never displays `""` (`SingleAndListBranchesAgree`).

## Model

| member | source | states |
|---|---|---|
| `Text.LeadingSpace` | main.py:45 | the count of leading characters that `strip()` removes: all of them are whitespace, and the next one, if any, is not |
| `Text.TrailingSpace` | main.py:45 | the same for the trailing side |
| `Text.Strip` | main.py:45-46 | `s.strip()` is empty exactly when `s` is all whitespace, and is never longer than `s` |
| `Text.StripFringes` | main.py:45-46 | the stripped text is the part of `s` between a blank prefix and a blank suffix |
| `Text.StripEnds` | main.py:45-46 | a non-empty stripped text starts and ends with a non-space character |
| `Text.StripIdempotent` | main.py:46 | stripping an already stripped text changes nothing |
| `Text.ContainsIff` | main.py:45 | the `"[TOOL_CALLS]" in content` scan holds exactly when the marker occurs at some index |
| `Text.NotContainsWithoutFirst` | main.py:45 | a text without the pattern's first character never contains the pattern |
| `Text.Contains` | main.py:45 | the `"[TOOL_CALLS]" in content` test (also at main.py:61), a left-to-right scan with no contract of its own; see `Text.ContainsIff`, which proves it is "occurs at some index" |
| `Text.Lower` | main.py:80 | `user_input.lower()`, character by character; the result is as long as the input (ASCII-only lowering, see "## Left out") |
| `WeatherTool.GetWeather` | tools/weather_tool.py:5-7 | defined for every city; the sentence starts with "The weather in ", ends with " is sunny and 25°C.", holds the city in between, and is 34 characters longer than the city |
| `WeatherTool.CityRoundTrip` | tools/weather_tool.py:7 | the city can be read back out of the sentence |
| `WeatherTool.GetWeatherInjective` | tools/weather_tool.py:7 | distinct cities give distinct sentences |
| `WeatherTool.StripGetWeather` | tools/weather_tool.py:7 | the sentence is its own stripped form, so a tool message carrying it is displayed verbatim |
| `Agent.Displayable` | main.py:45 | the rule-1 test: an assistant message whose content is non-empty, not all whitespace and unmarked; no contract of its own, see `Agent.AssistantRuleWins` and `Agent.SelectOrigin` |
| `Agent.Select` | main.py:44-54 | the string the message-list branch returns, by the three rules; no contract of its own, described by `Agent.AssistantRuleWins`, `Agent.ToolFallback`, `Agent.NothingToShow`, `Agent.SelectNeverEmpty` and `Agent.SelectOrigin`, and met by `Agent.SelectResponse` |
| `Agent.ToolCallLog` | main.py:56-59 | the tool calls logged for a message list, in forward order; no contract of its own, see `Agent.ToolCallLogAppend` and `Agent.ToolCallLogAt`, and met by `Agent.LogToolCalls` |
| `Agent.SingleReply` | main.py:61 | the reply for a single assistant message: its stripped content when non-empty and unmarked, the sentinel otherwise; no contract of its own, see `Agent.ReplyEmptyIff` and `Agent.SingleAndListBranchesAgree` |
| `Agent.Reply` | main.py:41-73 | the string `run_agent` returns for each shape of engine result; no contract of its own, see `Agent.ReplyEmptyIff`, `Agent.ReplyOrigin` and `Agent.ErrorReplyRoundTrip`, and met by `Agent.RunAgent` |
| `Agent.LoggedCalls` | main.py:56-64 | the tool calls `run_agent` logs for each shape of engine result; no contract of its own, met by `Agent.RunAgent` |
| `Agent.LastIndex` | main.py:44-52 | a reverse scan with break finds the last message satisfying the test, and finds nothing exactly when no message satisfies it |
| `Agent.FindLast` | main.py:44-52 | the `for msg in reversed(messages)` loop that stops at the first match returns the position `LastIndex` specifies |
| `Agent.LogToolCalls` | main.py:56-59 | the logging pass emits every tool call of every assistant message, in forward order |
| `Agent.SelectResponse` | main.py:41-59 | the message-list branch returns the string given by the three rules and the log of all tool calls |
| `Agent.AssistantRuleWins` | main.py:44-47 | if some assistant message is non-blank and unmarked, the result is the stripped content of the last such one, whatever earlier assistant messages or any tool messages (even later ones) hold |
| `Agent.ToolFallback` | main.py:48-54 | with no usable assistant message, only the last tool message counts, marker or not; if it strips to "" the result is the sentinel even when earlier tool messages have text |
| `Agent.NothingToShow` | main.py:53-54 | with no usable assistant message and no tool message the result is "No response content found" |
| `Agent.OnlyUserMessages` | main.py:53-54 | an empty history or one of user messages only yields the sentinel |
| `Agent.SelectNeverEmpty` | main.py:45-54 | the message-list branch never displays "" |
| `Agent.SelectOrigin` | main.py:44-54 | a marked or blank assistant message is never displayed; the result is the last usable assistant text, or else the last tool text or the sentinel |
| `Agent.ToolCallLogAppend` | main.py:56-59 | the log of a concatenated history is the concatenation of the logs |
| `Agent.ToolCallLogAt` | main.py:56-59 | the tool calls of the message at position i appear in the log after those of all earlier messages and before those of all later ones |
| `Agent.RunAgent` | main.py:29-73 | exactly one engine call, with the given call number, on the request holding just the query and the session id; a message list goes to the selector, a single assistant message gives its stripped content when non-empty and unmarked and the sentinel otherwise, any other shape gives "Unexpected response format", a failure gives "Error: " + its description; the returned log lists the tool calls of the response |
| `Agent.ReplyEmptyIff` | main.py:41-66 | the reply is "" exactly for a single assistant message that is non-empty, unmarked and all whitespace |
| `Agent.ReplyOrigin` | main.py:41-73 | the reply is a sentinel, the wrapped failure description, or the stripped content of an assistant or tool message of the response |
| `Agent.SingleAndListBranchesAgree` | main.py:60-61 | a single assistant message and the one-message list holding it get the same reply, except when the content is non-empty, unmarked and all whitespace |
| `Agent.ErrorReplyRoundTrip` | main.py:71-73 | a failure's reply is "Error: " followed by the failure's description, which can be read back |
| `Agent.WeatherAnswerPreferred` | main.py:44-47 | for a weather query, a usable final assistant answer is displayed instead of the tool's sentence, whatever the tool-calling turn says |
| `Agent.WeatherToolSentenceFallback` | main.py:44-52 | for a weather query where neither the tool-calling assistant turn nor the final answer is usable (each is blank or marked), the tool's sentence is displayed verbatim |
| `Agent.ParisExample` | main.py:44-47 | the query about Paris, answered after a `get_weather` call, returns exactly "It's sunny and 25°C in Paris." |
| `Agent.IsExit` | main.py:80 | the stop test `user_input.lower() == "exit"`; no contract of its own, see `Agent.ExitIff` |
| `Agent.ExitIff` | main.py:80 | a line ends the loop exactly when it is "exit" in some mix of cases; "", " exit" and "exit " do not |
| `Agent.QueriesBeforeExit` | main.py:78-83 | the forwarded lines are a prefix of the input, none of them is an exit line, and the line after them, if any, is one |
| `Agent.QueriesBeforeExitUnique` | main.py:78-83 | those three properties determine the forwarded lines |
| `Agent.Repl` | main.py:75-84 | the loop forwards exactly the lines before the first exit line, each with the default session, and prints "Agent: " + its reply + a blank line for each; the k-th printed reply is the reply to the k-th engine call, made with the k-th forwarded line |

## Left out

- The model client: the OpenRouter URL, the model name, the API key and `load_dotenv` (main.py:13-20). These are environment and network configuration.
- `create_react_agent` and `agent.ainvoke` (main.py:26, 39). The reasoning engine is the parameter `engine`, and its exceptions are the `Raised` result. The text of `str(e)` is an opaque description.
- `asyncio` and `await`. They add suspension but no concurrency.
- Console text other than the replies: the welcome banner and the `"Enter your query: "` prompt.
- Logger configuration and the text of log lines. The tool-call log is modelled as the sequence of `ToolCall` records it names, each holding the tool name and its arguments as opaque text.
- The `@tool` decorator's schema and docstring registration.
- Failures that are not `Exception`s. `except Exception` (main.py:71) does not catch `BaseException` subclasses such as `KeyboardInterrupt` or `asyncio.CancelledError`; they leave `run_agent` and end the program. `Raised` stands only for the failures the handler catches.
- Exceptions raised inside the selection code rather than the engine, such as non-string content or a tool call without `name`. With typed messages these cannot arise. The source would also turn them into `"Error: ..."`.
- LangChain's list-of-blocks form of message content. Content is a plain string here.
- Repl: the end of the input is the end of the line sequence. In the source, `input()` raises `EOFError` there, and `main` does not catch it.
- Text.Lower: only ASCII letters are lower-cased, which is exact for the exit test only. No other code point lower-cases to e, x, i or t. The one that lower-cases to two characters (U+0130) yields a combining dot that "exit" lacks.
