# agentic_hello_world, modelled in Dafny

This project models the core of `agentic_hello_world.py`, a graph with two nodes over a
shared agent state. The state holds a message list and a `next` field.

- `call_model` sends a prompt to a language model. The prompt embeds the latest message.
  The node strips the reply and cuts out the text from the first `{` to the last `}`. It
  parses that text as JSON, routes to the tool when `"tool" in` the parsed value holds,
  and appends the value again in serialised form. Any failure appends the fixed answer
  `{"final_answer": "I encountered an error while processing your request."}` and ends
  the run.
- `call_tool` parses the latest message again and runs the `say_hello` tool when asked
  for it by name with a truthy `tool_input`. It appends one `{"final_answer": …}` and
  ends the run.
- The driver runs `call_model`, then runs `call_tool` exactly when `next` is `'call_tool'`.

Modules:

- `Wrappers`: `Option` and `Result`.
- `Text`: Python's `str.strip()`, `str.find`, `str.rfind` and `t in s`.
  Whitespace is the set that `str.isspace` accepts.
- `Json`: decoded JSON values and the Python operations the nodes apply to them.
  These are truthiness, `key in v`, `v[key]` and `dict.get`. The module also holds an
  abstract codec (`loads`/`dumps`).
- `Extraction`: the brace extraction of `call_model`.
- `Nodes`: what each node computes, as pure functions.
  - `Decide` is call_model's outcome.
  - `ToolAnswer` and `Dispatch` are call_tool's outcome.
  - `Hop` is what one run appends.
- `Workflow`: the class `AgentState`. Its methods `CallModel`, `CallTool` and `Run`
  update `messages` and `next` in place, and each is proved against the function that
  specifies it.

The language model, the prose of the prompt, the JSON library, and the tool framework's
argument conversion are not defined here. They are fields of an `Env` value.

Some lemmas need `call_tool` to read back exactly what `call_model` wrote. Those lemmas
require `RoundTrips(env.codec)`. It says that a value `loads` produced, once serialised
and parsed again, is the same value. It is asked only of parsed values: no codec could
round-trip every real number through strings. `Json.RoundTripsIsSatisfiable` exhibits a
codec that meets it. `Nodes.EveryReplyIsReachable` shows that for every value, some
model and some such codec make it the parsed reply. So the scenario lemmas do not hold
vacuously.

Where the code's behaviour may be unexpected, the model follows the code:

- Any JSON object with a `"tool"` key is routed to the tool. Extra keys are accepted.
  A parsed value that is not an object is accepted as well, and `in` applies to it as
  Python's `in` does.
- Only a falsy `tool_input` is rejected. A name made of blanks is greeted (`BlankNameIsGreeted`).
- An unknown tool name gives "I couldn't execute the tool properly.", which is not an
  "Error executing tool" answer.
- An exception in `call_tool` puts its text into the answer, after "Error executing tool: ".
- `messages[-1]` is evaluated outside the `try` in both nodes. On an empty message list
  the IndexError escapes. The model returns it as `Some(IndexError)` and leaves the state
  unchanged.
- The graph's edges are unconditional, which the table under "Findings" records.

## Model

| member | source | states |
|---|---|---|
| Text.LStrip | agentic_hello_world.py:59 | the leading part that `strip()` drops is whitespace only, and the rest is a suffix that does not start with whitespace |
| Text.RStrip | agentic_hello_world.py:59 | the trailing part that `strip()` drops is whitespace only, and the rest is a prefix that does not end with whitespace |
| Text.Strip | agentic_hello_world.py:59 | the stripped reply is no longer than the reply and neither starts nor ends with whitespace |
| Text.StripRemovesOnlySpace | agentic_hello_world.py:59 | the stripped reply sits inside the raw reply with nothing but whitespace on either side |
| Text.StripIdempotent | agentic_hello_world.py:59 | stripping twice gives the same text as stripping once |
| Text.Find | agentic_hello_world.py:63 | `find` gives -1 or an index holding the character, and no earlier index (none at all for -1) holds it |
| Text.RFind | agentic_hello_world.py:64 | `rfind` gives -1 or an index holding the character, and no later index holds it |
| Text.HasInfix | agentic_hello_world.py:69 | `t in s` on strings holds exactly when `t` occurs in `s` at some index |
| Json.Contains | agentic_hello_world.py:69 | `"tool" in v` raises exactly on None, bool and numbers, and on a dict it tests the keys |
| Json.GetItem | agentic_hello_world.py:93 | `v["tool"]` yields a value exactly when `v` is a dict holding the key, and that value is the key's entry |
| Json.Truthy | agentic_hello_world.py:95 | `if tool_input:` fails exactly for None, False, 0, 0.0, "", [] and {} |
| Extraction.ExtractJson | agentic_hello_world.py:62-66 | a candidate is the slice from the first '{' to the last '}' and exists only when the last '}' follows the first '{'; it begins with '{' and ends with '}' |
| Extraction.ExtractJsonBetween | agentic_hello_world.py:63-66 | the candidate, given the first '{' and the last '}', is the slice between them |
| Extraction.ExtractJsonNone | agentic_hello_world.py:65-76 | with no '{', or with the last '}' before the first '{', there is no candidate |
| Extraction.ExtractJsonFinds | agentic_hello_world.py:62-66 | a candidate exists exactly when some '{' has a '}' after it |
| Extraction.ExtractJsonFails | agentic_hello_world.py:65-76 | the ValueError path is taken exactly when there is no '{', or no '}' after the first '{' |
| Extraction.ExtractJsonIdempotent | agentic_hello_world.py:62-66 | extracting from an extracted candidate gives the candidate back |
| Extraction.ExtractJsonIgnoresStrip | agentic_hello_world.py:59-66 | stripping the reply first does not change the candidate |
| Nodes.SayHello | agentic_hello_world.py:21-23 | the greeting has the shape "Hello, <name>!" for exactly the given name and is 8 characters longer |
| Nodes.GreetedNameInvertsSayHello | agentic_hello_world.py:21-23 | a text greets `n` exactly when it is `say_hello(n)` |
| Nodes.Prompt | agentic_hello_world.py:32-54 | the prompt is the instructions, "Current request: ", the latest message and "\n\nJSON response:"; its shape is stated by PromptEmbedsRequest |
| Nodes.PromptEmbedsRequest | agentic_hello_world.py:32-54 | the prompt holds the latest message verbatim right after the instructions and "Current request: ", and ends with "JSON response:" |
| Nodes.Reply | agentic_hello_world.py:59-67 | the model call, the strip, the extraction and `loads` succeed exactly when the model answers, the raw reply holds a candidate, and `loads` accepts it; the value is then `loads` of the candidate of the raw reply (the strip changes nothing), a parsed value |
| Nodes.Decide | agentic_hello_world.py:58-83 | call_model routes to the tool exactly when a reply was obtained and parsed and `"tool" in` it is true; when `in` applies it appends the parsed reply; a failure of any step, `in` included, appends the error answer and ends |
| Nodes.DecideOnCandidate | agentic_hello_world.py:66-83 | once a candidate is cut out, a loads failure or an `in` failure gives the error answer; otherwise the parsed value is appended and the routing follows `"tool" in` |
| Nodes.DecideWithoutCandidate | agentic_hello_world.py:65-83 | a reply without a candidate gives the error answer |
| Nodes.DecideOnObject | agentic_hello_world.py:63-74 | for a reply that parses to an object, call_model appends that object and routes to the tool exactly when it has a "tool" key |
| Nodes.DecideWithoutBraces | agentic_hello_world.py:62-83 | a reply without a '{' followed by a '}' raises the ValueError and takes the error path |
| Nodes.DecideOnFailure | agentic_hello_world.py:58-83 | a failed model call, or a candidate that loads rejects, takes the error path |
| Nodes.InvokeSayHello | agentic_hello_world.py:95-96 | a string input is greeted as is; any successful call yields a greeting |
| Nodes.Dispatch | agentic_hello_world.py:93-112 | call_tool's answer for a parsed value comes from a closed set; a missing or different tool name gives the cannot-execute answer; a falsy input gives the no-name answer; a non-empty string input gives `say_hello` of it; other inputs go through the framework's conversion; a value that is not an object gives the cannot-execute answer or an error answer |
| Nodes.ToolAnswer | agentic_hello_world.py:91-112 | call_tool's answer for any latest message, parse failure included, is the no-name answer, the cannot-execute answer, an error answer or a greeting; a parse failure gives "Error executing tool: " and the parser's text |
| Nodes.AnswersAreDistinct | agentic_hello_world.py:97-112 | a greeting is never one of the fixed answers nor an error answer, and an error answer is neither fixed answer |
| Nodes.GreetingOnlyFromTool | agentic_hello_world.py:93-99 | a greeting answer comes only from an object that names say_hello and has a truthy tool_input |
| Nodes.BlankNameIsGreeted | agentic_hello_world.py:94-96 | a non-empty tool_input made only of whitespace is still greeted |
| Nodes.DispatchIgnoresExtraKeys | agentic_hello_world.py:93-94 | keys other than "tool" and "tool_input" do not change call_tool's answer |
| Nodes.ToolAnswerRereadsReply | agentic_hello_world.py:74-92 | under the round-trip assumption, call_tool reads back exactly the parsed value call_model appended |
| Nodes.Hop | agentic_hello_world.py:28-115 | one run appends one or two assistant messages; it appends two exactly when call_model routed to the tool, and the first is call_model's serialised reply |
| Nodes.HopFinalAnswer | agentic_hello_world.py:87-115 | the last message of a run is call_model's reply when it ended the run, and otherwise call_tool's answer for that very reply |
| Nodes.HelloBob | agentic_hello_world.py:93-99 | the reply {"tool": "say_hello", "tool_input": "Bob"} ends with {"final_answer": "Hello, Bob!"} |
| Nodes.UnknownTool | agentic_hello_world.py:104-107 | a reply naming another tool ends with the cannot-execute answer |
| Nodes.WiredHop | agentic_hello_world.py:125-127 | with the edges as declared, call_tool runs after every call_model, so two messages are appended |
| Nodes.WiredHopBuriesFinalAnswer | agentic_hello_world.py:125-127 | as wired, a plain final answer from the model is followed by the cannot-execute answer; the run that routes on `next` ends with the model's answer |
| Workflow.AgentState.constructor | agentic_hello_world.py:15-17 | the state holds the given messages and `next` |
| Workflow.AgentState.CallModel | agentic_hello_world.py:28-85 | appends exactly Decide's reply, serialised, and sets `next` to Decide's route, keeping every earlier message; on an empty list it raises IndexError and changes nothing |
| Workflow.AgentState.CallTool | agentic_hello_world.py:87-115 | appends exactly ToolAnswer's final answer for the latest message and sets `next` to END, keeping every earlier message; on an empty list it raises IndexError and changes nothing |
| Workflow.AgentState.Run | agentic_hello_world.py:121-133 | call_model, then call_tool exactly when `next` is 'call_tool', appends exactly Hop's messages and ends with `next` at END |
| Workflow.Ask | agentic_hello_world.py:137-140 | the invocation with one human message under the corrected driver `Run`: it ends with two or three messages, the human message followed by Hop's, and `next` at END (the graph as wired appends WiredHop's two messages instead) |

## Left out

- The Ollama model call: `Env.oracle`, an arbitrary function from prompt to reply or failure. Timeouts and nondeterminism are not modelled.
- The prose of the prompt (lines 32-51): `Env.instructions`. Only the request label, the embedded message and the closing "JSON response:" are spelled out.
- `json.loads` and `json.dumps`: the abstract `Env.codec`. The round trip of parsed values is a precondition (`RoundTrips`) of the lemmas that need it, and a codec that meets it is exhibited. Dict key order, duplicate keys, NaN and Infinity are not modelled. JSON floats are reals.
- The tool framework's validation of a non-string `tool_input` before `say_hello` runs: `Env.toolArgument`.
- Nodes.InvokeSayHello: line 96 calls the object the `@tool` decorator (line 20) builds, not the plain function. The model takes that wrapper to pass a string input unchanged to `say_hello` and to return its result; the wrapper's own input parsing, callbacks and error handling for a string input are not modelled.
- Texts of exceptions raised by the model client, the JSON library and the tool framework are opaque strings. The TypeError and KeyError texts of `in` and `[]` follow CPython 3.12 wording. Only the "Error executing tool: " prefix is claimed.
- Logging (lines 11-12, 56, 60, 79, 109) has no effect on the state and is left out.
- LangGraph's scheduling, state copying and compilation (lines 117-133) are left out. `Workflow.AgentState.Run` is the driver that routes on `next`; `Nodes.WiredHop` is the graph as declared.
- The `__main__` block (lines 135-155) prints the last answer. Printing is left out. Its `chain.invoke` (lines 137-140) runs the graph as wired, and `Nodes.WiredHop` is what that appends. `Workflow.Ask` is the same invocation under the corrected driver `Run`.

## Findings

| source | as written | input that shows it | evidently intended | confidence | as-written member | corrected member |
|---|---|---|---|---|---|---|
| agentic_hello_world.py:125-127 | both edges out of call_model are unconditional and nothing reads `next`, so call_tool runs after every call_model | the model replies {"final_answer": "Hi"}: call_tool then appends {"final_answer": "I couldn't execute the tool properly."}, and that becomes the last message | run call_tool only when call_model set `next` to 'call_tool' (a conditional edge), so the model's final answer is the last message | not executed | Nodes.WiredHopBuriesFinalAnswer | Workflow.AgentState.Run |
