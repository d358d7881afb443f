/** What the two nodes of the agent graph compute, as functions of the latest message and
    of the environment (the language model, the JSON library and the tool framework).
    The state-changing nodes themselves are in module Workflow. */
module Nodes {
  import opened Wrappers
  import opened Text
  import opened Json
  import opened Extraction

  /** A conversation message: the caller's HumanMessage or the agent's AIMessage. */
  datatype Message = Human(content: string) | Ai(content: string)

  /** The `next` field of the agent state: the empty string the caller starts with,
      'call_tool', or the graph library's END marker. */
  datatype Next = Unset | CallTool | End

  /** The exceptions of call_model before its routing test, and the IndexError of both
      nodes. Only IndexError escapes a node; the others are caught and logged. */
  datatype Exc =
    | IndexError                 // messages[-1] on an empty message list
    | OracleError(detail: string) // the language-model call failed
    | NoJsonObject               // the ValueError raised when no braces are found
    | DecodeError(detail: string) // json.loads rejected the candidate text

  /** Everything the nodes consult but do not define: the prose of the prompt before the
      request, the language model (prompt to reply, or failure), the JSON library, and the
      tool framework's conversion of a non-string tool input into the `name` argument. */
  datatype Env = Env(
    instructions: string,
    oracle: string -> Result<string, string>,
    codec: Codec,
    toolArgument: Json -> Result<string, string>)

  const ErrorText := "I encountered an error while processing your request."
  const NoNameText := "No name was provided to say hello to."
  const ToolFailedText := "I couldn't execute the tool properly."
  const ToolErrorPrefix := "Error executing tool: "

  /** The object {"final_answer": text}. */
  function FinalAnswer(text: string): Json
  {
    JObject(map["final_answer" := JString(text)])
  }

  // ---------------------------------------------------------------- the tool

  /** The name a greeting greets, if the text has the shape "Hello, <name>!". */
  function GreetedName(r: string): Option<string>
  {
    if |r| >= 8 && r[..7] == "Hello, " && r[|r| - 1] == '!' then Some(r[7..|r| - 1]) else None
  }

  /** The say_hello tool: its result greets exactly `name`. */
  function SayHello(name: string): (r: string)
    ensures GreetedName(r) == Some(name)
    ensures |r| == |name| + 8
  {
    var r := "Hello, " + name + "!";
    assert r[..7] == "Hello, ";
    assert r[7..|r| - 1] == name;
    r
  }

  /** GreetedName inverts SayHello: a text greets `n` exactly when it is SayHello(n). */
  lemma GreetedNameInvertsSayHello(r: string, n: string)
    ensures GreetedName(r) == Some(n) <==> r == SayHello(n)
  {
    if GreetedName(r) == Some(n) {
      assert r == r[..7] + r[7..|r| - 1] + [r[|r| - 1]];
    }
  }

  // ---------------------------------------------------------------- the prompt

  const RequestLabel := "Current request: "
  const PromptEnd := "\n\nJSON response:"

  /** The prompt sent to the model: the fixed instructions, the request label, the latest
      message's content, then the request for a JSON response. */
  function Prompt(instructions: string, request: string): string
  {
    instructions + RequestLabel + request + PromptEnd
  }

  /** The prompt embeds the latest message's content verbatim, after the instructions and the
      request label, and ends by asking for the JSON response. */
  lemma PromptEmbedsRequest(instructions: string, request: string)
    ensures var p := Prompt(instructions, request);
      OccursAt(request, p, |instructions| + |RequestLabel|) &&
      p[..|instructions|] == instructions && p[|p| - |PromptEnd|..] == PromptEnd
  {
    var p := Prompt(instructions, request);
    assert p[|instructions| + |RequestLabel|..|instructions| + |RequestLabel| + |request|] == request;
  }

  // ---------------------------------------------------------------- call_model

  /** What call_model appends, serialised, and where it routes the graph next. */
  datatype Decision = Decision(reply: Json, next: Next)

  /** The outcome of every failure in call_model: the fixed error answer, and the end. */
  const ErrorDecision := Decision(FinalAnswer(ErrorText), End)

  /** The model's reply to the latest request, parsed: the model call, the strip, the brace
      extraction and json.loads, each of which may fail. */
  function Reply(request: string, env: Env): (r: Result<Json, Exc>)
    ensures r.Success? <==>
      var answer := env.oracle(Prompt(env.instructions, request));
      answer.Success? && ExtractJson(answer.value).Some? && env.codec.loads(ExtractJson(answer.value).value).Success?
    ensures r.Success? ==> Parsed(env.codec, r.value)
    ensures r.Success? ==> Success(r.value) == env.codec.loads(ExtractJson(env.oracle(Prompt(env.instructions, request)).value).value)
  {
    match env.oracle(Prompt(env.instructions, request))
    case Failure(e) => Failure(OracleError(e))
    case Success(raw) =>
      ExtractJsonIgnoresStrip(raw);
      match ExtractJson(Strip(raw))
      case None => Failure(NoJsonObject)
      case Some(candidate) =>
        match env.codec.loads(candidate)
        case Failure(e) => Failure(DecodeError(e))
        case Success(v) => Success(v)
  }

  /** The decision call_model takes for the latest request. It routes to the tool exactly
      when a reply was obtained and parsed and `"tool" in reply` holds; it then appends the
      parsed reply. Any failure appends the fixed error answer and ends. */
  function Decide(request: string, env: Env): (d: Decision)
    ensures d.next == CallTool || d.next == End
    ensures d.next == CallTool <==> Reply(request, env).Success? && Contains(Reply(request, env).value, "tool") == Success(true)
    ensures d != ErrorDecision ==> Reply(request, env) == Success(d.reply)
    ensures Reply(request, env).Failure? ==> d == ErrorDecision
    ensures Reply(request, env).Success? && Contains(Reply(request, env).value, "tool").Success? ==>
      d.reply == Reply(request, env).value
    ensures Reply(request, env).Success? && Contains(Reply(request, env).value, "tool").Failure? ==> d == ErrorDecision
  {
    match Reply(request, env)
    case Failure(_) => ErrorDecision
    case Success(v) =>
      match Contains(v, "tool")
      case Failure(_) => ErrorDecision
      case Success(hasTool) => Decision(v, if hasTool then CallTool else End)
  }

  /** The decision once the candidate text has been cut out of the model's reply: the
      error answer unless json.loads accepts the candidate and `"tool" in` applies to it. */
  lemma DecideOnCandidate(request: string, env: Env, raw: string, candidate: string)
    requires env.oracle(Prompt(env.instructions, request)) == Success(raw)
    requires ExtractJson(Strip(raw)) == Some(candidate)
    ensures env.codec.loads(candidate).Failure? ==> Decide(request, env) == ErrorDecision
    ensures env.codec.loads(candidate).Success? ==>
      var v := env.codec.loads(candidate).value;
      match Contains(v, "tool")
      case Failure(_) => Decide(request, env) == ErrorDecision
      case Success(hasTool) => Decide(request, env) == Decision(v, if hasTool then CallTool else End)
  {
  }

  /** The decision when the model's reply holds no candidate text. */
  lemma DecideWithoutCandidate(request: string, env: Env, raw: string)
    requires env.oracle(Prompt(env.instructions, request)) == Success(raw)
    requires ExtractJson(Strip(raw)) == None
    ensures Decide(request, env) == ErrorDecision
  {
  }

  /** For a reply that parses to an object, which is what a text from '{' to '}' parses to,
      call_model routes to the tool exactly when the object has a "tool" key, whatever
      its other keys, and appends the object itself. */
  lemma DecideOnObject(request: string, env: Env, raw: string, fields: map<string, Json>)
    requires env.oracle(Prompt(env.instructions, request)) == Success(raw)
    requires ExtractJson(raw).Some? && env.codec.loads(ExtractJson(raw).value) == Success(JObject(fields))
    ensures Decide(request, env) == Decision(JObject(fields), if "tool" in fields then CallTool else End)
  {
    ExtractJsonIgnoresStrip(raw);
    assert Reply(request, env) == Success(JObject(fields));
    assert Contains(JObject(fields), "tool") == Success("tool" in fields);
  }

  /** A reply without a '{' followed somewhere by a '}' takes the error path. */
  lemma DecideWithoutBraces(request: string, env: Env, raw: string)
    requires env.oracle(Prompt(env.instructions, request)) == Success(raw)
    requires !exists i, j :: 0 <= i < j < |raw| && raw[i] == '{' && raw[j] == '}'
    ensures Reply(request, env) == Failure(NoJsonObject)
    ensures Decide(request, env) == ErrorDecision
  {
    ExtractJsonFinds(raw);
    ExtractJsonIgnoresStrip(raw);
  }

  /** A failed model call, or a candidate that json.loads rejects, takes the error path. */
  lemma DecideOnFailure(request: string, env: Env)
    requires env.oracle(Prompt(env.instructions, request)).Failure? ||
             (var raw := env.oracle(Prompt(env.instructions, request)).value;
              ExtractJson(raw).Some? && env.codec.loads(ExtractJson(raw).value).Failure?)
    ensures Decide(request, env) == ErrorDecision
  {
    if env.oracle(Prompt(env.instructions, request)).Success? {
      ExtractJsonIgnoresStrip(env.oracle(Prompt(env.instructions, request)).value);
    }
  }

  // ---------------------------------------------------------------- call_tool

  /** The tool call names say_hello. */
  predicate NamesSayHello(fields: map<string, Json>)
  {
    "tool" in fields && fields["tool"] == JString("say_hello")
  }

  /** The tool input, defaulting to the empty string when the key is missing. */
  function ToolInput(fields: map<string, Json>): Json
  {
    Get(fields, "tool_input", JString(""))
  }

  /** Calling the say_hello tool on a decoded input: a string is the name itself; any other
      value goes through the tool framework's argument conversion first, which may fail. */
  function InvokeSayHello(input: Json, env: Env): (r: Result<string, string>)
    ensures input.JString? ==> r == Success(SayHello(input.s))
    ensures r.Success? ==> GreetedName(r.value).Some?
  {
    match input
    case JString(name) => Success(SayHello(name))
    case _ =>
      match env.toolArgument(input)
      case Success(name) => Success(SayHello(name))
      case Failure(e) => Failure(e)
  }

  /** The error answer built from an exception's text. */
  predicate IsToolError(text: string)
  {
    |text| >= |ToolErrorPrefix| && text[..|ToolErrorPrefix|] == ToolErrorPrefix
  }

  /** The final answer call_tool gives for a decoded message. The tool runs only when the
      object names say_hello and carries a truthy tool_input; an empty or missing input gives
      the no-name answer; a missing or different tool name gives the cannot-execute answer;
      an exception gives "Error executing tool: " followed by its text. */
  function Dispatch(v: Json, env: Env): (text: string)
    ensures text == NoNameText || text == ToolFailedText || IsToolError(text) || GreetedName(text).Some?
    ensures v.JObject? && !NamesSayHello(v.fields) ==> text == ToolFailedText
    ensures v.JObject? && NamesSayHello(v.fields) && !Truthy(ToolInput(v.fields)) ==> text == NoNameText
    ensures v.JObject? && NamesSayHello(v.fields) && ToolInput(v.fields).JString? && ToolInput(v.fields).s != "" ==>
      text == SayHello(ToolInput(v.fields).s)
    ensures v.JObject? && NamesSayHello(v.fields) && Truthy(ToolInput(v.fields)) && !ToolInput(v.fields).JString? ==>
      text == match env.toolArgument(ToolInput(v.fields))
              case Success(name) => SayHello(name)
              case Failure(e) => ToolErrorPrefix + e
    ensures !v.JObject? ==> text == ToolFailedText || IsToolError(text)
  {
    match Contains(v, "tool")
    case Failure(e) => ToolErrorPrefix + e
    case Success(hasTool) =>
      if !hasTool then ToolFailedText
      else
        (match GetItem(v, "tool")
         case Failure(e) => ToolErrorPrefix + e
         case Success(tool) =>
           if tool != JString("say_hello") then ToolFailedText
           else
             var input := ToolInput(v.fields);
             if !Truthy(input) then NoNameText
             else
               (match InvokeSayHello(input, env)
                case Success(greeting) => greeting
                case Failure(e) => ToolErrorPrefix + e))
  }

  /** The final answer call_tool gives for the content of the latest message: it is parsed
      again, and a parse failure gives "Error executing tool: " and the parser's error text. */
  function ToolAnswer(content: string, env: Env): (text: string)
    ensures env.codec.loads(content).Failure? ==> text == ToolErrorPrefix + env.codec.loads(content).error
    ensures env.codec.loads(content).Success? ==> text == Dispatch(env.codec.loads(content).value, env)
    ensures text == NoNameText || text == ToolFailedText || IsToolError(text) || GreetedName(text).Some?
  {
    match env.codec.loads(content)
    case Failure(e) => ToolErrorPrefix + e
    case Success(v) => Dispatch(v, env)
  }

  /** The four kinds of final answer are told apart by their text: a greeting is never one
      of the fixed answers nor an error answer. */
  lemma AnswersAreDistinct(text: string)
    ensures GreetedName(text).Some? ==> text != NoNameText && text != ToolFailedText && !IsToolError(text)
    ensures IsToolError(text) ==> text != NoNameText && text != ToolFailedText
  {
    if GreetedName(text).Some? {
      assert text[0] == 'H';
      assert NoNameText[0] == 'N' && ToolFailedText[0] == 'I';
    }
    if IsToolError(text) {
      assert text[0] == 'E';
    }
  }

  /** The tool runs only when asked for by name with a non-empty input: a greeting answer
      comes only from an object that names say_hello and carries a truthy tool_input. */
  lemma GreetingOnlyFromTool(v: Json, env: Env)
    requires GreetedName(Dispatch(v, env)).Some?
    ensures v.JObject? && NamesSayHello(v.fields) && Truthy(ToolInput(v.fields))
  {
    AnswersAreDistinct(Dispatch(v, env));
  }

  /** Only the empty string is rejected as a name: an input made of blanks is greeted. */
  lemma BlankNameIsGreeted(fields: map<string, Json>, name: string, env: Env)
    requires NamesSayHello(fields) && "tool_input" in fields && fields["tool_input"] == JString(name)
    requires name != "" && forall i :: 0 <= i < |name| ==> IsSpace(name[i])
    ensures Dispatch(JObject(fields), env) == SayHello(name)
  {
  }

  /** Keys other than "tool" and "tool_input" do not change call_tool's answer. */
  lemma DispatchIgnoresExtraKeys(fields: map<string, Json>, key: string, value: Json, env: Env)
    requires key != "tool" && key != "tool_input"
    ensures Dispatch(JObject(fields[key := value]), env) == Dispatch(JObject(fields), env)
  {
    var extended := fields[key := value];
    assert NamesSayHello(extended) == NamesSayHello(fields);
    assert ToolInput(extended) == ToolInput(fields);
  }

  /** Under the round-trip assumption, call_tool re-reads exactly what call_model appended:
      a value json.loads produced. */
  lemma ToolAnswerRereadsReply(v: Json, env: Env)
    requires RoundTrips(env.codec) && Parsed(env.codec, v)
    ensures ToolAnswer(env.codec.dumps(v), env) == Dispatch(v, env)
  {
    ParsedRoundTrips(env.codec, v);
  }

  // ---------------------------------------------------------------- one hop

  /** The messages one run of the graph appends for the latest request: call_model's, then
      call_tool's exactly when call_model routed to the tool. */
  function Hop(request: string, env: Env): (appended: seq<Message>)
    ensures 1 <= |appended| <= 2
    ensures |appended| == 2 <==> Decide(request, env).next == CallTool
    ensures appended[0] == Ai(env.codec.dumps(Decide(request, env).reply))
    ensures forall k :: 0 <= k < |appended| ==> appended[k].Ai?
  {
    var d := Decide(request, env);
    var first := Ai(env.codec.dumps(d.reply));
    if d.next == CallTool then [first, Ai(env.codec.dumps(FinalAnswer(ToolAnswer(first.content, env))))]
    else [first]
  }

  /** The last message of a hop: what call_model appended when it ended the run (its parsed
      reply, or the fixed error answer), and otherwise call_tool's answer for that very reply,
      which Dispatch draws from a closed set. */
  lemma HopFinalAnswer(request: string, env: Env)
    requires RoundTrips(env.codec)
    ensures var d := Decide(request, env);
            var last := Hop(request, env)[|Hop(request, env)| - 1];
            if d.next == End then last == Ai(env.codec.dumps(d.reply))
            else last == Ai(env.codec.dumps(FinalAnswer(Dispatch(d.reply, env))))
  {
    var d := Decide(request, env);
    if d.next == CallTool {
      assert Parsed(env.codec, d.reply);
      ToolAnswerRereadsReply(d.reply, env);
    }
  }

  /** The scenarios below are not vacuous: for every value, some model and some codec that
      meets the round-trip assumption make it the parsed reply. */
  lemma EveryReplyIsReachable(v: Json)
    ensures exists request: string, env: Env :: RoundTrips(env.codec) && Reply(request, env) == Success(v)
  {
    var text := "{}";
    EmptyObjectText();
    var codec := Codec(s => if s == text then Success(v) else Failure("Expecting value"), w => text);
    var env := Env("", p => Success(text), codec, w => Failure(""));
    assert RoundTrips(codec);
    assert Reply("", env) == Success(v);
  }

  /** The reply "{}" is its own stripped form and its own candidate. */
  lemma EmptyObjectText()
    ensures Strip("{}") == "{}" && ExtractJson("{}") == Some("{}")
  {
    var text := "{}";
    assert !IsSpace(text[0]) && !IsSpace(text[1]);
    ExtractJsonBetween(text, 0, 1);
    assert text[0..2] == text;
  }

  /** A request the model answers with {"tool": "say_hello", "tool_input": "Bob"} ends with
      the answer {"final_answer": "Hello, Bob!"}. */
  lemma HelloBob(request: string, env: Env)
    requires RoundTrips(env.codec)
    requires Reply(request, env) == Success(JObject(map["tool" := JString("say_hello"), "tool_input" := JString("Bob")]))
    ensures Hop(request, env)[|Hop(request, env)| - 1] == Ai(env.codec.dumps(FinalAnswer("Hello, Bob!")))
  {
    var fields := map["tool" := JString("say_hello"), "tool_input" := JString("Bob")];
    assert Decide(request, env) == Decision(JObject(fields), CallTool) by {
      assert Contains(JObject(fields), "tool") == Success(true);
    }
    GreetBob(fields, env);
    HopFinalAnswer(request, env);
  }

  /** call_tool's answer to {"tool": "say_hello", "tool_input": "Bob"}. */
  lemma GreetBob(fields: map<string, Json>, env: Env)
    requires fields == map["tool" := JString("say_hello"), "tool_input" := JString("Bob")]
    ensures Dispatch(JObject(fields), env) == "Hello, Bob!"
  {
    assert NamesSayHello(fields) && ToolInput(fields) == JString("Bob");
    assert SayHello("Bob") == "Hello, Bob!";
  }

  /** A request the model answers with an unknown tool ends with the cannot-execute answer. */
  lemma UnknownTool(request: string, env: Env, name: string, input: Json)
    requires RoundTrips(env.codec) && name != "say_hello"
    requires Reply(request, env) == Success(JObject(map["tool" := JString(name), "tool_input" := input]))
    ensures Hop(request, env)[|Hop(request, env)| - 1] == Ai(env.codec.dumps(FinalAnswer(ToolFailedText)))
  {
    var fields := map["tool" := JString(name), "tool_input" := input];
    assert Contains(JObject(fields), "tool") == Success(true);
    HopFinalAnswer(request, env);
  }

  // ---------------------------------------------------------------- the graph as wired

  /** The hop as the graph's edges are declared: both edges out of call_model are
      unconditional and no edge reads `next`, so call_tool follows call_model every time. */
  function WiredHop(request: string, env: Env): (appended: seq<Message>)
    ensures |appended| == 2 && appended[0] == Hop(request, env)[0]
    ensures Decide(request, env).next == CallTool ==> appended == Hop(request, env)
  {
    var d := Decide(request, env);
    var first := Ai(env.codec.dumps(d.reply));
    [first, Ai(env.codec.dumps(FinalAnswer(ToolAnswer(first.content, env))))]
  }

  /** As wired, a plain final answer from the model is followed by the cannot-execute answer,
      so the caller reads that instead of the model's answer; the hop that routes on `next`
      ends with the model's answer. */
  lemma WiredHopBuriesFinalAnswer(request: string, env: Env, text: string)
    requires RoundTrips(env.codec)
    requires Reply(request, env) == Success(FinalAnswer(text))
    ensures WiredHop(request, env)[1] == Ai(env.codec.dumps(FinalAnswer(ToolFailedText)))
    ensures Hop(request, env) == [Ai(env.codec.dumps(FinalAnswer(text)))]
  {
    assert Contains(FinalAnswer(text), "tool") == Success(false);
    assert Decide(request, env) == Decision(FinalAnswer(text), End);
    ToolAnswerRereadsReply(FinalAnswer(text), env);
  }
}
