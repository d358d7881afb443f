/** The agent state and the two graph nodes that update it in place, with the driver
    that runs call_model and then, when it routes there, call_tool. */
module Workflow {
  import opened Wrappers
  import opened Text
  import opened Json
  import opened Extraction
  import opened Nodes

  /** The conversation record shared by the nodes: the message list and the `next` field. */
  class AgentState {
    var messages: seq<Message>
    var next: Next

    constructor (messages: seq<Message>, next: Next)
      ensures this.messages == messages && this.next == next
    {
      this.messages := messages;
      this.next := next;
    }

    /** The content of the latest message. */
    function Latest(): string
      reads this
      requires messages != []
    {
      messages[|messages| - 1].content
    }

    /** call_model: asks the model about the latest message and appends exactly one message,
        the parsed reply or the fixed error answer, leaving the earlier ones as they were.
        On an empty message list the IndexError escapes and nothing changes. */
    method CallModel(env: Env) returns (raised: Option<Exc>)
      modifies this
      ensures old(messages) == [] ==> raised == Some(IndexError) && messages == old(messages) && next == old(next)
      ensures old(messages) != [] ==>
        var d := Decide(old(Latest()), env);
        raised == None && next == d.next && messages == old(messages) + [Ai(env.codec.dumps(d.reply))]
    {
      if messages == [] {
        return Some(IndexError);
      }
      ghost var request := Latest();
      var prompt := Prompt(env.instructions, messages[|messages| - 1].content);
      var reply, route := FinalAnswer(ErrorText), End;
      var answer := env.oracle(prompt);
      if answer.Success? {
        var response := Strip(answer.value);
        var start := Find(response, '{');
        var end := RFind(response, '}') + 1;
        ExtractJsonSteps(response, start, end);
        if start >= 0 && end > start {
          var jsonStr := response[start..end];
          DecideOnCandidate(request, env, answer.value, jsonStr);
          var parsed := env.codec.loads(jsonStr);
          if parsed.Success? {
            var hasTool := Contains(parsed.value, "tool");
            if hasTool.Success? {
              reply := parsed.value;
              route := if hasTool.value then Next.CallTool else End;
            }
          }
        } else {
          DecideWithoutCandidate(request, env, answer.value);
        }
      }
      messages := messages + [Ai(env.codec.dumps(reply))];
      next := route;
      raised := None;
    }

    /** call_tool: re-reads the latest message, runs the tool when it is asked for, and
        appends exactly one final answer, leaving the earlier messages as they were; the
        run then ends. On an empty message list the IndexError escapes and nothing changes. */
    method CallTool(env: Env) returns (raised: Option<Exc>)
      modifies this
      ensures old(messages) == [] ==> raised == Some(IndexError) && messages == old(messages) && next == old(next)
      ensures old(messages) != [] ==>
        raised == None && next == End &&
        messages == old(messages) + [Ai(env.codec.dumps(FinalAnswer(ToolAnswer(old(Latest()), env))))]
    {
      if messages == [] {
        return Some(IndexError);
      }
      var lastMessage := messages[|messages| - 1];
      var answer: string;
      var parsed := env.codec.loads(lastMessage.content);
      if parsed.Failure? {
        answer := ToolErrorPrefix + parsed.error;
      } else {
        var hasTool := Contains(parsed.value, "tool");
        if hasTool.Failure? {
          answer := ToolErrorPrefix + hasTool.error;
        } else if !hasTool.value {
          answer := ToolFailedText;
        } else {
          var tool := GetItem(parsed.value, "tool");
          if tool.Failure? {
            answer := ToolErrorPrefix + tool.error;
          } else if tool.value != JString("say_hello") {
            answer := ToolFailedText;
          } else {
            var toolInput := Get(parsed.value.fields, "tool_input", JString(""));
            if Truthy(toolInput) {
              var result := InvokeSayHello(toolInput, env);
              if result.Success? {
                answer := result.value;
              } else {
                answer := ToolErrorPrefix + result.error;
              }
            } else {
              answer := NoNameText;
            }
          }
        }
      }
      messages := messages + [Ai(env.codec.dumps(FinalAnswer(answer)))];
      next := End;
      raised := None;
    }

    /** One run of the graph for the latest message: call_model, then call_tool exactly when
        call_model set `next` to 'call_tool'. It appends the one or two messages of Hop,
        keeps every earlier message, and always ends with `next` at the end marker. */
    method Run(env: Env) returns (raised: Option<Exc>)
      modifies this
      ensures old(messages) == [] ==> raised == Some(IndexError) && messages == old(messages) && next == old(next)
      ensures old(messages) != [] ==>
        raised == None && next == End &&
        messages == old(messages) + Hop(old(Latest()), env) &&
        old(|messages|) + 1 <= |messages| <= old(|messages|) + 2
    {
      ghost var request := if messages == [] then "" else Latest();
      raised := CallModel(env);
      if raised == None && next == Next.CallTool {
        ghost var first := Ai(env.codec.dumps(Decide(request, env).reply));
        assert Latest() == first.content;
        raised := CallTool(env);
      }
    }
  }

  /** A fresh conversation with one human message, run once, ends after at most two
      assistant messages with `next` at the end marker. */
  method Ask(request: string, env: Env) returns (state: AgentState)
    ensures fresh(state) && state.next == End
    ensures state.messages == [Human(request)] + Hop(request, env)
    ensures 2 <= |state.messages| <= 3
  {
    state := new AgentState([Human(request)], Unset);
    var raised := state.Run(env);
  }
}
