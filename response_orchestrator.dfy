/**
 * The orchestrator: it puts its own system prompt in front of the context,
 * asks the classifier model for an agent code and picks the agent with that
 * code, falling back to `#1`. The classifier's reply is an input; calling
 * the chosen agent is left to the caller, which gets the agent and the
 * context to call it with.
 */
module ResponseOrchestrator {
  import opened Wrappers
  import opened Text
  import opened Messages

  const SystemPrompt :=
    "Sua função é delegar a resposta da pergunta do usuário para o agente que melhor consegue responder. "
    + "Você tem uma lista de cinco agentes: "
    + "1. Agente_roteiro (#1), "
    + "2. Agente_parques (#2), "
    + "3. Agente_restaurante (#3), "
    + "4. Agente_web (#4), "
    + "5. Agente_filas (#5). "
    + "Responda apenas com o código do agente. Caso esteja em dúvida, use o agente #1."

  const DefaultCode := "#1"

  function SystemTurn(): Message {
    Message(Some("system"), Some(SystemPrompt))
  }

  /** The `content` entry of the classifier's first reply item: missing, `None`, or a string. */
  datatype Content = Absent | Null | Text(text: string)

  /** The exceptions `execute` raises before any agent runs. */
  datatype RouteError = IndexError | AttributeError | KeyError(key: string)

  /** The agent chosen and the context it is called with. */
  datatype Dispatch<A> = Dispatch(agent: A, context: seq<Message>)

  /**
   * The agent code is the first reply item's content, `#1` when the key is
   * missing, stripped of surrounding whitespace. The fallback `agents["#1"]`
   * is looked up before the code is, so a missing `#1` fails every call.
   */
  function Route<A(==)>(agents: map<string, A>, context: seq<Message>, reply: seq<Content>): (r: Result<Dispatch<A>, RouteError>)
    ensures r.Success? <==> reply != [] && !reply[0].Null? && DefaultCode in agents
    ensures reply == [] ==> r == Failure(IndexError)
    ensures reply != [] && reply[0].Null? ==> r == Failure(AttributeError)
    ensures reply != [] && !reply[0].Null? && DefaultCode !in agents ==> r == Failure(KeyError(DefaultCode))
    ensures r.Success? ==> |r.value.context| == |context| + 1 && r.value.context[0] == SystemTurn() &&
                           r.value.context[1..] == context
    ensures r.Success? ==> r.value.agent in agents.Values
  {
    var prompted := [SystemTurn()] + context;
    if reply == [] then Failure(IndexError)
    else
      var raw := match reply[0]
        case Absent => Some(DefaultCode)
        case Null => None
        case Text(t) => Some(t);
      if raw.None? then Failure(AttributeError)
      else
        var code := Strip(raw.value);
        if DefaultCode !in agents then Failure(KeyError(DefaultCode))
        else
          assert prompted[1..] == context;
          Success(Dispatch(if code in agents then agents[code] else agents[DefaultCode], prompted))
  }

  /** A code surrounded by whitespace selects the agent registered under that code. */
  lemma PaddedCodeSelects<A>(agents: map<string, A>, context: seq<Message>, pre: string, code: string, post: string, rest: seq<Content>)
    requires DefaultCode in agents && code in agents
    requires AllSpace(pre) && AllSpace(post)
    requires code != [] && !IsSpace(code[0]) && !IsSpace(code[|code| - 1])
    ensures var r := Route(agents, context, [Text(pre + code + post)] + rest);
            r.Success? && r.value.agent == agents[code]
  {
    StripPadded(pre, code, post);
  }

  /** A code that names no agent falls back to the agent `#1`. */
  lemma UnknownCodeFallsBack<A>(agents: map<string, A>, context: seq<Message>, text: string, rest: seq<Content>)
    requires DefaultCode in agents && Strip(text) !in agents
    ensures var r := Route(agents, context, [Text(text)] + rest);
            r.Success? && r.value.agent == agents[DefaultCode]
  {
  }

  /** A reply without a `content` key selects the agent `#1`. */
  lemma AbsentCodeSelectsDefault<A>(agents: map<string, A>, context: seq<Message>, rest: seq<Content>)
    requires DefaultCode in agents
    ensures var r := Route(agents, context, [Absent] + rest);
            r.Success? && r.value.agent == agents[DefaultCode]
  {
    StripPadded("", DefaultCode, "");
    assert "" + DefaultCode + "" == DefaultCode;
  }
}
