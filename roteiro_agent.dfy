/**
 * The itinerary agent (`#1`): it keeps the conversation history in the
 * context item it owns, appends the user's turn, asks the completion model
 * for the next step and either returns the model's call of the `roteiro`
 * tool or its next question. The model and `json.loads` are parameters.
 */
module RoteiroAgent {
  import opened Wrappers
  import opened Messages

  const Id := "#1"
  const Name := "Agente de Roteiro de Viagem"

  /**
   * The agent's `instructions`, the system prompt that opens a fresh history;
   * `Execute` takes the prompt as its `instructions` argument.
   */
  const Instructions: string :=
    "\n"
    + "Você é o \"Orlando Trip Planner\", uma IA especialista em criar roteiros personalizados para viagens a Orlando (Disney World, Universal, etc.), equilibrando parques, compras, gastronomia e descanso conforme o perfil do usuário.\n"
    + "\n"
    + "Seu objetivo é:\n"
    + "- Coletar todas as informações essenciais do viajante, entender estilo, interesses, restrições e logística, e **somente após receber todas as respostas obrigatórias**, montar um roteiro otimizado dia a dia.\n"
    + "- O roteiro deve considerar toques de magia, flexibilidades, logística de transporte/hotel, ritmo do grupo e estimativas realistas.\n"
    + "- Sempre que pedirem contatos de turismo, forneça:\n"
    + "    1. Responsável: Thiago  \n"
    + "    2. Instagram: https://www.instagram.com/melhoresdikasdeorlando/  \n"
    + "    3. WhatsApp: +1 (407) 308-7208\n"
    + "- Persista em obter esclarecimentos até que todos os dados obrigatórios estejam coletados, antes de seguir para o roteiro.\n"
    + "- **Assim que TODAS as informações obrigatórias forem coletadas, acione a function 'roteiro' para gerar o roteiro.**\n"
    + "\n"
    + "Regras e formato:\n"
    + "- Idioma padrão: português (Brasil).\n"
    + "- Tom: amigo, claro e objetivo.\n"
    + "- Durante a coleta: faça perguntas em lista numerada.\n"
    + "\n"
    + "IMPORTANTE: Só acione a function 'roteiro' após toda a coleta obrigatória. Continue perguntando até que todas as informações sejam fornecidas.\n"
    + "\n"
    + "# Output Format\n"
    + "- Durante a coleta: saída em lista numerada das perguntas obrigatórias faltantes.\n"
    + "- Quando todas as respostas foram coletadas: CHAME A FUNCTION 'roteiro' passando todos os dados coletados como argumento. **Não gere o roteiro como texto diretamente, apenas acione a function.**\n"

  function SystemTurn(instructions: string): Message {
    Message(Some("system"), Some(instructions))
  }

  // ---- the `roteiro` tool schema ------------------------------------------

  /** A declared parameter of the tool and its JSON type. */
  datatype Property = Property(name: string, kind: string)

  const Required: seq<string> := [
    "data_chegada",
    "dias_completos_orlando",
    "numero_viajantes",
    "criancas",
    "ingressos_parques_comprados",
    "parques_desejados",
    "ritmo",
    "horario_preferido_acordar",
    "disposicao_fisica",
    "foco_viagem",
    "restricoes_alimentares",
    "reservas_restaurantes_tematicos",
    "interesse_gastronomico",
    "cafe_manha_personagens",
    "preferencia_refeicao",
    "meio_transporte",
    "hotel_ou_regiao",
    "usar_onibus_disney",
    "programacao_noturna",
    "passeios_externos",
    "lojas_prioritarias",
    "dias_compras_inteligente",
    "servicos_extras",
    "dia_livre",
    "motivo_viagem"
  ]

  const Properties: seq<Property> := [
    Property("data_chegada", "string"),
    Property("dias_completos_orlando", "integer"),
    Property("numero_viajantes", "integer"),
    Property("criancas", "array"),
    Property("ingressos_parques_comprados", "boolean"),
    Property("parques_desejados", "array"),
    Property("ritmo", "string"),
    Property("horario_preferido_acordar", "string"),
    Property("disposicao_fisica", "string"),
    Property("foco_viagem", "string"),
    Property("restricoes_alimentares", "string"),
    Property("reservas_restaurantes_tematicos", "boolean"),
    Property("interesse_gastronomico", "boolean"),
    Property("cafe_manha_personagens", "boolean"),
    Property("preferencia_refeicao", "string"),
    Property("meio_transporte", "string"),
    Property("hotel_ou_regiao", "string"),
    Property("usar_onibus_disney", "boolean"),
    Property("programacao_noturna", "boolean"),
    Property("passeios_externos", "array"),
    Property("lojas_prioritarias", "array"),
    Property("dias_compras_inteligente", "string"),
    Property("servicos_extras", "array"),
    Property("dia_livre", "boolean"),
    Property("motivo_viagem", "string")
  ]

  /** Each required field is declared under `properties`, in the same order. */
  lemma RequiredFieldsDeclared()
    ensures |Required| == 25 && |Properties| == 25
    ensures forall i :: 0 <= i < 25 ==> Properties[i].name == Required[i]
  {
  }

  /** The 25 required field names are pairwise distinct. */
  lemma RequiredFieldsDistinct()
    ensures forall i, j :: 0 <= i < j < |Required| ==> Required[i] != Required[j]
  {
  }

  // ---- one turn -------------------------------------------------------------

  /** The state this agent keeps between turns; `execute` updates its history in place. */
  class ConversationState {
    var history: seq<Message>

    constructor(h: seq<Message>)
      ensures history == h
    {
      history := h;
    }
  }

  /** An item of the context handed to the agent; the `state` key may be missing. */
  datatype ContextItem = ContextItem(agentId: Option<string>, state: Option<ConversationState>)

  datatype ToolCall = ToolCall(name: string, arguments: string)

  /** The first choice of a chat completion: its tool calls and its text. */
  datatype Completion = Completion(toolCalls: seq<ToolCall>, content: Option<string>)

  datatype Action<J> = CallTool(toolName: string, arguments: J) | AskUser(message: Option<string>)

  /** The exceptions `execute` lets escape. */
  datatype AgentError = KeyError(key: string) | IndexError | JsonDecodeError

  datatype Output<J> = Output(response: Action<J>, agentId: string, state: ConversationState)

  /** Position of the first context item owned by this agent. */
  function OwnItem(context: seq<ContextItem>): (r: Option<nat>)
    ensures r.Some? ==> r.value < |context| && context[r.value].agentId == Some(Id) &&
                        forall j :: 0 <= j < r.value ==> context[j].agentId != Some(Id)
    ensures r.None? <==> forall j :: 0 <= j < |context| ==> context[j].agentId != Some(Id)
  {
    if context == [] then None
    else if context[0].agentId == Some(Id) then Some(0)
    else match OwnItem(context[1..])
      case None => None
      case Some(k) => Some(k + 1)
  }

  /** The state objects reachable from the context. */
  function States(context: seq<ContextItem>): set<ConversationState> {
    set i | 0 <= i < |context| && context[i].state.Some? :: context[i].state.value
  }

  /**
   * The history after the turn: the earlier history, the user's turn right
   * after it, then the model's text unless it called the tool.
   */
  function NextHistory(history: seq<Message>, user: Message, c: Completion): (h: seq<Message>)
    ensures |h| > |history| && h[..|history|] == history && h[|history|] == user
    ensures c.toolCalls != [] ==> |h| == |history| + 1
    ensures c.toolCalls == [] ==> |h| == |history| + 2 && h[|history| + 1] == Message(Some("assistant"), c.content)
  {
    if c.toolCalls != [] then history + [user]
    else history + [user, Message(Some("assistant"), c.content)]
  }

  /**
   * What the turn answers, given the completion: a call of the first tool
   * the model called, with its decoded arguments, or the model's text.
   */
  function Respond<J>(c: Completion, loads: string -> Option<J>): (r: Result<Action<J>, AgentError>)
    ensures r.Success? && r.value.CallTool? <==> c.toolCalls != [] && loads(c.toolCalls[0].arguments).Some?
    ensures r.Success? && r.value.CallTool? ==>
              r.value.toolName == c.toolCalls[0].name && loads(c.toolCalls[0].arguments) == Some(r.value.arguments)
    ensures r.Failure? <==> c.toolCalls != [] && loads(c.toolCalls[0].arguments).None?
    ensures r.Failure? ==> r.error == JsonDecodeError
    ensures c.toolCalls == [] ==> r == Success(AskUser(c.content))
  {
    if c.toolCalls != [] then
      match loads(c.toolCalls[0].arguments)
      case None => Failure(JsonDecodeError)
      case Some(args) => Success(CallTool(c.toolCalls[0].name, args))
    else Success(AskUser(c.content))
  }

  /**
   * A fresh conversation starts with the agent's own system prompt, then the
   * user's turn, and ends with the model's question unless it called the tool.
   */
  lemma FreshHistory(user: Message, c: Completion)
    ensures var h := NextHistory([SystemTurn(Instructions)], user, c);
            h[0] == Message(Some("system"), Some(Instructions)) && h[1] == user &&
            |h| == (if c.toolCalls != [] then 2 else 3)
  {
    var h := NextHistory([SystemTurn(Instructions)], user, c);
    assert h[..1] == [SystemTurn(Instructions)];
  }

  /**
   * `execute`: find this agent's state in the context, or start one with the
   * system prompt; append the last message of `orchestratorOutput`; ask
   * `complete` with the grown history; and answer. The state object found in
   * the context is the one updated, so the caller's context sees the new
   * history, also when decoding the tool arguments fails.
   */
  method Execute<J>(instructions: string, context: seq<ContextItem>, orchestratorOutput: seq<Message>,
                    complete: seq<Message> -> Completion, loads: string -> Option<J>)
    returns (r: Result<Output<J>, AgentError>)
    modifies States(context)
    ensures var own := OwnItem(context);
            own.Some? && context[own.value].state.None? ==>
              r == Failure(KeyError("state")) && unchanged(States(context))
    ensures var own := OwnItem(context);
            !(own.Some? && context[own.value].state.None?) && orchestratorOutput == [] ==>
              r == Failure(IndexError) && unchanged(States(context))
    ensures var own := OwnItem(context);
            own.Some? && context[own.value].state.Some? && orchestratorOutput != [] ==>
              var s := context[own.value].state.value;
              var user := orchestratorOutput[|orchestratorOutput| - 1];
              var c := complete(old(s.history) + [user]);
              s.history == NextHistory(old(s.history), user, c) &&
              (forall t :: t in States(context) && t != s ==> unchanged(t)) &&
              match Respond(c, loads)
              case Success(action) => r == Success(Output(action, Id, s))
              case Failure(e) => r == Failure(e)
    ensures OwnItem(context).None? && orchestratorOutput != [] ==>
              var user := orchestratorOutput[|orchestratorOutput| - 1];
              var c := complete([SystemTurn(instructions), user]);
              unchanged(States(context)) &&
              match Respond(c, loads)
              case Success(action) =>
                r.Success? && r.value.response == action && r.value.agentId == Id &&
                fresh(r.value.state) && r.value.state.history == NextHistory([SystemTurn(instructions)], user, c)
              case Failure(e) => r == Failure(e)
  {
    var own := OwnItem(context);
    var state: ConversationState;
    if own.Some? {
      match context[own.value].state
      case None =>
        return Failure(KeyError("state"));
      case Some(s) =>
        state := s;
    } else {
      state := new ConversationState([SystemTurn(instructions)]);
    }
    if orchestratorOutput == [] {
      return Failure(IndexError);
    }
    var user := orchestratorOutput[|orchestratorOutput| - 1];
    state.history := state.history + [user];
    assert own.None? ==> state.history == [SystemTurn(instructions), user];
    var c := complete(state.history);
    if c.toolCalls != [] {
      var call := c.toolCalls[0];
      match loads(call.arguments)
      case None =>
        r := Failure(JsonDecodeError);
      case Some(args) =>
        r := Success(Output(CallTool(call.name, args), Id, state));
    } else {
      state.history := state.history + [Message(Some("assistant"), c.content)];
      r := Success(Output(AskUser(c.content), Id, state));
    }
  }
}
