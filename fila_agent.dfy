/**
 * The queue-time agent (`AgenteFilas`): a per-phone state machine that
 * offers the numbered list of Orlando parks, takes the user's choice by
 * number or by name, and sends the park's current queue times.
 */
module FilaAgent {
  import opened Wrappers
  import opened Text
  import opened Messages
  import opened OrlandoParks
  import opened QueueTimes

  const Id := "#5"
  const Name := "Agente_Filas"

  // ---- the conversation state and its store --------------------------------

  /** The state dictionary kept per phone; an absent key is `None`. */
  datatype ChatState = ChatState(
    awaitingParkChoice: bool,
    lastAction: Option<string>,
    lastParkId: Option<nat>,
    lastParkName: Option<string>,
    pendingNumber: Option<nat>)

  /** The state of a phone seen for the first time: `{"awaiting_park_choice": False}`. */
  const InitialState := ChatState(false, None, None, None, None)

  /**
   * `SimpleMemoryState`. Its dictionary is a class attribute shared by every
   * instance, so the model has one store object that every agent refers to.
   */
  class SimpleMemoryState {
    var states: map<string, ChatState>

    constructor()
      ensures states == map[]
    {
      states := map[];
    }

    method SaveState(phone: string, state: ChatState) returns (ok: bool)
      modifies this
      ensures states == old(states)[phone := state]
      ensures ok
    {
      states := states[phone := state];
      ok := true;
    }

    function GetState(phone: string): (r: Option<ChatState>)
      reads this
      ensures r.Some? <==> phone in states
      ensures r.Some? ==> r.value == states[phone]
    {
      if phone in states then Some(states[phone]) else None
    }

    method ClearState(phone: string) returns (ok: bool)
      modifies this
      ensures states == old(states) - {phone}
      ensures ok
    {
      if phone in states {
        states := states - {phone};
      }
      ok := true;
    }
  }

  /** What `get_state` yields for `phone`, with the default of a first interaction. */
  function StateOrDefault(states: map<string, ChatState>, phone: string): ChatState {
    if phone in states then states[phone] else InitialState
  }

  /** Saving `s` for one phone is seen by that phone only; clearing it restores the default. */
  lemma StoreIsPerPhone(states: map<string, ChatState>, phone: string, other: string, s: ChatState)
    ensures StateOrDefault(states[phone := s], phone) == s
    ensures other != phone ==> StateOrDefault(states[phone := s], other) == StateOrDefault(states, other)
    ensures StateOrDefault(states - {phone}, phone) == InitialState
    ensures other != phone ==> StateOrDefault(states - {phone}, other) == StateOrDefault(states, other)
  {
  }

  // ---- reading the user's message ------------------------------------------

  /** The content of the last turn with role "user", lowercased, or "" when there is none. */
  function LastUserMessage(context: seq<Message>): (r: string)
    ensures Lower(r) == r
    ensures (forall j :: 0 <= j < |context| ==> context[j].role != Some("user")) ==> r == ""
  {
    match LastIndexWithRole(context, "user")
    case Some(k) =>
      LowerIdempotent(context[k].content.GetOr(""));
      Lower(context[k].content.GetOr(""))
    case None => ""
  }

  /** The backwards scan with `break` that picks the last user message. */
  method FindLastUserMessage(context: seq<Message>) returns (m: string)
    ensures m == LastUserMessage(context)
  {
    var i := |context|;
    while i > 0
      invariant 0 <= i <= |context|
      invariant forall j :: i <= j < |context| ==> context[j].role != Some("user")
    {
      i := i - 1;
      if context[i].role == Some("user") {
        return Lower(context[i].content.GetOr(""));
      }
    }
    return "";
  }

  /**
   * `_identificar_numero_parque`: the regular expression `^\s*(\d+)\s*$`
   * read as whitespace, then the longest run of digits, then only whitespace.
   */
  function ParkNumber(m: string): (r: Option<nat>)
    ensures r.Some? ==> forall i :: 0 <= i < |m| ==> IsDigit(m[i]) || IsSpace(m[i])
    ensures AllSpace(m) ==> r.None?
  {
    var a := LeadingSpaces(m);
    var rest := m[a..];
    var d := LeadingDigits(rest);
    if d > 0 && AllSpace(rest[d..]) then
      assert forall i :: 0 <= i < |m| ==> IsDigit(m[i]) || IsSpace(m[i]) by {
        forall i | 0 <= i < |m|
          ensures IsDigit(m[i]) || IsSpace(m[i])
        {
          if i < a {
            assert m[..a][i] == m[i];
          } else if i < a + d {
            assert rest[..d][i - a] == m[i];
          } else {
            assert rest[d..][i - a - d] == m[i];
          }
        }
      }
      Some(DecimalValue(rest[..d]))
    else None
  }

  /** `m` is whitespace up to `k`, digits from `k` to `j` (at least one), whitespace after. */
  predicate BareNumberAt(m: string, k: int, j: int) {
    0 <= k < j <= |m| && AllSpace(m[..k]) && AllDigits(m[k..j]) && AllSpace(m[j..])
  }

  /** A number is found exactly when the message is a bare number, and its value is that of the digits. */
  lemma ParkNumberCorrect(m: string)
    ensures ParkNumber(m).Some? <==> exists k, j :: BareNumberAt(m, k, j)
    ensures forall k, j :: BareNumberAt(m, k, j) ==> ParkNumber(m) == Some(DecimalValue(m[k..j]))
  {
    var a := LeadingSpaces(m);
    var rest := m[a..];
    var d := LeadingDigits(rest);
    if ParkNumber(m).Some? {
      assert m[a..a + d] == rest[..d];
      assert m[a + d..] == rest[d..];
      assert BareNumberAt(m, a, a + d);
    }
    forall k, j | BareNumberAt(m, k, j)
      ensures ParkNumber(m) == Some(DecimalValue(m[k..j]))
    {
      BareNumberParses(m, k, j);
    }
  }

  lemma BareNumberParses(m: string, k: int, j: int)
    requires BareNumberAt(m, k, j)
    ensures ParkNumber(m) == Some(DecimalValue(m[k..j]))
  {
    assert m[..k] + m[k..] == m;
    assert m[k..][0] == m[k..j][0];
    LeadingSpacesOfPadded(m[..k], m[k..]);
    var rest := m[k..];
    assert m[k..j] + m[j..] == rest;
    if j < |m| {
      assert m[j..][0] == m[j];
      assert IsSpace(m[j..][0]);
    }
    LeadingDigitsOfPadded(m[k..j], m[j..]);
    assert rest[..j - k] == m[k..j];
    assert rest[j - k..] == m[j..];
  }

  /** Typing the number `str(n)` as printed in the park list yields `n`, also with spaces around it. */
  lemma ParkNumberOfPrinted(pre: string, n: nat, post: string)
    requires AllSpace(pre) && AllSpace(post)
    ensures ParkNumber(pre + NatToString(n) + post) == Some(n)
  {
    var m := pre + NatToString(n) + post;
    var k, j := |pre|, |pre| + |NatToString(n)|;
    assert m[..k] == pre && m[k..j] == NatToString(n) && m[j..] == post;
    BareNumberParses(m, k, j);
    NatToStringRoundTrip(n);
  }

  // ---- the domain guard and the name match ---------------------------------

  const DenyList := ["paris", "tokyo", "disneyland", "california", "europa", "asian", "shangai", "hong kong"]

  /** Index of the first term of `terms` that occurs in `msg`. */
  function FirstContained(terms: seq<string>, msg: string): (r: Option<nat>)
    ensures r.Some? ==> r.value < |terms| && IsSubstring(terms[r.value], msg)
    ensures r.Some? ==> forall j :: 0 <= j < r.value ==> !IsSubstring(terms[j], msg)
    ensures r.None? <==> forall j :: 0 <= j < |terms| ==> !IsSubstring(terms[j], msg)
  {
    if terms == [] then None
    else if IsSubstring(terms[0], msg) then Some(0)
    else
      var r := FirstContained(terms[1..], msg);
      if r.Some? then Some(r.value + 1) else None
  }

  /** The loop over the deny list with an early return. */
  method FindDeniedTerm(msg: string) returns (r: Option<nat>)
    ensures r == FirstContained(DenyList, msg)
  {
    var i := 0;
    while i < |DenyList|
      invariant 0 <= i <= |DenyList|
      invariant forall j :: 0 <= j < i ==> !IsSubstring(DenyList[j], msg)
    {
      if IsSubstring(DenyList[i], msg) {
        return Some(i);
      }
      i := i + 1;
    }
    return None;
  }

  /** Index of the first park whose lowercased name occurs in the lowercased message. */
  function FirstNamedPark(ps: seq<Park>, msg: string): (r: Option<nat>)
    ensures r.Some? ==> r.value < |ps| && IsSubstring(Lower(ps[r.value].nome), Lower(msg))
    ensures r.Some? ==> forall j :: 0 <= j < r.value ==> !IsSubstring(Lower(ps[j].nome), Lower(msg))
    ensures r.None? <==> forall j :: 0 <= j < |ps| ==> !IsSubstring(Lower(ps[j].nome), Lower(msg))
  {
    if ps == [] then None
    else if IsSubstring(Lower(ps[0].nome), Lower(msg)) then Some(0)
    else
      var r := FirstNamedPark(ps[1..], msg);
      if r.Some? then Some(r.value + 1) else None
  }

  /** A message that is exactly a park's name selects that park, whatever its case. */
  lemma ExactNameSelectsPark(i: nat)
    requires i < |Parks|
    ensures FirstNamedPark(Parks, Parks[i].nome) == Some(i)
  {
    var msg := Parks[i].nome;
    LowerIdempotent(msg);
    ParkNamesUnambiguous();
    assert StartsWith(Lower(msg), Lower(Parks[i].nome));
  }

  /** The loop over the catalogue with an early return. */
  method FindNamedPark(ps: seq<Park>, msg: string) returns (r: Option<nat>)
    ensures r == FirstNamedPark(ps, msg)
  {
    var i := 0;
    while i < |ps|
      invariant 0 <= i <= |ps|
      invariant forall j :: 0 <= j < i ==> !IsSubstring(Lower(ps[j].nome), Lower(msg))
    {
      if IsSubstring(Lower(ps[i].nome), Lower(msg)) {
        return Some(i);
      }
      i := i + 1;
    }
    return None;
  }

  // ---- one turn ------------------------------------------------------------

  /** A message sent to the user's WhatsApp during the turn. */
  datatype Send = SendText(phone: string, text: string) | SendParksList(phone: string)

  /** The `tool_data` dictionary of each kind of answer. */
  datatype ToolData =
    | NonOrlandoRequest(term: string)
    | QueuesUnavailable(parkId: nat, selectedByNumber: Option<nat>)
    | QueuesSent(parkId: nat, parkName: string, queueCount: nat, selectedByNumber: Option<nat>)
    | InvalidParkNumber(number: nat)
    | SentViaZapi
    | SentParksList(detectedNumber: nat)
    | ParksCount(count: nat)

  datatype AgentResponse = AgentResponse(status: string, message: string, toolData: ToolData)

  /** The answer, what was sent, and the state saved for the phone (`None`: nothing saved). */
  datatype Turn = Turn(response: AgentResponse, sent: Option<Send>, saved: Option<ChatState>)

  const OutsideOrlandoMessage := "Desculpe, sou especializado apenas em parques de Orlando. Não possuo informações sobre parques em outras localidades."
  const ListSentMessage := "Lista de parques de Orlando enviada para seu WhatsApp. Digite apenas o número do parque para ver as filas em tempo real."
  const ListFirstMessage := "Para consultar as filas, primeiro enviei a lista de parques disponíveis em Orlando. Após verificar a lista, por favor, confirme sua escolha enviando o número novamente."
  const ChooseNumberMessage := "Para ver os tempos de fila dos parques de Orlando, digite apenas o número do parque conforme a lista enviada ao seu WhatsApp."

  function NoQueuesMessage(nome: string): string {
    "Não foi possível obter os tempos de fila para " + nome + " em Orlando no momento."
  }

  function QueuesSentMessage(nome: string): string {
    "Informações sobre as filas em " + nome + " (Orlando) foram enviadas para seu WhatsApp."
  }

  function RangeText(count: nat): string {
    "entre 1 e " + NatToString(count)
  }

  function InvalidNumberMessage(n: nat, count: nat): string {
    "Número " + NatToString(n) + " inválido. Por favor, escolha um número " + RangeText(count)
    + " para ver as filas dos parques de Orlando."
  }

  /** The state after the park list was sent: awaiting a choice. */
  function Awaiting(state: ChatState): ChatState {
    state.(awaitingParkChoice := true, lastAction := Some("list_parks"))
  }

  /** The land list and the rides `get_park_queues` returns for a fetch outcome. */
  function Queues(fetched: Option<Payload>): (seq<RawLand>, seq<Ride>) {
    if fetched.None? then ([], []) else (fetched.value.lands.GetOr([]), Flatten(fetched.value))
  }

  /** Sending the queue report of `park`, chosen by number (`selectedBy`) or by name. */
  function ReportTurn(park: Park, selectedBy: Option<nat>, state: ChatState, phone: string,
                      fetched: Option<Payload>, now: string): (t: Turn)
    ensures t.response.status == "ok" <==> Queues(fetched).1 != []
    ensures t.response.status != "ok" ==> t.response.status == "error" && t.sent.None? && t.saved.None?
    ensures t.response.status == "ok" ==> t.sent.Some? && t.saved.Some?
    ensures t.response.status == "ok" ==>
              t.sent == Some(SendText(phone, QueueMessage(park.nome, Queues(fetched).0 != [], Queues(fetched).1, now)))
    ensures t.saved.Some? ==>
              !t.saved.value.awaitingParkChoice &&
              t.saved.value.lastParkId == Some(park.id) && t.saved.value.lastParkName == Some(park.nome) &&
              t.saved.value.lastAction == state.lastAction && t.saved.value.pendingNumber == state.pendingNumber
  {
    var lands := Queues(fetched).0;
    var rides := Queues(fetched).1;
    if rides == [] then
      Turn(AgentResponse("error", NoQueuesMessage(park.nome), QueuesUnavailable(park.id, selectedBy)), None, None)
    else
      Turn(AgentResponse("ok", QueuesSentMessage(park.nome), QueuesSent(park.id, park.nome, |rides|, selectedBy)),
           Some(SendText(phone, QueueMessage(park.nome, lands != [], rides, now))),
           Some(state.(awaitingParkChoice := false, lastParkId := Some(park.id), lastParkName := Some(park.nome))))
  }

  predicate AsksForList(msg: string) {
    IsSubstring("parques", msg) || IsSubstring("lista", msg) || IsSubstring("filas", msg)
  }

  /**
   * One turn of `execute` on the lowercased message `msg` and the phone's
   * current `state`; `fetch` gives the outcome of the Queue-Times request for
   * a park id and `now` the formatted time.
   */
  function Decide(msg: string, state: ChatState, phone: string, fetch: nat -> Option<Payload>, now: string): (t: Turn)
    ensures t.response.status == "ok" || t.response.status == "error"
    ensures t.saved.Some? <==> t.response.status == "ok"
    ensures t.saved.Some? ==> t.sent.Some?
  {
    var denied := FirstContained(DenyList, msg);
    var number := ParkNumber(msg);
    if denied.Some? then
      Turn(AgentResponse("error", OutsideOrlandoMessage, NonOrlandoRequest(DenyList[denied.value])), None, None)
    else if state.awaitingParkChoice && number.Some? then
      var n := number.value;
      if 1 <= n <= |Parks| then ReportTurn(Parks[n - 1], Some(n), state, phone, fetch(Parks[n - 1].id), now)
      else Turn(AgentResponse("error", InvalidNumberMessage(n, |Parks|), InvalidParkNumber(n)), Some(SendParksList(phone)), None)
    else if AsksForList(msg) then
      Turn(AgentResponse("ok", ListSentMessage, SentViaZapi), Some(SendParksList(phone)), Some(Awaiting(state)))
    else if number.Some? then
      Turn(AgentResponse("ok", ListFirstMessage, SentParksList(number.value)), Some(SendParksList(phone)),
           Some(Awaiting(state).(pendingNumber := number)))
    else
      match FirstNamedPark(Parks, msg)
      case Some(i) => ReportTurn(Parks[i], None, state, phone, fetch(Parks[i].id), now)
      case None =>
        Turn(AgentResponse("ok", ChooseNumberMessage, ParksCount(|Parks|)), Some(SendParksList(phone)), Some(Awaiting(state)))
  }

  // ---- what a turn does ------------------------------------------------------

  /** A bare number holds only digits and whitespace, so no letter occurs in it. */
  lemma NoLetterInNumber(m: string, c: char)
    requires ParkNumber(m).Some? && IsAsciiLetter(c)
    ensures c !in m
  {
    ParkNumberCorrect(m);
    var k, j :| BareNumberAt(m, k, j);
    forall i | 0 <= i < |m|
      ensures m[i] != c
    {
      if i < k {
        assert m[..k][i] == m[i];
      } else if i < j {
        assert m[k..j][i - k] == m[i];
      } else {
        assert m[j..][i - j] == m[i];
      }
    }
  }

  /** A bare number contains no deny-listed term and none of the list keywords. */
  lemma NumberIsNoRequest(m: string)
    requires ParkNumber(m).Some?
    ensures FirstContained(DenyList, m).None?
    ensures !AsksForList(m)
  {
    forall j | 0 <= j < |DenyList|
      ensures !IsSubstring(DenyList[j], m)
    {
      var c := DenyList[j][0];
      NoLetterInNumber(m, c);
      NotSubstringByChar(DenyList[j], m, c);
    }
    NoLetterInNumber(m, 'p');
    NotSubstringByChar("parques", m, 'p');
    NoLetterInNumber(m, 'l');
    NotSubstringByChar("lista", m, 'l');
    NoLetterInNumber(m, 'f');
    NotSubstringByChar("filas", m, 'f');
  }

  /**
   * A deny-listed term refuses the request whatever the state, naming the
   * first such term in list order; nothing is sent and nothing is saved.
   */
  lemma DeniedTermRefused(msg: string, state: ChatState, phone: string, fetch: nat -> Option<Payload>, now: string, k: nat)
    requires k < |DenyList| && IsSubstring(DenyList[k], msg)
    requires forall j :: 0 <= j < k ==> !IsSubstring(DenyList[j], msg)
    ensures Decide(msg, state, phone, fetch, now) ==
            Turn(AgentResponse("error", OutsideOrlandoMessage, NonOrlandoRequest(DenyList[k])), None, None)
  {
    var r := FirstContained(DenyList, msg);
    assert r.Some?;
    assert r.value == k;
  }

  /**
   * Awaiting a choice, a number `n` in 1..8 picks `Parks[n - 1]`; the state
   * then records that park and stops awaiting, unless no ride came back, in
   * which case nothing is saved.
   */
  lemma ChoiceInRange(msg: string, state: ChatState, phone: string, fetch: nat -> Option<Payload>, now: string, n: nat)
    requires state.awaitingParkChoice && ParkNumber(msg) == Some(n) && 1 <= n <= |Parks|
    ensures var t := Decide(msg, state, phone, fetch, now);
            var p := Parks[n - 1];
            var rides := Queues(fetch(p.id)).1;
            (rides != [] ==>
              t.response.status == "ok" &&
              t.response.toolData == QueuesSent(p.id, p.nome, |rides|, Some(n)) &&
              t.saved == Some(state.(awaitingParkChoice := false, lastParkId := Some(p.id), lastParkName := Some(p.nome)))) &&
            (rides == [] ==>
              t.response.status == "error" && t.saved.None? && t.sent.None?)
  {
    NumberIsNoRequest(msg);
  }

  /**
   * Awaiting a choice, a number outside 1..8 is refused with a message naming
   * the range; the list is sent again and the stored state is left as it was.
   */
  lemma ChoiceOutOfRange(msg: string, state: ChatState, phone: string, fetch: nat -> Option<Payload>, now: string, n: nat)
    requires state.awaitingParkChoice && ParkNumber(msg) == Some(n) && !(1 <= n <= |Parks|)
    ensures var t := Decide(msg, state, phone, fetch, now);
            t.response.status == "error" && t.response.toolData == InvalidParkNumber(n) &&
            IsSubstring("entre 1 e 8", t.response.message) &&
            t.sent == Some(SendParksList(phone)) && t.saved.None?
  {
    NumberIsNoRequest(msg);
    ParkNames();
    InvalidNumberNamesRange(n);
  }

  /** The refusal of an out-of-range number tells the user the range of the eight parks. */
  lemma InvalidNumberNamesRange(n: nat)
    ensures IsSubstring("entre 1 e 8", InvalidNumberMessage(n, 8))
  {
    assert NatToString(8) == "8";
    assert RangeText(8) == "entre 1 e 8";
    var a := "Número " + NatToString(n) + " inválido. Por favor, escolha um número ";
    var b := " para ver as filas dos parques de Orlando.";
    assert StartsWith(RangeText(8), RangeText(8));
    SubstringWithin(RangeText(8), RangeText(8), a, b);
  }

  /** Asking for the list ("parques", "lista", "filas") sends it and starts awaiting a choice. */
  lemma ListRequested(msg: string, state: ChatState, phone: string, fetch: nat -> Option<Payload>, now: string)
    requires FirstContained(DenyList, msg).None? && AsksForList(msg)
    ensures var t := Decide(msg, state, phone, fetch, now);
            t.response.status == "ok" && t.sent == Some(SendParksList(phone)) &&
            t.saved == Some(state.(awaitingParkChoice := true, lastAction := Some("list_parks")))
  {
    if ParkNumber(msg).Some? {
      NumberIsNoRequest(msg);
    }
  }

  /** A bare number while no choice is awaited sends the list first and remembers the number. */
  lemma NumberWithoutList(msg: string, state: ChatState, phone: string, fetch: nat -> Option<Payload>, now: string, n: nat)
    requires !state.awaitingParkChoice && ParkNumber(msg) == Some(n)
    ensures var t := Decide(msg, state, phone, fetch, now);
            t.response.status == "ok" && t.response.toolData == SentParksList(n) &&
            t.sent == Some(SendParksList(phone)) &&
            t.saved == Some(state.(awaitingParkChoice := true, lastAction := Some("list_parks"), pendingNumber := Some(n)))
  {
    NumberIsNoRequest(msg);
  }

  /** Otherwise the first park named in the message is reported, as if chosen by number but without one. */
  lemma ParkNamed(msg: string, state: ChatState, phone: string, fetch: nat -> Option<Payload>, now: string, i: nat)
    requires FirstContained(DenyList, msg).None? && !AsksForList(msg) && ParkNumber(msg).None?
    requires i < |Parks| && IsSubstring(Lower(Parks[i].nome), Lower(msg))
    requires forall j :: 0 <= j < i ==> !IsSubstring(Lower(Parks[j].nome), Lower(msg))
    ensures Decide(msg, state, phone, fetch, now) == ReportTurn(Parks[i], None, state, phone, fetch(Parks[i].id), now)
  {
    var r := FirstNamedPark(Parks, msg);
    assert r.Some?;
    assert r.value == i;
  }

  /** A message that matches nothing sends the list and starts awaiting a choice. */
  lemma NothingRecognised(msg: string, state: ChatState, phone: string, fetch: nat -> Option<Payload>, now: string)
    requires FirstContained(DenyList, msg).None? && !AsksForList(msg) && ParkNumber(msg).None?
    requires forall j :: 0 <= j < |Parks| ==> !IsSubstring(Lower(Parks[j].nome), Lower(msg))
    ensures var t := Decide(msg, state, phone, fetch, now);
            t.response.status == "ok" && t.response.toolData == ParksCount(8) &&
            t.sent == Some(SendParksList(phone)) &&
            t.saved == Some(state.(awaitingParkChoice := true, lastAction := Some("list_parks")))
  {
    ParkNames();
  }

  /** The state records park `i` of the catalogue as the last one seen. */
  predicate RecordsPark(s: ChatState, i: int) {
    0 <= i < |Parks| && s.lastParkId == Some(Parks[i].id) && s.lastParkName == Some(Parks[i].nome)
  }

  /**
   * Every saved state is coherent: awaiting a choice right after the list was
   * sent, or else holding a park of the catalogue as the last one seen.
   */
  ghost predicate Coherent(s: ChatState) {
    (s.awaitingParkChoice ==> s.lastAction == Some("list_parks")) &&
    (!s.awaitingParkChoice ==> exists i :: RecordsPark(s, i))
  }

  lemma ReportRecordsPark(i: nat, selectedBy: Option<nat>, state: ChatState, phone: string, fetched: Option<Payload>, now: string)
    requires i < |Parks|
    ensures var t := ReportTurn(Parks[i], selectedBy, state, phone, fetched, now);
            t.saved.Some? ==> RecordsPark(t.saved.value, i) && !t.saved.value.awaitingParkChoice
  {
  }

  /** Whatever the current state, a turn saves only coherent states. */
  lemma SavedStateCoherent(msg: string, state: ChatState, phone: string, fetch: nat -> Option<Payload>, now: string)
    ensures var t := Decide(msg, state, phone, fetch, now);
            t.saved.Some? ==> Coherent(t.saved.value)
  {
    var denied := FirstContained(DenyList, msg);
    var number := ParkNumber(msg);
    if denied.None? && state.awaitingParkChoice && number.Some? && 1 <= number.value <= |Parks| {
      var i := number.value - 1;
      ReportRecordsPark(i, number, state, phone, fetch(Parks[i].id), now);
    } else if denied.None? && !(state.awaitingParkChoice && number.Some?) && !AsksForList(msg) && number.None?
              && FirstNamedPark(Parks, msg).Some? {
      var i := FirstNamedPark(Parks, msg).value;
      ReportRecordsPark(i, None, state, phone, fetch(Parks[i].id), now);
    }
  }

  /** Turns keep every stored state coherent. */
  lemma StoreStaysCoherent(states: map<string, ChatState>, msg: string, phone: string, fetch: nat -> Option<Payload>, now: string)
    requires forall p :: p in states ==> Coherent(states[p])
    ensures var t := Decide(msg, StateOrDefault(states, phone), phone, fetch, now);
            forall p :: p in AfterTurn(states, phone, t.saved) ==> Coherent(AfterTurn(states, phone, t.saved)[p])
  {
    SavedStateCoherent(msg, StateOrDefault(states, phone), phone, fetch, now);
  }

  /**
   * Line `n` of the list the user is sent names `Parks[n - 1]`, and typing
   * its number `n` while awaiting a choice reports exactly that park.
   */
  lemma ListedNumberSelectsPark(n: nat, state: ChatState, phone: string, fetch: nat -> Option<Payload>, now: string)
    requires 1 <= n <= |Parks| && state.awaitingParkChoice
    ensures |SplitLines(NumberedFrom(Parks, 1))| == |Parks|
    ensures SplitLines(NumberedFrom(Parks, 1))[n - 1] == NatToString(n) + ". " + Parks[n - 1].nome
    ensures Decide(NatToString(n), state, phone, fetch, now) ==
            ReportTurn(Parks[n - 1], Some(n), state, phone, fetch(Parks[n - 1].id), now)
  {
    ParksListLines(n);
    NumberChoiceReports(n, state, phone, fetch, now);
  }

  /** Line `n` of the numbered list of the parks names `Parks[n - 1]`. */
  lemma ParksListLines(n: nat)
    requires 1 <= n <= |Parks|
    ensures |SplitLines(NumberedFrom(Parks, 1))| == |Parks|
    ensures SplitLines(NumberedFrom(Parks, 1))[n - 1] == NatToString(n) + ". " + Parks[n - 1].nome
  {
    ParkNames();
    ParksNumberedList();
  }

  /** Typing a listed number while awaiting a choice reports the park at that position. */
  lemma NumberChoiceReports(n: nat, state: ChatState, phone: string, fetch: nat -> Option<Payload>, now: string)
    requires 1 <= n <= |Parks| && state.awaitingParkChoice
    ensures Decide(NatToString(n), state, phone, fetch, now) ==
            ReportTurn(Parks[n - 1], Some(n), state, phone, fetch(Parks[n - 1].id), now)
  {
    ParkNumberOfPrinted("", n, "");
    assert "" + NatToString(n) + "" == NatToString(n);
    NumberIsNoRequest(NatToString(n));
  }

  /** Asking for the list, then typing a listed number, reports that park. */
  lemma ListThenNumber(msg: string, state: ChatState, phone: string, fetch: nat -> Option<Payload>, now: string, n: nat)
    requires FirstContained(DenyList, msg).None? && AsksForList(msg)
    requires 1 <= n <= |Parks|
    ensures var t := Decide(msg, state, phone, fetch, now);
            t.saved.Some? &&
            Decide(NatToString(n), t.saved.value, phone, fetch, now) ==
            ReportTurn(Parks[n - 1], Some(n), t.saved.value, phone, fetch(Parks[n - 1].id), now)
  {
    ListRequested(msg, state, phone, fetch, now);
    var s := Decide(msg, state, phone, fetch, now).saved.value;
    ListedNumberSelectsPark(n, s, phone, fetch, now);
  }

  /** The store after a turn: the saved state, if any, replaces the phone's entry. */
  function AfterTurn(states: map<string, ChatState>, phone: string, saved: Option<ChatState>): (r: map<string, ChatState>)
    ensures forall p :: p != phone ==> (p in r <==> p in states)
    ensures forall p :: p != phone && p in states ==> r[p] == states[p]
    ensures saved.Some? ==> phone in r && r[phone] == saved.value
    ensures saved.None? ==> r == states
  {
    if saved.Some? then states[phone := saved.value] else states
  }

  /** `AgenteFilas`. */
  class AgenteFilas {
    const chatState: SimpleMemoryState

    constructor(store: SimpleMemoryState)
      ensures chatState == store
    {
      chatState := store;
    }

    /** `execute`: reads the message and the stored state, answers, and saves the new state. */
    method Execute(context: seq<Message>, phone: string, fetch: nat -> Option<Payload>, now: string)
      returns (response: AgentResponse, sent: Option<Send>)
      modifies chatState
      ensures var t := Decide(LastUserMessage(context), StateOrDefault(old(chatState.states), phone), phone, fetch, now);
              response == t.response && sent == t.sent &&
              chatState.states == AfterTurn(old(chatState.states), phone, t.saved)
    {
      var msg := FindLastUserMessage(context);
      var stored := chatState.GetState(phone);
      var state := if stored.None? then InitialState else stored.value;
      response, sent := Answer(msg, state, phone, fetch, now);
    }

    /** The body of `execute` after the message and the state are read. */
    method Answer(msg: string, state: ChatState, phone: string, fetch: nat -> Option<Payload>, now: string)
      returns (response: AgentResponse, sent: Option<Send>)
      modifies chatState
      ensures var t := Decide(msg, state, phone, fetch, now);
              response == t.response && sent == t.sent &&
              chatState.states == AfterTurn(old(chatState.states), phone, t.saved)
    {
      var denied := FindDeniedTerm(msg);
      if denied.Some? {
        return AgentResponse("error", OutsideOrlandoMessage, NonOrlandoRequest(DenyList[denied.value])), None;
      }
      var number := ParkNumber(msg);
      if state.awaitingParkChoice && number.Some? {
        response, sent := AnswerChoice(msg, number.value, state, phone, fetch, now);
      } else {
        response, sent := AnswerRequest(msg, state, phone, fetch, now);
      }
    }

    /** The branch taken when the message is the number of a park, awaited from the list. */
    method AnswerChoice(msg: string, n: nat, state: ChatState, phone: string, fetch: nat -> Option<Payload>, now: string)
      returns (response: AgentResponse, sent: Option<Send>)
      requires FirstContained(DenyList, msg).None?
      requires state.awaitingParkChoice && ParkNumber(msg) == Some(n)
      modifies chatState
      ensures var t := Decide(msg, state, phone, fetch, now);
              response == t.response && sent == t.sent &&
              chatState.states == AfterTurn(old(chatState.states), phone, t.saved)
    {
      var parks, _ := GetOrlandoParks();
      assert Decide(msg, state, phone, fetch, now) ==
        if 1 <= n <= |Parks| then ReportTurn(Parks[n - 1], Some(n), state, phone, fetch(Parks[n - 1].id), now)
        else Turn(AgentResponse("error", InvalidNumberMessage(n, |Parks|), InvalidParkNumber(n)), Some(SendParksList(phone)), None);
      if 1 <= n <= |parks| {
        var park := parks[n - 1];
        response, sent := ReportQueues(park, Some(n), state, phone, fetch(park.id), now);
      } else {
        sent := Some(SendParksList(phone));
        response := AgentResponse("error", InvalidNumberMessage(n, |parks|), InvalidParkNumber(n));
      }
    }

    /** The branches tried when the message is not a choice awaited from the list. */
    method AnswerRequest(msg: string, state: ChatState, phone: string, fetch: nat -> Option<Payload>, now: string)
      returns (response: AgentResponse, sent: Option<Send>)
      requires FirstContained(DenyList, msg).None?
      requires !(state.awaitingParkChoice && ParkNumber(msg).Some?)
      modifies chatState
      ensures var t := Decide(msg, state, phone, fetch, now);
              response == t.response && sent == t.sent &&
              chatState.states == AfterTurn(old(chatState.states), phone, t.saved)
    {
      var state := state;
      var number := ParkNumber(msg);
      if IsSubstring("parques", msg) || IsSubstring("lista", msg) || IsSubstring("filas", msg) {
        sent := Some(SendParksList(phone));
        state := state.(awaitingParkChoice := true, lastAction := Some("list_parks"));
        var ok := chatState.SaveState(phone, state);
        response := AgentResponse("ok", ListSentMessage, SentViaZapi);
      } else if number.Some? {
        sent := Some(SendParksList(phone));
        state := state.(awaitingParkChoice := true, lastAction := Some("list_parks"), pendingNumber := number);
        var ok := chatState.SaveState(phone, state);
        response := AgentResponse("ok", ListFirstMessage, SentParksList(number.value));
      } else {
        var parks, _ := GetOrlandoParks();
        var i := FindNamedPark(parks, msg);
        if i.Some? {
          response, sent := ReportQueues(parks[i.value], None, state, phone, fetch(parks[i.value].id), now);
        } else {
          sent := Some(SendParksList(phone));
          state := state.(awaitingParkChoice := true, lastAction := Some("list_parks"));
          var ok := chatState.SaveState(phone, state);
          response := AgentResponse("ok", ChooseNumberMessage, ParksCount(|parks|));
        }
      }
    }

    /** Fetches, formats and sends the queue report of `park`, then records the park as the last one seen. */
    method ReportQueues(park: Park, selectedBy: Option<nat>, state: ChatState, phone: string,
                        fetched: Option<Payload>, now: string)
      returns (response: AgentResponse, sent: Option<Send>)
      modifies chatState
      ensures var t := ReportTurn(park, selectedBy, state, phone, fetched, now);
              response == t.response && sent == t.sent &&
              chatState.states == AfterTurn(old(chatState.states), phone, t.saved)
    {
      var lands, rides := GetParkQueues(fetched);
      if rides == [] {
        return AgentResponse("error", NoQueuesMessage(park.nome), QueuesUnavailable(park.id, selectedBy)), None;
      }
      var report := FormatQueueMessage(park.nome, lands, rides, now);
      sent := Some(SendText(phone, report));
      var newState := state.(awaitingParkChoice := false, lastParkId := Some(park.id), lastParkName := Some(park.nome));
      var ok := chatState.SaveState(phone, newState);
      response := AgentResponse("ok", QueuesSentMessage(park.nome), QueuesSent(park.id, park.nome, |rides|, selectedBy));
    }
  }
}
