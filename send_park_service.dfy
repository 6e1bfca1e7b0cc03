/**
 * The Z-API sender: validation and normalisation of the message and the
 * phone number, the request it posts, and the park-list message.
 * The HTTP post itself is a parameter: it maps the request to `None` when
 * the post succeeded and to `Some(e)` with the text of the error it raised.
 */
module SendParkService {
  import opened Wrappers
  import opened Text
  import opened OrlandoParks

  /** The four settings read from the environment; any of them may be unset. */
  datatype ZapiConfig = ZapiConfig(
    baseUrl: Option<string>,
    instanceId: Option<string>,
    instanceToken: Option<string>,
    clientToken: Option<string>)

  /** What `send_message` posts: the URL, the client token header and the JSON body. */
  datatype ZapiRequest = ZapiRequest(url: string, clientToken: Option<string>, phone: string, message: string)

  /** The `(status, text)` pair `send_message` returns, with the request it posted, if any. */
  datatype SendResult = SendResult(status: Option<nat>, text: string, request: Option<ZapiRequest>)

  const InvalidData := "Dados inválidos"
  const Sent := "Mensagem enviada com sucesso!"
  const NoParks := "Não foi possível obter a lista de parques"
  const ListHeader := "🎢 *Parques disponíveis em Orlando* 🎢\n\n"
  const ListFooter := "\n\nPara consultar as filas, responda apenas com o número do parque desejado."

  /** A message is accepted exactly when it is not all whitespace. */
  function ValidateMessage(message: string): (ok: bool)
    ensures ok <==> !AllSpace(message)
  {
    var clean := Strip(message);
    if clean == [] then false else true
  }

  /** A phone is accepted when it is non-empty and holds 11 to 13 ASCII digits. */
  function ValidateCellNumber(cell: string): (ok: bool)
    ensures ok <==> cell != [] && 11 <= |DigitsOf(cell)| <= 13
  {
    if cell == [] then false
    else
      var clean := DigitsOf(Strip(cell));
      DigitsOfStrip(cell);
      if |clean| < 11 then false
      else if |clean| > 13 then false
      else true
  }

  /**
   * Keeps the digits of `phone` and adds the country code 55 when they do
   * not start with it and are at most 11 long.
   */
  function ResolvePhone(phone: string): (r: string)
    ensures AllDigits(r)
    ensures EndsWith(r, DigitsOf(phone))
    ensures r == DigitsOf(phone) || r == "55" + DigitsOf(phone)
    ensures r == "55" + DigitsOf(phone) <==> !StartsWith(DigitsOf(phone), "55") && |DigitsOf(phone)| <= 11
    ensures StartsWith(r, "55") || |r| > 11
  {
    var clean := DigitsOf(phone);
    if !StartsWith(clean, "55") && |clean| <= 11 then
      assert ("55" + clean)[2..] == clean;
      "55" + clean
    else clean
  }

  /** Resolving an already resolved phone changes nothing. */
  lemma ResolvePhoneIdempotent(phone: string)
    ensures ResolvePhone(ResolvePhone(phone)) == ResolvePhone(phone)
  {
    var r := ResolvePhone(phone);
    DigitsOfDigits(r);
  }

  /** Every phone that passes validation resolves to 11 to 13 digits. */
  lemma ResolvedPhoneLength(phone: string)
    requires ValidateCellNumber(phone)
    ensures 11 <= |ResolvePhone(phone)| <= 13
  {
  }

  /** The instance URL; an unset setting is rendered as `None`, as an f-string does. */
  function ResolveUrl(config: ZapiConfig): (r: string)
    ensures StartsWith(r, Show(config.baseUrl))
    ensures StartsWith(r, Show(config.baseUrl) + "/instances/" + Show(config.instanceId) + "/token/")
    ensures EndsWith(r, Show(config.instanceToken))
    ensures config.baseUrl.None? ==> StartsWith(r, "None/instances/")
  {
    var a := Show(config.baseUrl) + "/instances/";
    var b := Show(config.instanceId) + "/token/";
    ConcatFrame(a, b, Show(config.instanceToken));
    ConcatFrame(Show(config.baseUrl), "/instances/", b + Show(config.instanceToken));
    ConcatAssoc(a, b, Show(config.instanceToken));
    a + b + Show(config.instanceToken)
  }

  /**
   * Validates both inputs; on success posts the resolved phone and the
   * message to the `send-text` endpoint and reports the outcome of the post.
   */
  function SendMessage(config: ZapiConfig, phone: string, message: string, post: ZapiRequest -> Option<string>): (r: SendResult)
    ensures r.request.None? <==> AllSpace(message) || !(phone != [] && 11 <= |DigitsOf(phone)| <= 13)
    ensures r.request.None? ==> r == SendResult(None, InvalidData, None)
    ensures r.request.Some? ==>
              var q := r.request.value;
              q.message == message && AllDigits(q.phone) && 11 <= |q.phone| <= 13 &&
              EndsWith(q.url, "/send-text") && q.clientToken == config.clientToken &&
              q.phone == ResolvePhone(phone) && q.url == ResolveUrl(config) + "/send-text"
    ensures r.status == Some(200) <==> r.request.Some? && post(r.request.value).None?
    ensures r.status == Some(200) ==> r.text == Sent
    ensures r.request.Some? && r.status.None? ==> r.text == post(r.request.value).value
  {
    if !ValidateMessage(message) || !ValidateCellNumber(phone) then SendResult(None, InvalidData, None)
    else
      ResolvedPhoneLength(phone);
      var url := ResolveUrl(config) + "/send-text";
      var request := ZapiRequest(url, config.clientToken, ResolvePhone(phone), message);
      match post(request)
      case None => SendResult(Some(200), Sent, Some(request))
      case Some(e) => SendResult(None, e, Some(request))
  }

  /** The park-list message: the fixed header, the numbered list and the fixed footer. */
  function ParksMessage(lista: string): (m: string)
    ensures StartsWith(m, ListHeader) && EndsWith(m, ListFooter)
    ensures IsSubstring(lista, m)
    ensures !AllSpace(m)
  {
    ConcatFrame(ListHeader, lista, ListFooter);
    SubstringWithin(lista, lista, ListHeader, ListFooter);
    assert (ListHeader + lista + ListFooter)[0] == '🎢';
    ListHeader + lista + ListFooter
  }

  /**
   * Sends the numbered list of `parks`; an empty catalogue is refused before
   * anything is posted.
   */
  function SendParksList(config: ZapiConfig, phone: string, parks: seq<Park>, post: ZapiRequest -> Option<string>): (r: SendResult)
    ensures parks == [] ==> r == SendResult(None, NoParks, None)
    ensures parks != [] ==> (r.request.None? <==> !ValidateCellNumber(phone))
    ensures r.request.Some? ==> r.request.value.message == ParksMessage(NumberedFrom(parks, 1))
  {
    if parks == [] then SendResult(None, NoParks, None)
    else SendMessage(config, phone, ParksMessage(NumberedFrom(parks, 1)), post)
  }

  /**
   * For the Orlando catalogue and a valid phone, a request is always posted,
   * and its message holds line `n. nome` for every park `n`.
   */
  lemma CatalogueListPosted(config: ZapiConfig, phone: string, post: ZapiRequest -> Option<string>)
    requires ValidateCellNumber(phone)
    ensures var r := SendParksList(config, phone, Parks, post);
            r.request.Some? &&
            IsSubstring(NumberedFrom(Parks, 1), r.request.value.message) &&
            SplitLines(NumberedFrom(Parks, 1)) ==
              seq(8, i requires 0 <= i < 8 => NatToString(i + 1) + ". " + Parks[i].nome)
  {
    ParkNames();
    ParksNumberedList();
  }
}
