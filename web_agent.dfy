/**
 * The web agent (`#4`): it takes the content of the last user message as
 * the query, asks the web-search model and concatenates the `output_text`
 * parts of the `message` items of its answer. The search model is a
 * parameter that maps the query to the answer it returns.
 */
module WebAgent {
  import opened Wrappers
  import opened Text
  import opened Messages

  const Id := "#4"
  const Name := "Agente_Web"
  const Fallback := "Não foi possível encontrar informações relevantes."
  const NoUserMessage := "Nenhuma mensagem de usuário encontrada no contexto."

  /** A content part of an output item; its `type` and `text` keys may be missing. */
  datatype ContentPart = ContentPart(kind: Option<string>, text: Option<string>)

  /** An output item; a missing `content` key reads as an empty list. */
  datatype OutputItem = OutputItem(kind: Option<string>, content: Option<seq<ContentPart>>)

  /** The search answer; `output` is missing or empty when the model gave none. */
  datatype Response = Response(output: Option<seq<OutputItem>>)

  /** The dict `execute` returns: the text, and the raw answer when a search ran. */
  datatype WebReply = WebReply(text: string, raw: Option<Response>)

  function PartText(p: ContentPart): string {
    if p.kind == Some("output_text") then p.text.GetOr("") else ""
  }

  /** The text of the `output_text` parts, in order. */
  function PartsText(parts: seq<ContentPart>): string {
    if parts == [] then ""
    else PartsText(parts[..|parts| - 1]) + PartText(parts[|parts| - 1])
  }

  function ItemText(item: OutputItem): string {
    if item.kind == Some("message") then PartsText(item.content.GetOr([])) else ""
  }

  /** The text of all `message` items, in order. */
  function ItemsText(items: seq<OutputItem>): string {
    if items == [] then ""
    else ItemsText(items[..|items| - 1]) + ItemText(items[|items| - 1])
  }

  /** The answer's text; nothing when it has no output or no `message` item. */
  function ExtractedText(response: Response): (r: string)
    ensures response.output.None? ==> r == ""
    ensures response.output.Some? ==>
              (forall k :: 0 <= k < |response.output.value| ==> response.output.value[k].kind != Some("message")) ==>
                r == ""
  {
    if response.output.None? then ""
    else
      var items := response.output.value;
      if forall k :: 0 <= k < |items| ==> items[k].kind != Some("message") then
        OnlyMessagesCount(items);
        ItemsText(items)
      else ItemsText(items)
  }

  lemma {:induction false} PartsTextConcat(a: seq<ContentPart>, b: seq<ContentPart>)
    ensures PartsText(a + b) == PartsText(a) + PartsText(b)
    decreases |b|
  {
    if b == [] {
      assert a + b == a;
    } else {
      var init := b[..|b| - 1];
      assert (a + b)[..|a + b| - 1] == a + init && (a + b)[|a + b| - 1] == b[|b| - 1];
      PartsTextConcat(a, init);
      assert PartsText(a + b) == PartsText(a) + PartsText(init) + PartText(b[|b| - 1]);
    }
  }

  lemma {:induction false} ItemsTextConcat(a: seq<OutputItem>, b: seq<OutputItem>)
    ensures ItemsText(a + b) == ItemsText(a) + ItemsText(b)
    decreases |b|
  {
    if b == [] {
      assert a + b == a;
    } else {
      var init := b[..|b| - 1];
      assert (a + b)[..|a + b| - 1] == a + init && (a + b)[|a + b| - 1] == b[|b| - 1];
      ItemsTextConcat(a, init);
      assert ItemsText(a + b) == ItemsText(a) + ItemsText(init) + ItemText(b[|b| - 1]);
    }
  }

  /**
   * Every `output_text` part of every `message` item shows up in the
   * extracted text.
   */
  lemma EveryOutputTextKept(items: seq<OutputItem>, k: nat, j: nat)
    requires k < |items| && items[k].kind == Some("message")
    requires j < |items[k].content.GetOr([])|
    requires items[k].content.GetOr([])[j].kind == Some("output_text")
    ensures IsSubstring(items[k].content.GetOr([])[j].text.GetOr(""), ItemsText(items))
  {
    var parts := items[k].content.GetOr([]);
    var t := parts[j].text.GetOr("");
    assert parts == parts[..j] + [parts[j]] + parts[j + 1..];
    PartsTextConcat(parts[..j] + [parts[j]], parts[j + 1..]);
    PartsTextConcat(parts[..j], [parts[j]]);
    assert PartsText([parts[j]]) == PartsText([]) + t;
    assert PartsText(parts) == PartsText(parts[..j]) + t + PartsText(parts[j + 1..]);
    assert StartsWith(t, t);
    SubstringWithin(t, t, PartsText(parts[..j]), PartsText(parts[j + 1..]));
    assert items == items[..k] + [items[k]] + items[k + 1..];
    ItemsTextConcat(items[..k] + [items[k]], items[k + 1..]);
    ItemsTextConcat(items[..k], [items[k]]);
    assert ItemsText([items[k]]) == ItemsText([]) + PartsText(parts);
    SubstringWithin(t, PartsText(parts), ItemsText(items[..k]), ItemsText(items[k + 1..]));
  }

  /** Items that are not messages add nothing. */
  lemma {:induction false} OnlyMessagesCount(items: seq<OutputItem>)
    requires forall k :: 0 <= k < |items| ==> items[k].kind != Some("message")
    ensures ItemsText(items) == ""
    decreases |items|
  {
    if items != [] {
      OnlyMessagesCount(items[..|items| - 1]);
    }
  }

  /** The accumulation loop of `run`. */
  method ExtractText(response: Response) returns (outputText: string)
    ensures outputText == ExtractedText(response)
  {
    outputText := "";
    if response.output.Some? && response.output.value != [] {
      var items := response.output.value;
      var k := 0;
      while k < |items|
        invariant 0 <= k <= |items|
        invariant outputText == ItemsText(items[..k])
      {
        assert items[..k + 1][..k] == items[..k];
        var item := items[k];
        if item.kind == Some("message") {
          outputText := AppendPartsText(outputText, item.content.GetOr([]));
        }
        k := k + 1;
      }
      assert items[..|items|] == items;
    }
  }

  /** The inner loop of `run`: append the `output_text` parts of one message item. */
  method AppendPartsText(acc: string, parts: seq<ContentPart>) returns (outputText: string)
    ensures outputText == acc + PartsText(parts)
  {
    outputText := acc;
    var j := 0;
    while j < |parts|
      invariant 0 <= j <= |parts|
      invariant outputText == acc + PartsText(parts[..j])
    {
      assert parts[..j + 1][..j] == parts[..j];
      var part := parts[j];
      if part.kind == Some("output_text") {
        outputText := outputText + part.text.GetOr("");
      }
      j := j + 1;
    }
    assert parts[..|parts|] == parts;
  }

  /** `run`: search, extract, and fall back to a fixed sentence when nothing was extracted. */
  method Run(query: string, search: string -> Response) returns (reply: WebReply)
    ensures reply.raw == Some(search(query))
    ensures ExtractedText(search(query)) != "" ==> reply.text == ExtractedText(search(query))
    ensures ExtractedText(search(query)) == "" ==> reply.text == Fallback
    ensures reply.text != ""
  {
    var response := search(query);
    var outputText := ExtractText(response);
    var text := if outputText != "" then outputText else Fallback;
    reply := WebReply(text, Some(response));
  }

  /** A message without a `role` key makes the comprehension raise `KeyError`. */
  predicate MissingRole(context: seq<Message>) {
    exists i :: 0 <= i < |context| && context[i].role.None?
  }

  /**
   * `execute`: with no user message, a fixed reply and no search; otherwise
   * the content of the last user message is the query. A message without a
   * `role`, or a last user message without `content`, raises `KeyError`.
   */
  method Execute(context: seq<Message>, search: string -> Response) returns (r: Result<WebReply, string>)
    ensures MissingRole(context) ==> r == Failure("role")
    ensures !MissingRole(context) && LastIndexWithRole(context, "user").None? ==>
              r == Success(WebReply(NoUserMessage, None))
    ensures !MissingRole(context) && LastIndexWithRole(context, "user").Some? ==>
              var m := context[LastIndexWithRole(context, "user").value];
              (m.content.None? ==> r == Failure("content")) &&
              (m.content.Some? ==> r.Success? && r.value.raw == Some(search(m.content.value)) && r.value.text != "" &&
                                   (ExtractedText(search(m.content.value)) != "" ==>
                                      r.value.text == ExtractedText(search(m.content.value))) &&
                                   (ExtractedText(search(m.content.value)) == "" ==> r.value.text == Fallback))
  {
    if MissingRole(context) {
      return Failure("role");
    }
    var last := LastIndexWithRole(context, "user");
    if last.None? {
      return Success(WebReply(NoUserMessage, None));
    }
    var m := context[last.value];
    if m.content.None? {
      return Failure("content");
    }
    var reply := Run(m.content.value, search);
    r := Success(reply);
  }
}
