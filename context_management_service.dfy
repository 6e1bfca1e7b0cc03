/**
 * The context management service: the same user-message filing as the
 * context service (its result names the sequence `message_sequence`), and
 * the storing of an assistant answer together with its function calls and
 * documents.
 */
module ContextManagementService {
  import opened Wrappers
  import opened Text
  import opened ContextRepository
  import opened ContextService

  const DefaultFilename := "documento.pdf"
  const DefaultContentType := "application/pdf"

  /** A document as handed to `save_assistant_response`; each key may be missing. */
  datatype DocumentInput = DocumentInput(filename: Option<string>, contentType: Option<string>,
                                         data: Option<seq<bv8>>, metadata: Option<string>)

  /** The document stored for an input, with the default name and type filled in. */
  function ToDocument(d: DocumentInput): (r: Document)
    ensures d.filename.None? ==> r.filename == DefaultFilename
    ensures d.filename.Some? ==> r.filename == d.filename.value
    ensures d.contentType.None? ==> r.contentType == DefaultContentType
    ensures d.contentType.Some? ==> r.contentType == d.contentType.value
    ensures r.data == d.data && r.metadata == d.metadata
  {
    Document(d.filename.GetOr(DefaultFilename), d.contentType.GetOr(DefaultContentType), d.data, d.metadata)
  }

  function ToDocuments(ds: seq<DocumentInput>): (r: seq<Document>)
    ensures |r| == |ds| && forall k :: 0 <= k < |ds| ==> r[k] == ToDocument(ds[k])
  {
    seq(|ds|, k requires 0 <= k < |ds| => ToDocument(ds[k]))
  }

  /** The id call `i` of a response is filed under: its own, or `func_<i>`. */
  function ResponseCallId(call: FunctionCall, i: nat): string {
    call.id.GetOr("func_" + NatToString(i))
  }

  /** Call `i` of the list, stored right after the assistant message and the calls before it. */
  function CallMessage(call: FunctionCall, sequence: nat, i: nat): StoredMessage {
    StoredMessage(FunctionCallRole, call.json, sequence + i + 1, Some(ResponseCallId(call, i)))
  }

  function CallMessages(calls: seq<FunctionCall>, sequence: nat): (r: seq<StoredMessage>)
    ensures |r| == |calls| && forall i :: 0 <= i < |calls| ==> r[i] == CallMessage(calls[i], sequence, i)
  {
    seq(|calls|, i requires 0 <= i < |calls| => CallMessage(calls[i], sequence, i))
  }

  /** The messages `save_assistant_response` appends, in order. */
  function ResponseMessages(content: string, sequence: nat, calls: seq<FunctionCall>): (r: seq<StoredMessage>)
    ensures |r| == |calls| + 1
    ensures r[0] == StoredMessage(AssistantRole, content, sequence, None)
    ensures r[1..] == CallMessages(calls, sequence)
  {
    [StoredMessage(AssistantRole, content, sequence, None)] + CallMessages(calls, sequence)
  }

  /** The appended messages carry consecutive sequences starting at `sequence`. */
  lemma ResponseSequencesConsecutive(content: string, sequence: nat, calls: seq<FunctionCall>)
    ensures forall k :: 0 <= k < |ResponseMessages(content, sequence, calls)| ==>
              ResponseMessages(content, sequence, calls)[k].sequence == sequence + k
  {
    var r := ResponseMessages(content, sequence, calls);
    forall k | 0 <= k < |r|
      ensures r[k].sequence == sequence + k
    {
      if k > 0 {
        assert r[k] == CallMessage(calls[k - 1], sequence, k - 1);
      }
    }
  }

  /** Answering at the next free sequence keeps a context's messages numbered by position. */
  lemma ResponseKeepsNumbered(ms: seq<StoredMessage>, content: string, calls: seq<FunctionCall>)
    requires Numbered(ms)
    ensures Numbered(ms + ResponseMessages(content, |ms|, calls))
  {
    var r := ResponseMessages(content, |ms|, calls);
    ResponseSequencesConsecutive(content, |ms|, calls);
    forall k | 0 <= k < |ms + r|
      ensures (ms + r)[k].sequence == k
    {
      if k >= |ms| {
        assert (ms + r)[k] == r[k - |ms|];
      }
    }
  }

  /** Calls without an id of their own get distinct ids within one response. */
  lemma ResponseDefaultIdsDistinct(calls: seq<FunctionCall>, i: nat, j: nat)
    requires i < j < |calls| && calls[i].id.None? && calls[j].id.None?
    ensures ResponseCallId(calls[i], i) != ResponseCallId(calls[j], j)
  {
    DefaultCallIdsDistinct(i, j);
  }

  /**
   * The default id counts from 0 in every response, so two responses in one
   * context, each with an id-less call, file both calls under `func_0`.
   */
  lemma DefaultIdsRepeatAcrossResponses(call: FunctionCall, first: nat, second: nat)
    requires call.id.None? && first != second
    ensures ResponseMessages("", first, [call])[1].functionCallId == Some("func_0")
    ensures ResponseMessages("", second, [call])[1].functionCallId == Some("func_0")
    ensures ResponseMessages("", first, [call])[1].sequence != ResponseMessages("", second, [call])[1].sequence
  {
    assert NatToString(0) == "0";
    assert ResponseCallId(call, 0) == "func_0";
    assert ResponseMessages("", first, [call])[1] == CallMessage([call][0], first, 0);
    assert ResponseMessages("", second, [call])[1] == CallMessage([call][0], second, 0);
  }

  class ContextManagementService {
    const repo: InMemoryContextRepository

    constructor(repo: InMemoryContextRepository)
      ensures this.repo == repo
    {
      this.repo := repo;
    }

    /** `create_or_update_context`: files the user message exactly as the context service does. */
    method CreateOrUpdateContext(phone: string, message: string, agentId: string, userId: nat) returns (info: ContextInfo)
      requires repo.Valid()
      modifies repo
      ensures var s := StoreUser(old(repo.contexts), old(repo.messages), phone, message, agentId, userId);
              repo.contexts == s.contexts && repo.messages == s.messages && info == s.info
      ensures repo.documents == old(repo.documents)
      ensures repo.Valid()
    {
      StoreUserConsistent(repo.contexts, repo.messages, phone, message, agentId, userId);
      var sessionId := SessionId(phone);
      var context := repo.GetLatestContextBySession(sessionId);
      var messageSequence: nat;
      var contextId: nat;
      if context.None? {
        var created := repo.CreateContext(userId, sessionId, agentId);
        contextId := created.id;
        messageSequence := 0;
      } else {
        contextId := context.value.id;
        messageSequence := |repo.GetMessagesByContext(contextId)|;
      }
      var _ := repo.AddMessage(contextId, UserRole, message, messageSequence, None);
      info := ContextInfo(contextId, userId, sessionId, messageSequence, agentId);
    }

    /**
     * `save_assistant_response`: the assistant message at `sequence`, call
     * `i` at `sequence + i + 1`, then the documents with their defaults.
     */
    method SaveAssistantResponse(contextId: nat, content: string, sequence: nat,
                                 calls: seq<FunctionCall>, documents: seq<DocumentInput>)
      returns (m: StoredMessage)
      modifies repo
      ensures m == StoredMessage(AssistantRole, content, sequence, None)
      ensures repo.messages == old(repo.messages)[contextId := MessagesOf(old(repo.messages), contextId) +
                                                               ResponseMessages(content, sequence, calls)]
      ensures documents == [] ==> repo.documents == old(repo.documents)
      ensures documents != [] ==>
                repo.documents == old(repo.documents)[contextId := DocumentsOf(old(repo.documents), contextId) + ToDocuments(documents)]
      ensures repo.contexts == old(repo.contexts)
    {
      ghost var before := MessagesOf(repo.messages, contextId);
      m := repo.AddMessage(contextId, AssistantRole, content, sequence, None);
      assert repo.messages[contextId] == before + [m];
      SaveCalls(contextId, sequence, calls);
      ghost var cms := CallMessages(calls, sequence);
      assert ResponseMessages(content, sequence, calls) == [m] + cms;
      assert (before + [m]) + cms == before + ([m] + cms);
      assert repo.messages == old(repo.messages)[contextId := before + ResponseMessages(content, sequence, calls)];
      if documents != [] {
        SaveDocuments(contextId, documents);
      }
    }

    /** The function-call loop of `save_assistant_response`. */
    method SaveCalls(contextId: nat, sequence: nat, calls: seq<FunctionCall>)
      requires contextId in repo.messages
      modifies repo
      ensures repo.messages == old(repo.messages)[contextId := old(repo.messages)[contextId] + CallMessages(calls, sequence)]
      ensures repo.contexts == old(repo.contexts) && repo.documents == old(repo.documents)
    {
      ghost var stored := repo.messages[contextId];
      ghost var added: seq<StoredMessage> := [];
      assert stored + added == stored;
      var i := 0;
      while i < |calls|
        invariant 0 <= i <= |calls|
        invariant |added| == i && forall k :: 0 <= k < i ==> added[k] == CallMessage(calls[k], sequence, k)
        invariant repo.messages == old(repo.messages)[contextId := stored + added]
        invariant repo.contexts == old(repo.contexts) && repo.documents == old(repo.documents)
      {
        var call := calls[i];
        assert MessagesOf(repo.messages, contextId) == stored + added;
        var _ := repo.AddMessage(contextId, FunctionCallRole, call.json, sequence + i + 1, Some(ResponseCallId(call, i)));
        assert (stored + added) + [CallMessage(call, sequence, i)] == stored + (added + [CallMessage(call, sequence, i)]);
        added := added + [CallMessage(call, sequence, i)];
        i := i + 1;
      }
      assert added == CallMessages(calls, sequence);
    }

    /** The document loop of `save_assistant_response`. */
    method SaveDocuments(contextId: nat, documents: seq<DocumentInput>)
      requires documents != []
      modifies repo
      ensures repo.documents == old(repo.documents)[contextId := DocumentsOf(old(repo.documents), contextId) + ToDocuments(documents)]
      ensures repo.contexts == old(repo.contexts) && repo.messages == old(repo.messages)
    {
      ghost var before := DocumentsOf(old(repo.documents), contextId);
      var i := 0;
      while i < |documents|
        invariant 0 <= i <= |documents|
        invariant i == 0 ==> repo.documents == old(repo.documents)
        invariant i > 0 ==> repo.documents == old(repo.documents)[contextId := before + ToDocuments(documents[..i])]
        invariant repo.contexts == old(repo.contexts) && repo.messages == old(repo.messages)
      {
        assert DocumentsOf(repo.documents, contextId) == before + ToDocuments(documents[..i]);
        repo.AddDocument(contextId, ToDocument(documents[i]));
        assert repo.documents == old(repo.documents)[contextId := (before + ToDocuments(documents[..i])) + [ToDocument(documents[i])]];
        assert documents[..i + 1] == documents[..i] + [documents[i]];
        assert ToDocuments(documents[..i + 1]) == ToDocuments(documents[..i]) + [ToDocument(documents[i])];
        assert (before + ToDocuments(documents[..i])) + [ToDocument(documents[i])] == before + ToDocuments(documents[..i + 1]);
        i := i + 1;
      }
      assert documents[..|documents|] == documents;
    }

    /** `get_conversation_history`: the context's messages, in order. */
    function GetConversationHistory(contextId: nat): (r: seq<StoredMessage>)
      reads this, repo
      ensures r == MessagesOf(repo.messages, contextId)
    {
      repo.GetMessagesByContext(contextId)
    }
  }
}
