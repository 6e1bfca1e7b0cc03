/**
 * The context service: it files the user's messages, the assistant's
 * answers, function calls and documents under the latest context of the
 * session `session_<phone>`, and reads a session's history back.
 * Looking up or creating the user is outside this model: the user's id is
 * an argument.
 */
module ContextService {
  import opened Wrappers
  import opened Text
  import opened ContextRepository

  function SessionId(phone: string): string {
    "session_" + phone
  }

  /** What `store_user_message` returns. */
  datatype ContextInfo = ContextInfo(contextId: nat, userId: nat, sessionId: string, sequence: nat, agentId: string)

  /** The repository contents together with what a store operation returned. */
  datatype Stored = Stored(contexts: seq<Context>, messages: map<nat, seq<StoredMessage>>, info: ContextInfo)

  /** A function call as the model returned it: its `id` entry, if any, and its JSON text. */
  datatype FunctionCall = FunctionCall(id: Option<string>, json: string)

  /** One entry of `get_conversation_history`. */
  datatype HistoryEntry = HistoryEntry(role: string, content: string, sequence: nat)

  /**
   * The user message goes to the latest context of the session, at the
   * sequence equal to the number of messages already there; without a
   * context, a new one is created and the message gets sequence 0.
   */
  function StoreUser(contexts: seq<Context>, messages: map<nat, seq<StoredMessage>>,
                     phone: string, message: string, agentId: string, userId: nat): (r: Stored)
    ensures r.info.sessionId == SessionId(phone) && r.info.userId == userId && r.info.agentId == agentId
    ensures |contexts| <= |r.contexts| <= |contexts| + 1 && r.contexts[..|contexts|] == contexts
    ensures MessagesOf(r.messages, r.info.contextId) ==
              MessagesOf(messages, r.info.contextId) + [StoredMessage(UserRole, message, r.info.sequence, None)]
    ensures forall id :: id != r.info.contextId ==> MessagesOf(r.messages, id) == MessagesOf(messages, id)
  {
    var sid := SessionId(phone);
    match Latest(contexts, sid)
    case None =>
      var c := Context(|contexts| + 1, userId, sid, agentId);
      Stored(contexts + [c], messages[c.id := MessagesOf(messages, c.id) + [StoredMessage(UserRole, message, 0, None)]],
             ContextInfo(c.id, userId, sid, 0, agentId))
    case Some(c) =>
      var n := |MessagesOf(messages, c.id)|;
      Stored(contexts, messages[c.id := MessagesOf(messages, c.id) + [StoredMessage(UserRole, message, n, None)]],
             ContextInfo(c.id, userId, sid, n, agentId))
  }

  /** `get_conversation_history`: the messages of the session's latest context, in order. */
  function History(contexts: seq<Context>, messages: map<nat, seq<StoredMessage>>, phone: string): (r: seq<HistoryEntry>)
    ensures Latest(contexts, SessionId(phone)).None? ==> r == []
    ensures Latest(contexts, SessionId(phone)).Some? ==>
              var ms := MessagesOf(messages, Latest(contexts, SessionId(phone)).value.id);
              |r| == |ms| && forall k :: 0 <= k < |ms| ==> r[k] == HistoryEntry(ms[k].role, ms[k].content, ms[k].sequence)
  {
    match Latest(contexts, SessionId(phone))
    case None => []
    case Some(c) =>
      var ms := MessagesOf(messages, c.id);
      seq(|ms|, k requires 0 <= k < |ms| => HistoryEntry(ms[k].role, ms[k].content, ms[k].sequence))
  }

  /**
   * Storing a user message keeps the repository consistent: the message
   * lands at the position its sequence names, in a context of the session.
   */
  lemma StoreUserConsistent(contexts: seq<Context>, messages: map<nat, seq<StoredMessage>>,
                            phone: string, message: string, agentId: string, userId: nat)
    requires Consistent(contexts, messages)
    ensures var s := StoreUser(contexts, messages, phone, message, agentId, userId);
            Consistent(s.contexts, s.messages) &&
            s.info.sequence == |MessagesOf(messages, s.info.contextId)| &&
            s.info.sessionId == SessionId(phone) &&
            Latest(s.contexts, SessionId(phone)).Some? && Latest(s.contexts, SessionId(phone)).value.id == s.info.contextId
  {
    var sid := SessionId(phone);
    var s := StoreUser(contexts, messages, phone, message, agentId, userId);
    if Latest(contexts, sid).None? {
      var c := Context(|contexts| + 1, userId, sid, agentId);
      assert c.id !in messages;
      assert LatestIndex(s.contexts, sid) == Some(|contexts|);
    } else {
      var i := LatestIndex(contexts, sid).value;
      var ms := MessagesOf(messages, contexts[i].id);
      assert contexts[i].id == i + 1;
      assert Numbered(ms + [StoredMessage(UserRole, message, |ms|, None)]);
    }
  }

  /** After a user message is stored, the session's history ends with it and keeps what came before. */
  lemma HistoryAfterStore(contexts: seq<Context>, messages: map<nat, seq<StoredMessage>>,
                          phone: string, message: string, agentId: string, userId: nat)
    requires Consistent(contexts, messages)
    ensures var s := StoreUser(contexts, messages, phone, message, agentId, userId);
            History(s.contexts, s.messages, phone) ==
              History(contexts, messages, phone) + [HistoryEntry(UserRole, message, s.info.sequence)]
  {
    StoreUserConsistent(contexts, messages, phone, message, agentId, userId);
    var s := StoreUser(contexts, messages, phone, message, agentId, userId);
    var id := s.info.contextId;
    var m := StoredMessage(UserRole, message, s.info.sequence, None);
    assert MessagesOf(s.messages, id) == MessagesOf(messages, id) + [m];
    HistoryOfAppended(s.contexts, s.messages, phone, MessagesOf(messages, id), m);
    if Latest(contexts, SessionId(phone)).Some? {
      assert Latest(contexts, SessionId(phone)).value.id == id;
      HistoryOfMessages(contexts, messages, phone, MessagesOf(messages, id));
    }
  }

  /** The history of a context holding `ms + [m]`. */
  lemma HistoryOfAppended(contexts: seq<Context>, messages: map<nat, seq<StoredMessage>>, phone: string,
                          ms: seq<StoredMessage>, m: StoredMessage)
    requires Latest(contexts, SessionId(phone)).Some?
    requires MessagesOf(messages, Latest(contexts, SessionId(phone)).value.id) == ms + [m]
    ensures History(contexts, messages, phone) ==
              seq(|ms|, k requires 0 <= k < |ms| => HistoryEntry(ms[k].role, ms[k].content, ms[k].sequence)) +
              [HistoryEntry(m.role, m.content, m.sequence)]
  {
  }

  lemma HistoryOfMessages(contexts: seq<Context>, messages: map<nat, seq<StoredMessage>>, phone: string,
                          ms: seq<StoredMessage>)
    requires Latest(contexts, SessionId(phone)).Some?
    requires MessagesOf(messages, Latest(contexts, SessionId(phone)).value.id) == ms
    ensures History(contexts, messages, phone) ==
              seq(|ms|, k requires 0 <= k < |ms| => HistoryEntry(ms[k].role, ms[k].content, ms[k].sequence))
  {
  }

  /** The id a function call is filed under: its own, or `func_<sequence>`. */
  function CallId(call: FunctionCall, sequence: nat): (r: string)
    ensures call.id.Some? ==> r == call.id.value
    ensures call.id.None? ==> |r| > 5 && r[..5] == "func_" && AllDigits(r[5..]) && DecimalValue(r[5..]) == sequence
  {
    NatToStringRoundTrip(sequence);
    assert ("func_" + NatToString(sequence))[5..] == NatToString(sequence);
    call.id.GetOr("func_" + NatToString(sequence))
  }

  /** Default ids of calls stored at different sequences are different. */
  lemma DefaultCallIdsDistinct(a: nat, b: nat)
    requires a != b
    ensures "func_" + NatToString(a) != "func_" + NatToString(b)
  {
    if "func_" + NatToString(a) == "func_" + NatToString(b) {
      assert NatToString(a) == ("func_" + NatToString(a))[5..];
      assert NatToString(b) == ("func_" + NatToString(b))[5..];
      NatToStringRoundTrip(a);
      NatToStringRoundTrip(b);
    }
  }

  class ContextService {
    const repo: InMemoryContextRepository

    constructor(repo: InMemoryContextRepository)
      ensures this.repo == repo
    {
      this.repo := repo;
    }

    /** `store_user_message`. */
    method StoreUserMessage(phone: string, message: string, agentId: string, userId: nat) returns (info: ContextInfo)
      requires repo.Valid()
      modifies repo
      ensures var s := StoreUser(old(repo.contexts), old(repo.messages), phone, message, agentId, userId);
              repo.contexts == s.contexts && repo.messages == s.messages && info == s.info
      ensures repo.documents == old(repo.documents)
      ensures repo.Valid()
    {
      StoreUserConsistent(repo.contexts, repo.messages, phone, message, agentId, userId);
      var sessionId := SessionId(phone);
      var context := repo.GetLatestContextBySession(sessionId);
      var sequence: nat;
      var contextId: nat;
      if context.None? {
        var created := repo.CreateContext(userId, sessionId, agentId);
        contextId := created.id;
        sequence := 0;
      } else {
        contextId := context.value.id;
        sequence := |repo.GetMessagesByContext(contextId)|;
      }
      var _ := repo.AddMessage(contextId, UserRole, message, sequence, None);
      info := ContextInfo(contextId, userId, sessionId, sequence, agentId);
    }

    /** `store_assistant_message`. */
    method StoreAssistantMessage(contextId: nat, message: string, sequence: nat) returns (m: StoredMessage)
      modifies repo
      ensures m == StoredMessage(AssistantRole, message, sequence, None)
      ensures repo.messages == old(repo.messages)[contextId := MessagesOf(old(repo.messages), contextId) + [m]]
      ensures repo.contexts == old(repo.contexts) && repo.documents == old(repo.documents)
    {
      m := repo.AddMessage(contextId, AssistantRole, message, sequence, None);
    }

    /** `store_function_call`: the JSON of the call, filed under its id or `func_<sequence>`. */
    method StoreFunctionCall(contextId: nat, call: FunctionCall, sequence: nat) returns (m: StoredMessage)
      modifies repo
      ensures m == StoredMessage(FunctionCallRole, call.json, sequence, Some(CallId(call, sequence)))
      ensures repo.messages == old(repo.messages)[contextId := MessagesOf(old(repo.messages), contextId) + [m]]
      ensures repo.contexts == old(repo.contexts) && repo.documents == old(repo.documents)
    {
      m := repo.AddMessage(contextId, FunctionCallRole, call.json, sequence, Some(CallId(call, sequence)));
    }

    /** `store_document`. */
    method StoreDocument(contextId: nat, filename: string, contentType: string, data: seq<bv8>, metadata: Option<string>)
      modifies repo
      ensures var d := Document(filename, contentType, Some(data), metadata);
              repo.documents == old(repo.documents)[contextId := DocumentsOf(old(repo.documents), contextId) + [d]]
      ensures repo.contexts == old(repo.contexts) && repo.messages == old(repo.messages)
    {
      repo.AddDocument(contextId, Document(filename, contentType, Some(data), metadata));
    }

    /** `get_conversation_history`. */
    function GetConversationHistory(phone: string): (r: seq<HistoryEntry>)
      reads this, repo
      ensures r == History(repo.contexts, repo.messages, phone)
    {
      History(repo.contexts, repo.messages, phone)
    }

    /** `get_documents_by_context_id`: the context's documents, in the order they were stored. */
    function GetDocumentsByContextId(contextId: nat): (r: seq<Document>)
      reads this, repo
      ensures r == DocumentsOf(repo.documents, contextId)
    {
      repo.GetDocumentsByContext(contextId)
    }
  }
}
