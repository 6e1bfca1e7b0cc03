/**
 * An in-memory stand-in for the conversation-context repository the
 * context services write to: contexts in creation order with ids 1, 2, …,
 * and per context the messages and documents in the order they were added.
 * `get_messages_by_context` orders by `sequence`; here messages are kept in
 * insertion order, and `Numbered` says when the two orders agree.
 */
module ContextRepository {
  import opened Wrappers

  datatype Context = Context(id: nat, userId: nat, sessionId: string, agentId: string)

  const UserRole := "user"
  const AssistantRole := "assistant"
  const FunctionCallRole := "function_call"

  datatype StoredMessage = StoredMessage(role: string, content: string, sequence: nat, functionCallId: Option<string>)

  datatype Document = Document(filename: string, contentType: string, data: Option<seq<bv8>>, metadata: Option<string>)

  /** Position of the most recent context of a session. */
  function LatestIndex(contexts: seq<Context>, sessionId: string): (r: Option<nat>)
    ensures r.Some? ==> r.value < |contexts| && contexts[r.value].sessionId == sessionId &&
                        forall j :: r.value < j < |contexts| ==> contexts[j].sessionId != sessionId
    ensures r.None? <==> forall j :: 0 <= j < |contexts| ==> contexts[j].sessionId != sessionId
  {
    if contexts == [] then None
    else if contexts[|contexts| - 1].sessionId == sessionId then Some(|contexts| - 1)
    else LatestIndex(contexts[..|contexts| - 1], sessionId)
  }

  /** `get_latest_context_by_session`: the context of the session created last, if any. */
  function Latest(contexts: seq<Context>, sessionId: string): Option<Context> {
    match LatestIndex(contexts, sessionId)
    case None => None
    case Some(i) => Some(contexts[i])
  }

  function MessagesOf(messages: map<nat, seq<StoredMessage>>, contextId: nat): seq<StoredMessage> {
    if contextId in messages then messages[contextId] else []
  }

  function DocumentsOf(documents: map<nat, seq<Document>>, contextId: nat): seq<Document> {
    if contextId in documents then documents[contextId] else []
  }

  /** Message `k` of a context carries sequence `k`. */
  predicate Numbered(ms: seq<StoredMessage>) {
    forall k :: 0 <= k < |ms| ==> ms[k].sequence == k
  }

  /** Ids follow creation order, and only existing contexts hold messages, numbered from 0. */
  ghost predicate Consistent(contexts: seq<Context>, messages: map<nat, seq<StoredMessage>>) {
    (forall i :: 0 <= i < |contexts| ==> contexts[i].id == i + 1) &&
    (forall c :: c in messages ==> 1 <= c <= |contexts| && Numbered(messages[c]))
  }

  class InMemoryContextRepository {
    var contexts: seq<Context>
    var messages: map<nat, seq<StoredMessage>>
    var documents: map<nat, seq<Document>>

    ghost predicate Valid()
      reads this
    {
      Consistent(contexts, messages)
    }

    constructor()
      ensures contexts == [] && messages == map[] && documents == map[]
      ensures Valid()
    {
      contexts := [];
      messages := map[];
      documents := map[];
    }

    method CreateContext(userId: nat, sessionId: string, agentId: string) returns (c: Context)
      modifies this
      ensures c == Context(|old(contexts)| + 1, userId, sessionId, agentId)
      ensures contexts == old(contexts) + [c]
      ensures messages == old(messages) && documents == old(documents)
    {
      c := Context(|contexts| + 1, userId, sessionId, agentId);
      contexts := contexts + [c];
    }

    function GetLatestContextBySession(sessionId: string): Option<Context>
      reads this
    {
      Latest(contexts, sessionId)
    }

    method AddMessage(contextId: nat, role: string, content: string, sequence: nat, functionCallId: Option<string>)
      returns (m: StoredMessage)
      modifies this
      ensures m == StoredMessage(role, content, sequence, functionCallId)
      ensures messages == old(messages)[contextId := MessagesOf(old(messages), contextId) + [m]]
      ensures contexts == old(contexts) && documents == old(documents)
    {
      m := StoredMessage(role, content, sequence, functionCallId);
      messages := messages[contextId := MessagesOf(messages, contextId) + [m]];
    }

    /** The context's messages; in a valid store they are already in `sequence` order. */
    function GetMessagesByContext(contextId: nat): (r: seq<StoredMessage>)
      reads this
      ensures Valid() ==> forall k :: 0 <= k < |r| ==> r[k].sequence == k
    {
      MessagesOf(messages, contextId)
    }

    method AddDocument(contextId: nat, d: Document)
      modifies this
      ensures documents == old(documents)[contextId := DocumentsOf(old(documents), contextId) + [d]]
      ensures contexts == old(contexts) && messages == old(messages)
    {
      documents := documents[contextId := DocumentsOf(documents, contextId) + [d]];
    }

    function GetDocumentsByContext(contextId: nat): seq<Document>
      reads this
    {
      DocumentsOf(documents, contextId)
    }
  }
}
