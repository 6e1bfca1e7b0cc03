/**
 * The response service's `execute`: it files the user message with the
 * context service, asks the orchestrator for the turn's outputs, sends the
 * answer, and files the assistant answer and the function calls of the
 * outputs at the sequences following the user message.
 *
 * The orchestrator's outputs and the outcome of resolving, sending and
 * saving the answer through the older message store are parameters: a
 * `Failure` stands for the exception the step raised.
 */
module GenerateResponseService {
  import opened Wrappers
  import opened ContextRepository
  import opened ContextService

  /** The agent id the user message is filed under. */
  const DefaultAgent := "default"

  /**
   * One output of the orchestrator: its `role`, `type`, `content` and `id`
   * keys (each may be missing; a `null` content reads as missing) and its
   * JSON text.
   */
  datatype Output = Output(role: Option<string>, kind: Option<string>, content: Option<string>,
                           id: Option<string>, json: string)

  predicate IsAssistant(o: Output) {
    o.role == Some(AssistantRole)
  }

  /** A function call is an output of type `function_call` that is not an assistant output. */
  predicate IsCall(o: Output) {
    !IsAssistant(o) && o.kind == Some(FunctionCallRole)
  }

  function ToCall(o: Output): FunctionCall {
    FunctionCall(o.id, o.json)
  }

  /** Position of the last assistant output. */
  function LastAssistant(outputs: seq<Output>): (r: Option<nat>)
    ensures r.Some? ==> r.value < |outputs| && IsAssistant(outputs[r.value]) &&
                        forall j :: r.value < j < |outputs| ==> !IsAssistant(outputs[j])
    ensures r.None? <==> forall j :: 0 <= j < |outputs| ==> !IsAssistant(outputs[j])
  {
    if outputs == [] then None
    else if IsAssistant(outputs[|outputs| - 1]) then Some(|outputs| - 1)
    else LastAssistant(outputs[..|outputs| - 1])
  }

  /** The content of the last assistant output; empty when there is none or it has no content. */
  function AssistantContent(outputs: seq<Output>): (r: string)
    ensures LastAssistant(outputs).None? ==> r == ""
    ensures r != "" ==> LastAssistant(outputs).Some? && outputs[LastAssistant(outputs).value].content == Some(r)
  {
    match LastAssistant(outputs)
    case None => ""
    case Some(i) => outputs[i].content.GetOr("")
  }

  /** The function-call outputs, in order. */
  function Calls(outputs: seq<Output>): (r: seq<FunctionCall>)
    ensures |r| <= |outputs|
  {
    if outputs == [] then []
    else
      var last := outputs[|outputs| - 1];
      Calls(outputs[..|outputs| - 1]) + (if IsCall(last) then [ToCall(last)] else [])
  }

  /** Exactly the function-call outputs are kept, and nothing else. */
  lemma {:induction false} CallsCorrect(outputs: seq<Output>)
    ensures |Calls(outputs)| <= |outputs|
    ensures forall i :: 0 <= i < |outputs| && IsCall(outputs[i]) ==> ToCall(outputs[i]) in Calls(outputs)
    ensures forall c :: c in Calls(outputs) ==> exists i :: 0 <= i < |outputs| && IsCall(outputs[i]) && ToCall(outputs[i]) == c
    decreases |outputs|
  {
    if outputs != [] {
      var init := outputs[..|outputs| - 1];
      CallsCorrect(init);
      assert forall i :: 0 <= i < |init| ==> init[i] == outputs[i];
    }
  }

  /** The calls keep the order of the outputs: those of `a` come before those of `b`. */
  lemma {:induction false} CallsConcat(a: seq<Output>, b: seq<Output>)
    ensures Calls(a + b) == Calls(a) + Calls(b)
    decreases |b|
  {
    if b == [] {
      assert a + b == a;
    } else {
      var init := b[..|b| - 1];
      assert (a + b)[..|a + b| - 1] == a + init;
      assert (a + b)[|a + b| - 1] == b[|b| - 1];
      CallsConcat(a, init);
    }
  }

  /** The function-call messages of a turn, numbered from `first`, with ids defaulting to `func_<sequence>`. */
  function CallsFrom(calls: seq<FunctionCall>, first: nat): (r: seq<StoredMessage>)
    ensures |r| == |calls|
    ensures forall i :: 0 <= i < |calls| ==>
              r[i] == StoredMessage(FunctionCallRole, calls[i].json, first + i, Some(CallId(calls[i], first + i)))
  {
    seq(|calls|, i requires 0 <= i < |calls| =>
      StoredMessage(FunctionCallRole, calls[i].json, first + i, Some(CallId(calls[i], first + i))))
  }

  /** The assistant message, when its content is not empty. */
  function AnswerMessages(outputs: seq<Output>, start: nat): seq<StoredMessage> {
    if AssistantContent(outputs) != "" then [StoredMessage(AssistantRole, AssistantContent(outputs), start, None)] else []
  }

  /** The messages a turn stores after the user message: the answer, if any, then the calls. */
  function Planned(outputs: seq<Output>, start: nat): (r: seq<StoredMessage>)
    ensures |r| == |Calls(outputs)| + (if AssistantContent(outputs) != "" then 1 else 0)
    ensures AssistantContent(outputs) != "" ==> r[0] == StoredMessage(AssistantRole, AssistantContent(outputs), start, None)
  {
    var answer := AnswerMessages(outputs, start);
    answer + CallsFrom(Calls(outputs), start + |answer|)
  }

  /** The answer part and the call part of a turn, split at the answer's length. */
  lemma PlannedParts(outputs: seq<Output>, start: nat, content: string, answer: seq<StoredMessage>,
                     calls: seq<FunctionCall>, next: nat)
    requires content == AssistantContent(outputs) && calls == Calls(outputs)
    requires answer == (if content != "" then [StoredMessage(AssistantRole, content, start, None)] else [])
    requires next == start + |answer|
    ensures Planned(outputs, start) == answer + CallsFrom(calls, next)
  {
  }

  /** The stored sequences are consecutive from `start`, with no gap. */
  lemma PlannedConsecutive(outputs: seq<Output>, start: nat)
    ensures forall k :: 0 <= k < |Planned(outputs, start)| ==> Planned(outputs, start)[k].sequence == start + k
  {
    var answer := AnswerMessages(outputs, start);
    var calls := CallsFrom(Calls(outputs), start + |answer|);
    var p := answer + calls;
    forall k | 0 <= k < |p|
      ensures p[k].sequence == start + k
    {
      if k >= |answer| {
        assert p[k] == calls[k - |answer|];
      }
    }
  }

  /** Calls without an id of their own get distinct default ids within a turn. */
  lemma TurnDefaultIdsDistinct(calls: seq<FunctionCall>, first: nat, i: nat, j: nat)
    requires i < j < |calls| && calls[i].id.None? && calls[j].id.None?
    ensures CallsFrom(calls, first)[i].functionCallId != CallsFrom(calls, first)[j].functionCallId
  {
    DefaultCallIdsDistinct(first + i, first + j);
  }

  /** A whole turn, the user message and then the planned messages, keeps the store consistent. */
  lemma TurnConsistent(contexts: seq<Context>, messages: map<nat, seq<StoredMessage>>,
                       phone: string, message: string, userId: nat, outputs: seq<Output>)
    requires Consistent(contexts, messages)
    ensures var s := StoreUser(contexts, messages, phone, message, DefaultAgent, userId);
            var id := s.info.contextId;
            Consistent(s.contexts, s.messages[id := MessagesOf(s.messages, id) + Planned(outputs, s.info.sequence + 1)])
  {
    StoreUserConsistent(contexts, messages, phone, message, DefaultAgent, userId);
    var s := StoreUser(contexts, messages, phone, message, DefaultAgent, userId);
    var id := s.info.contextId;
    var ms: seq<StoredMessage> := MessagesOf(s.messages, id);
    assert |ms| == s.info.sequence + 1;
    var p: seq<StoredMessage> := Planned(outputs, s.info.sequence + 1);
    PlannedConsecutive(outputs, s.info.sequence + 1);
    forall k | 0 <= k < |ms + p|
      ensures (ms + p)[k].sequence == k
    {
      if k >= |ms| {
        assert (ms + p)[k] == p[k - |ms|];
      } else {
        assert (ms + p)[k] == ms[k];
      }
    }
  }

  /** The classification loop of `execute`. */
  method Classify(outputs: seq<Output>) returns (assistantContent: string, calls: seq<FunctionCall>)
    ensures assistantContent == AssistantContent(outputs)
    ensures calls == Calls(outputs)
  {
    assistantContent := "";
    calls := [];
    var k := 0;
    while k < |outputs|
      invariant 0 <= k <= |outputs|
      invariant assistantContent == AssistantContent(outputs[..k])
      invariant calls == Calls(outputs[..k])
    {
      var prefix := outputs[..k + 1];
      assert prefix[..k] == outputs[..k] && prefix[k] == outputs[k];
      var output := outputs[k];
      if output.role == Some(AssistantRole) {
        assistantContent := output.content.GetOr("");
      } else if output.kind == Some(FunctionCallRole) {
        calls := calls + [ToCall(output)];
      }
      k := k + 1;
    }
    assert outputs[..k] == outputs;
  }

  class GenerateResponseService {
    /** The context service, when one is configured. */
    const contextService: ContextService?

    constructor(contextService: ContextService?)
      ensures this.contextService == contextService
    {
      this.contextService := contextService;
    }

    /** The storing part of `execute`: the answer if not empty, then each call, at consecutive sequences. */
    method StoreOutputs(contextId: nat, start: nat, outputs: seq<Output>)
      requires contextService != null && contextId in contextService.repo.messages
      modifies contextService.repo
      ensures contextService.repo.messages ==
                old(contextService.repo.messages)[contextId := old(contextService.repo.messages)[contextId] + Planned(outputs, start)]
      ensures contextService.repo.contexts == old(contextService.repo.contexts)
    {
      var assistantContent, calls := Classify(outputs);
      ghost var answer := if assistantContent != "" then [StoredMessage(AssistantRole, assistantContent, start, None)] else [];
      PlannedParts(outputs, start, assistantContent, answer, calls, start + |answer|);
      StoreTurn(contextId, start, assistantContent, calls);
    }

    /** Files the answer, if not empty, at `start`, then the calls from the next sequence. */
    method StoreTurn(contextId: nat, start: nat, content: string, calls: seq<FunctionCall>)
      requires contextService != null && contextId in contextService.repo.messages
      modifies contextService.repo
      ensures var answer := if content != "" then [StoredMessage(AssistantRole, content, start, None)] else [];
              contextService.repo.messages ==
                old(contextService.repo.messages)[contextId :=
                  old(contextService.repo.messages)[contextId] + (answer + CallsFrom(calls, start + |answer|))]
      ensures contextService.repo.contexts == old(contextService.repo.contexts)
    {
      var repo := contextService.repo;
      ghost var before := repo.messages[contextId];
      var nextSequence := StoreAnswer(contextId, start, content);
      ghost var answer := if content != "" then [StoredMessage(AssistantRole, content, start, None)] else [];
      ghost var stored := repo.messages;
      StoreCalls(contextId, nextSequence, calls);
      ghost var added := CallsFrom(calls, nextSequence);
      assert repo.messages == stored[contextId := (before + answer) + added];
      assert (before + answer) + added == before + (answer + added);
    }

    /** Files the assistant answer when it is not empty; returns the next free sequence. */
    method StoreAnswer(contextId: nat, start: nat, content: string) returns (next: nat)
      requires contextService != null && contextId in contextService.repo.messages
      modifies contextService.repo
      ensures var answer := if content != "" then [StoredMessage(AssistantRole, content, start, None)] else [];
              contextService.repo.messages ==
                old(contextService.repo.messages)[contextId := old(contextService.repo.messages)[contextId] + answer] &&
              next == start + |answer|
      ensures contextService.repo.contexts == old(contextService.repo.contexts)
    {
      next := start;
      if content != "" {
        var m := contextService.StoreAssistantMessage(contextId, content, start);
        next := start + 1;
      } else {
        assert old(contextService.repo.messages)[contextId] + [] == old(contextService.repo.messages)[contextId];
      }
    }

    /** The function-call loop of `execute`. */
    method StoreCalls(contextId: nat, first: nat, calls: seq<FunctionCall>)
      requires contextService != null && contextId in contextService.repo.messages
      modifies contextService.repo
      ensures contextService.repo.messages ==
                old(contextService.repo.messages)[contextId := old(contextService.repo.messages)[contextId] + CallsFrom(calls, first)]
      ensures contextService.repo.contexts == old(contextService.repo.contexts)
    {
      var repo := contextService.repo;
      ghost var stored := repo.messages[contextId];
      ghost var added: seq<StoredMessage> := [];
      assert stored + added == stored;
      var nextSequence := first;
      var i := 0;
      while i < |calls|
        invariant 0 <= i <= |calls| && nextSequence == first + i
        invariant |added| == i && forall k :: 0 <= k < i ==> added[k] == CallsFrom(calls, first)[k]
        invariant repo.messages == old(repo.messages)[contextId := stored + added]
        invariant repo.contexts == old(repo.contexts)
      {
        assert MessagesOf(repo.messages, contextId) == stored + added;
        var m := contextService.StoreFunctionCall(contextId, calls[i], nextSequence);
        assert (stored + added) + [m] == stored + (added + [m]);
        added := added + [m];
        nextSequence := nextSequence + 1;
        i := i + 1;
      }
      assert added == CallsFrom(calls, first);
    }

    /**
     * `execute`: the user message is filed first; an exception from the
     * orchestrator or from sending propagates after it; otherwise the
     * answer and the calls are filed after the user message.
     */
    method Execute(phone: string, message: string, userId: nat,
                   reply: Result<seq<Output>, string>, delivery: Option<string>)
      returns (r: Result<(), string>)
      requires contextService != null ==> contextService.repo.Valid()
      modifies if contextService != null then {contextService.repo} else {}
      ensures reply.Failure? ==> r == Failure(reply.error)
      ensures reply.Success? && delivery.Some? ==> r == Failure(delivery.value)
      ensures reply.Success? && delivery.None? ==> r == Success(())
      ensures contextService != null ==>
                var s := StoreUser(old(contextService.repo.contexts), old(contextService.repo.messages),
                                   phone, message, DefaultAgent, userId);
                var id := s.info.contextId;
                contextService.repo.contexts == s.contexts &&
                (r.Failure? ==> contextService.repo.messages == s.messages) &&
                (r.Success? ==> contextService.repo.messages ==
                                  s.messages[id := MessagesOf(s.messages, id) + Planned(reply.value, s.info.sequence + 1)]) &&
                contextService.repo.Valid()
    {
      var info: Option<ContextInfo> := None;
      if contextService != null {
        var stored := contextService.StoreUserMessage(phone, message, DefaultAgent, userId);
        info := Some(stored);
      }
      if reply.Failure? {
        return Failure(reply.error);
      }
      if delivery.Some? {
        return Failure(delivery.value);
      }
      if contextService != null && info.Some? {
        TurnConsistent(old(contextService.repo.contexts), old(contextService.repo.messages), phone, message, userId, reply.value);
        StoreOutputs(info.value.contextId, info.value.sequence + 1, reply.value);
      }
      r := Success(());
    }
  }
}
