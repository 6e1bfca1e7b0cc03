# dikas-orlando: the message-routing core in Dafny

dikas-orlando is a WhatsApp assistant for trips to Orlando. An incoming
message is classified by a language model, routed to one of several agents
(travel itinerary `#1`, web search `#4`, queue times `#5`, …), answered, and
filed in a conversation store with numbered messages. This project models
the deterministic parts of that pipeline and proves what they promise:

- **Queue-time agent** (`FilaAgent`, `QueueTimes`, `OrlandoParks`): the
  per-phone state store, the turn logic of `execute` (deny-list guard, bare
  number parsing, the 1..8 range check, the list / number / park-name
  branches and the state each branch saves), the flattening of the
  Queue-Times JSON into ride records and the report formatting (grouped by
  land in first-seen order, each group sorted by wait, largest first,
  stably), over the fixed catalogue of eight parks and its numbered list.
- **Agent registry** (`AgentRegistry`): registration of the agents the
  discovered modules' factories build, with unique ids, first-match lookup.
- **Dispatch** (`ResponseOrchestrator`): the system prompt is prepended,
  the classifier's code stripped, unknown codes fall back to `#1`.
- **Itinerary agent** (`RoteiroAgent`): finding its own state in the
  context or seeding a fresh history, appending the user turn, branching on
  whether the model called the `roteiro` tool; the 25-field tool schema.
- **Web agent** (`WebAgent`): choosing the last user message and
  concatenating the `output_text` parts of the search answer.
- **WhatsApp sender** (`SendParkService`): message and phone validation,
  phone normalisation (digits only, `55` prefix), the Z-API URL, the guard of
  `send_message` and the park-list message.
- **Stores** (`ConversationRepository`, `UserRepository`): the in-memory
  conversation repository, the file-name sanitiser and `.json` stripping of
  the file-system repository, and the upserting user store.
- **Message numbering** (`ContextRepository`, `ContextService`,
  `ContextManagementService`, `GenerateResponseService`): the user message
  gets sequence 0 in a new context and the message count otherwise; the
  assistant answer and the function calls follow at consecutive sequences,
  so every context's messages stay numbered 0, 1, 2, … by position.

The language-model calls, the Queue-Times fetch, the Z-API post and the
clock are parameters: function-typed oracles (`fetch`, `search`,
`complete`, `post`, `loads`) or plain values (`now`, `reply`, `delivery`).
`Wrappers` (Option/Result) and `Text` (Python's `lower`, `strip`, `in`,
`isdigit`, `isalnum`, `str(int)`, `int(str)`, `splitlines`) are shared
helpers.

## Model

| member | source | states |
|---|---|---|
| Messages.LastIndexWithRole | agents/fila_agent.py:226-230 | the position of the last context entry with the given role, with no later entry of that role; none exactly when no entry has the role |
| OrlandoParks.GetOrlandoParks | utils/orlando_parks.py:1-24 | the loop returns the fixed catalogue and the numbered list built from it, numbered from 1 |
| OrlandoParks.ParkNames | utils/orlando_parks.py:8-17 | the catalogue has eight parks, named Magic Kingdom … SeaWorld Orlando in that order |
| OrlandoParks.ParkIdsArePermutation | utils/orlando_parks.py:8-17 | the park ids are pairwise distinct and are exactly 1..8 |
| OrlandoParks.ParkNamesUnambiguous | utils/orlando_parks.py:9-16 | no lowercased park name occurs inside the lowercased name of another park, so name matching cannot confuse two parks |
| OrlandoParks.NumberedFrom | utils/orlando_parks.py:20-22 | the numbered list is empty exactly when there are no parks |
| OrlandoParks.NumberedFromSnoc | utils/orlando_parks.py:20-22 | one more loop iteration appends exactly the line `"{i}. {nome}\n"` for the next index |
| OrlandoParks.NumberedFromLines | utils/orlando_parks.py:20-22 | split into lines, the numbered list is line `k+i` = `"{k+i}. {nome_i}"`, one line per park |
| OrlandoParks.NumberedFromEndsInNewline | utils/orlando_parks.py:20-22 | a non-empty numbered list ends in a newline |
| OrlandoParks.ParksNumberedList | utils/orlando_parks.py:20-24 | the catalogue's list has exactly eight lines, line i naming `parks[i-1]`, and ends in a newline |
| QueueTimes.Processed | agents/fila_agent.py:103-110 | a ride is `"open"` exactly when `is_open` is true, `"closed"` otherwise; a missing wait time is 0; name and land carried over |
| QueueTimes.GetParkQueues | agents/fila_agent.py:73-131 | a failed fetch gives no lands and no rides; otherwise the lands of the body and the flattened rides |
| QueueTimes.AppendLandRides | agents/fila_agent.py:99-111 | the inner loop appends every ride of the land, in order, tagged with the land's name |
| QueueTimes.AppendLooseRides | agents/fila_agent.py:113-124 | the loop appends every top-level ride, in order, tagged `"Geral"` |
| QueueTimes.Flatten | agents/fila_agent.py:96-124 | the land rides come first, unchanged, followed by exactly one record per top-level ride |
| QueueTimes.FromLandsHasLandRide | agents/fila_agent.py:96-111 | every ride of every land appears in the flattening, tagged with its land |
| QueueTimes.FlattenKeepsEveryRide | agents/fila_agent.py:96-124 | all land rides are kept, and the top-level rides follow them in order, tagged `"Geral"` |
| QueueTimes.SortByWaitDesc | agents/fila_agent.py:163 | the sorted list has as many rides as the input (order and permutation below) |
| QueueTimes.SortByWaitDescCorrect | agents/fila_agent.py:163 | the sort yields non-increasing wait times and is a permutation of its input |
| QueueTimes.SortByWaitDescStable | agents/fila_agent.py:179 | rides with equal wait keep their relative order (Python's sort is stable) |
| QueueTimes.LandOrder | agents/fila_agent.py:153-158 | never more land keys than rides, and no keys exactly when there are no rides |
| QueueTimes.WithLand | agents/fila_agent.py:153-158 | a land's group is never longer than the ride list |
| QueueTimes.LandOrderCorrect | agents/fila_agent.py:153-161 | the land keys are pairwise distinct and are exactly the lands of the rides |
| QueueTimes.WithLandCorrect | agents/fila_agent.py:153-158 | a land's group holds exactly the rides of that land |
| QueueTimes.GroupByLand | agents/fila_agent.py:153-158 | the dictionary built by the loop has the lands as keys, in first-seen order, each mapped to that land's rides in order |
| QueueTimes.AddToGroup | agents/fila_agent.py:154-158 | one iteration keeps the dictionary equal to the grouping of the rides seen so far, a new land added last |
| QueueTimes.AppendLandSections | agents/fila_agent.py:160-176 | the loop over the dictionary appends each land's title, sorted ride lines and blank line, in key order |
| QueueTimes.AppendRideLines | agents/fila_agent.py:169-174 | the loop appends one ride line per ride, in order |
| QueueTimes.FormatQueueMessage | agents/fila_agent.py:133-191 | the report is header, then land sections (when the response had lands) or one list sorted by wait, then the update time and credit |
| QueueTimes.QueueMessage | agents/fila_agent.py:146-191 | the report starts with the park's header and ends with the update time followed by the Queue-Times credit |
| QueueTimes.RideLinesShowEach | agents/fila_agent.py:169-174 | every ride's line (`*{wait} min*` when open, `Fechada ❌` otherwise) occurs in the list |
| QueueTimes.LandSectionsShowEach | agents/fila_agent.py:161-176 | every land's section occurs in the grouped body |
| QueueTimes.ReportShowsEveryRide | agents/fila_agent.py:151-187 | every ride's line occurs in the report, inside its land's section when grouped |
| QueueTimes.ReportFrame | agents/fila_agent.py:146-191 | the report starts with the park header and ends with the Queue-Times credit |
| FilaAgent.SimpleMemoryState.SaveState | agents/fila_agent.py:16-20 | the phone's entry becomes the given state, every other entry unchanged; returns true |
| FilaAgent.SimpleMemoryState.GetState | agents/fila_agent.py:22-26 | the stored state of the phone, or none when it has none |
| FilaAgent.SimpleMemoryState.ClearState | agents/fila_agent.py:28-33 | only the phone's entry is removed; always returns true |
| FilaAgent.StoreIsPerPhone | agents/fila_agent.py:12-33 | after a save the phone reads back the saved state and other phones read what they did; after a clear the phone reads the initial state |
| FilaAgent.AfterTurn | agents/fila_agent.py:16-20 | only the phone's entry can change, to the state the turn saved; nothing changes when the turn saved nothing |
| FilaAgent.LastUserMessage | agents/fila_agent.py:225-230 | the result is lowercase, and `""` when no context entry has role `user` |
| FilaAgent.FindLastUserMessage | agents/fila_agent.py:225-230 | the backward scan returns the lowercased content of the last user entry, or `""` |
| FilaAgent.ParkNumber | agents/fila_agent.py:193-211 | a number is found only in a message made of digits and whitespace, never in an all-whitespace one |
| FilaAgent.ParkNumberCorrect | agents/fila_agent.py:193-211 | a number is found exactly when the message is whitespace, digits, whitespace, and its value is that of the digits |
| FilaAgent.ParkNumberOfPrinted | agents/fila_agent.py:204-208 | a printed number padded with whitespace parses back to itself |
| FilaAgent.FirstContained | agents/fila_agent.py:243-245 | the first deny-list term, in list order, contained in the message; none exactly when no term occurs |
| FilaAgent.FindDeniedTerm | agents/fila_agent.py:243-250 | the loop returns that first contained term |
| FilaAgent.FirstNamedPark | agents/fila_agent.py:355-356 | the first park whose lowercased name occurs in the message; none exactly when no name occurs |
| FilaAgent.FindNamedPark | agents/fila_agent.py:355-356 | the loop returns that first named park |
| FilaAgent.ExactNameSelectsPark | agents/fila_agent.py:355-356 | a message naming park i selects park i and no other |
| FilaAgent.NumberIsNoRequest | agents/fila_agent.py:243-328 | a bare number contains no deny-list term and no list keyword, so it reaches the number branches |
| FilaAgent.DeniedTermRefused | agents/fila_agent.py:242-250 | a message holding a deny-list term is refused naming the first such term, nothing sent, nothing saved, whatever the state |
| FilaAgent.ChoiceInRange | agents/fila_agent.py:252-302 | awaiting and N in 1..8: with rides, `ok`, park `parks[N-1]` reported and saved as last park, no longer awaiting; without rides, `error`, nothing sent or saved |
| FilaAgent.ChoiceOutOfRange | agents/fila_agent.py:303-310 | awaiting and N out of range: `error`, `invalid_park_number` N, a message naming `entre 1 e 8`, the list resent, the state not rewritten |
| FilaAgent.InvalidNumberNamesRange | agents/fila_agent.py:308 | the invalid-number message names the range `entre 1 e 8` |
| FilaAgent.ListRequested | agents/fila_agent.py:312-325 | a message with `parques`, `lista` or `filas` sends the list and saves the state awaiting, last action `list_parks` |
| FilaAgent.NumberWithoutList | agents/fila_agent.py:327-342 | a number while not awaiting sends the list and saves awaiting with `pending_number` N |
| FilaAgent.ParkNamed | agents/fila_agent.py:344-384 | otherwise the first park named in the message is reported |
| FilaAgent.NothingRecognised | agents/fila_agent.py:393-405 | when nothing matches, the list is sent and the state saved awaiting |
| FilaAgent.ReportRecordsPark | agents/fila_agent.py:288-291 | a saved report state records the reported catalogue park and is no longer awaiting |
| FilaAgent.SavedStateCoherent | agents/fila_agent.py:213-405 | every state a turn saves is either awaiting after `list_parks` or names a catalogue park as last park |
| FilaAgent.StoreStaysCoherent | agents/fila_agent.py:213-405 | a turn keeps every phone's stored state coherent |
| FilaAgent.ListedNumberSelectsPark | agents/fila_agent.py:263-268 | line N of the list sent names `parks[N-1]`, and answering N while awaiting reports that park |
| FilaAgent.ListThenNumber | agents/fila_agent.py:252-325 | after asking for the list, answering a number 1..8 reports the park on that line |
| FilaAgent.NumberChoiceReports | agents/fila_agent.py:252-302 | typing a listed number while awaiting a choice reports the park at that position |
| FilaAgent.ParksListLines | utils/orlando_parks.py:20-24 | the list the user is sent has one line per park, line N naming `parks[N-1]` |
| FilaAgent.ReportTurn | agents/fila_agent.py:272-302 | `ok` exactly when the fetch gave rides; an error sends and saves nothing; `ok` sends `QueueMessage` of the park, with the land flag, the fetched rides and the time, to the phone, and saves the park as last park, no longer awaiting, the other fields kept |
| FilaAgent.Decide | agents/fila_agent.py:213-405 | every turn answers `ok` or `error`; a state is saved exactly when the answer is `ok`, and never without a message sent |
| FilaAgent.AgenteFilas.Execute | agents/fila_agent.py:213-405 | the answer and sent message are the turn decided on the last user message and the phone's state (initial when none); the store changes only by the saved state |
| FilaAgent.AgenteFilas.Answer | agents/fila_agent.py:242-250 | the deny-list guard, then the awaiting-number or the request branch, agreeing with the whole decision |
| FilaAgent.AgenteFilas.AnswerChoice | agents/fila_agent.py:252-310 | the awaiting-number branch: the park at that position reported, or the range error with the list resent, agreeing with the whole decision |
| FilaAgent.AgenteFilas.AnswerRequest | agents/fila_agent.py:312-405 | the keyword, number and park-name part of the turn, agreeing with the whole decision |
| FilaAgent.AgenteFilas.ReportQueues | agents/fila_agent.py:272-302 | reporting a park: error without rides, otherwise the report sent and the park saved |
| AgentRegistry.Ids | container/agents.py:52-57 | `agents_id` lists the ids of the agents in the same order |
| AgentRegistry.ModuleOutcome | container/agents.py:31-61 | a module removes no agent and adds at most one per attribute |
| AgentRegistry.SkipAfterRaise | container/agents.py:39-61 | when an eligible class's factory raises, the attributes after it are skipped: the module registers exactly what the attributes before it register |
| AgentRegistry.SkipAfterDuplicate | container/agents.py:52-61 | when a built agent's id is already registered, it is not added and the attributes after it are skipped: the module registers exactly what the attributes before it register |
| AgentRegistry.ModuleOutcomeExtends | container/agents.py:31-61 | a module only appends to the registered agents and keeps ids distinct; an exception keeps what was registered |
| AgentRegistry.Registered | container/agents.py:29-61 | after registration the ids are pairwise distinct |
| AgentRegistry.RegisteredPrefix | container/agents.py:29-61 | later modules never remove or reorder earlier registrations |
| AgentRegistry.ModuleOutcomeFromFactories | container/agents.py:39-57 | every agent a module adds was built by the factory of an eligible class of it |
| AgentRegistry.RegisteredFromFactories | container/agents.py:30-57 | every registered agent comes from an eligible class of a module that loaded; falsy and raising factories add nothing |
| AgentRegistry.FirstIndexWithId | container/agents.py:63-67 | the first position with the id; none exactly when no agent has it |
| AgentRegistry.FirstWithId | container/agents.py:63-67 | the first agent with the id; none exactly when no agent has it |
| AgentRegistry.FirstWithIdOfMember | container/agents.py:63-67 | with distinct ids, looking up an agent's id finds that agent |
| AgentRegistry.FirstRegisteredWins | container/agents.py:52-67 | once an id is registered, later modules do not change what `get` returns for it |
| AgentRegistry.AgentContainer.constructor | container/agents.py:16-61 | the container holds the agents registered from the modules |
| AgentRegistry.AgentContainer.RegisterModule | container/agents.py:31-61 | the loop over a module's attributes leaves the registration outcome of that module |
| AgentRegistry.AgentContainer.Get | container/agents.py:63-67 | returns the first registered agent with the id, as `next(...)` finds it, or none exactly when no agent has it |
| ResponseOrchestrator.Route | services/response_orchestrator.py:9-35 | succeeds exactly when the reply is non-empty, its content not null and `#1` registered, raising IndexError, AttributeError or KeyError otherwise; the agent is a registered one and its context is the system prompt followed by the original context |
| ResponseOrchestrator.PaddedCodeSelects | services/response_orchestrator.py:33-34 | a registered code with surrounding whitespace selects that agent |
| ResponseOrchestrator.UnknownCodeFallsBack | services/response_orchestrator.py:34 | a code that is not registered selects agent `#1` |
| ResponseOrchestrator.AbsentCodeSelectsDefault | services/response_orchestrator.py:33-34 | a reply without `content` selects agent `#1` |
| RoteiroAgent.RequiredFieldsDeclared | agents/roteiro_agent.py:73-107 | 25 required fields, each declared under `properties` in the same order |
| RoteiroAgent.RequiredFieldsDistinct | agents/roteiro_agent.py:73-80 | the required field names are pairwise distinct |
| RoteiroAgent.ConversationState.constructor | agents/roteiro_agent.py:124-126 | a state holding the given history |
| RoteiroAgent.OwnItem | agents/roteiro_agent.py:123 | the first context item whose agent id is `#1`; none exactly when there is none |
| RoteiroAgent.NextHistory | agents/roteiro_agent.py:128-170 | the earlier history is kept and the user turn appended; one message more on a tool call, two (the second the model's text) otherwise |
| RoteiroAgent.Respond | agents/roteiro_agent.py:147-170 | a tool call is answered exactly when the model called a tool whose arguments decode, with the first call's name and those arguments; a decode error exactly when they do not; otherwise `ask_user` with the text |
| RoteiroAgent.FreshHistory | agents/roteiro_agent.py:123-130 | a fresh conversation starts with the agent's own system prompt, then the user's turn |
| RoteiroAgent.Execute | agents/roteiro_agent.py:118-172 | an own item without state raises KeyError, an empty orchestrator output IndexError; otherwise the own state's history (or a fresh one seeded with the instructions) grows as above and the answer carries agent `#1` and that state, other states untouched |
| WebAgent.EveryOutputTextKept | agents/web_agent.py:39-45 | the text of every `output_text` part of every `message` item occurs in the extraction |
| WebAgent.OnlyMessagesCount | agents/web_agent.py:41-42 | items that are not messages contribute nothing |
| WebAgent.ExtractedText | agents/web_agent.py:38-45 | nothing is extracted from an answer without output or without `message` items |
| WebAgent.ExtractText | agents/web_agent.py:38-45 | the nested loops return the in-order concatenation of the `output_text` parts of the message items |
| WebAgent.AppendPartsText | agents/web_agent.py:43-45 | the inner loop appends the text of the `output_text` parts in order |
| WebAgent.Run | agents/web_agent.py:29-49 | the text is the extraction, or the fallback sentence when it is empty, never empty; the raw answer is returned |
| WebAgent.Execute | agents/web_agent.py:51-60 | no user message: the fixed reply, no search; otherwise the last user message's content is the query, the reply is its extraction, or the fallback sentence when that is empty; a missing role or content raises KeyError |
| SendParkService.ValidateMessage | services/send_park_service.py:23-32 | accepted exactly when the message is not all whitespace |
| SendParkService.ValidateCellNumber | services/send_park_service.py:34-56 | accepted exactly when non-empty with 11 to 13 digit characters |
| SendParkService.ResolvePhone | services/send_park_service.py:58-66 | only digits; `"55"` + digits exactly when the digits do not start with 55 and are at most 11, else the digits |
| SendParkService.ResolvePhoneIdempotent | services/send_park_service.py:58-66 | resolving a resolved phone changes nothing |
| SendParkService.ResolvedPhoneLength | services/send_park_service.py:47-66 | a phone that passes validation resolves to 11 to 13 digits |
| SendParkService.ResolveUrl | services/send_park_service.py:68-69 | the URL starts with the base URL (`None` when unset) followed by `/instances/`, the instance id and `/token/`, and ends with the instance token |
| SendParkService.SendMessage | services/send_park_service.py:71-94 | invalid message or phone: `(None, "Dados inválidos")` and no request; otherwise the request posts the message to a resolved 11–13 digit phone at `/send-text` with the client token, and status 200 exactly when the post succeeds; the posted phone is the resolved phone and the URL is the instance URL plus `/send-text`; status 200 comes with the text `Mensagem enviada com sucesso!`, a failed post with the error's text |
| SendParkService.ParksMessage | services/send_park_service.py:128-133 | the list message is header, list, footer and not blank |
| SendParkService.SendParksList | services/send_park_service.py:112-136 | an empty catalogue answers the no-parks error; otherwise the request is made exactly when the phone is valid and carries the list message |
| SendParkService.CatalogueListPosted | services/send_park_service.py:112-136 | for a valid phone the catalogue's eight-line numbered list is posted |
| UserRepository.Saved | repositories/user_repository.py:19-24 | an existing phone gets only its name changed, a new phone is inserted as `{name, phone}`, other records unchanged |
| UserRepository.SavedKeyed | repositories/user_repository.py:19-27 | saving keeps every record filed under its own phone and returns `{name, phone}` |
| UserRepository.SeedKeyed | repositories/user_repository.py:8-13 | the store starts with exactly the phones 12345, 67890 and cli_test, each under its own phone |
| UserRepository.SaveIdempotent | repositories/user_repository.py:19-27 | saving twice equals saving once |
| UserRepository.UserRepository.constructor | repositories/user_repository.py:8-14 | the store starts with the seed records |
| UserRepository.UserRepository.GetUserByPhone | repositories/user_repository.py:16-17 | the stored record, or none exactly when the phone is unknown |
| UserRepository.UserRepository.SaveUser | repositories/user_repository.py:19-27 | the store becomes the upsert and the stored record is returned |
| ConversationRepository.ClearOrder | repositories/conversation_repository.py:59-60 | the key order loses exactly the cleared session |
| ConversationRepository.SaveOrder | repositories/conversation_repository.py:30 | the key order gains the session at the end when new, keeps every existing key in place and stays free of repeats |
| ConversationRepository.Lookup | repositories/conversation_repository.py:45-47 | a history is returned exactly when stored and non-empty |
| ConversationRepository.GetAfterSave | repositories/conversation_repository.py:17-47 | a saved non-empty history reads back, a saved empty one reads as none, other sessions unaffected |
| ConversationRepository.ClearOrderDistinct | repositories/conversation_repository.py:59-71 | clearing keeps the listed sessions distinct |
| ConversationRepository.ListedAfterSave | repositories/conversation_repository.py:30-71 | saving keeps the listing equal to the stored sessions, each once |
| ConversationRepository.ListedAfterClear | repositories/conversation_repository.py:59-71 | clearing keeps the listing equal to the stored sessions, each once |
| ConversationRepository.InMemoryConversationRepository.constructor | repositories/conversation_repository.py:14-15 | an empty store |
| ConversationRepository.InMemoryConversationRepository.SaveHistory | repositories/conversation_repository.py:17-33 | only the session's history is replaced; returns true; the listing stays exact |
| ConversationRepository.InMemoryConversationRepository.GetHistory | repositories/conversation_repository.py:35-47 | the stored history when non-empty, none otherwise |
| ConversationRepository.InMemoryConversationRepository.ClearHistory | repositories/conversation_repository.py:49-62 | true exactly when the session was stored; only it is removed |
| ConversationRepository.InMemoryConversationRepository.ListSessions | repositories/conversation_repository.py:64-71 | exactly the stored sessions, each once |
| ConversationRepository.SafeId | repositories/conversation_repository.py:89-90 | same length; letters and digits kept, every other character `_` |
| ConversationRepository.SafeIdIdempotent | repositories/conversation_repository.py:90 | the result holds only letters, digits and `_`, and sanitising again changes nothing |
| ConversationRepository.SafeIdCollides | repositories/conversation_repository.py:90 | `a.b` and `a_b` map to the same file |
| ConversationRepository.GetFilePath | repositories/conversation_repository.py:85-91 | the path starts with the storage directory and ends with the sanitised id plus `.json` |
| ConversationRepository.ListSessions | repositories/conversation_repository.py:152-166 | an unreadable directory lists nothing; otherwise each `.json` file name without its suffix, in order |
| ConversationRepository.SessionsOf | repositories/conversation_repository.py:159-162 | every listed session is the name of a `.json` file of the listing without its suffix |
| ConversationRepository.SessionsOfCount | repositories/conversation_repository.py:159-162 | one session per `.json` file, other files ignored |
| ConversationRepository.SessionRoundTrip | repositories/conversation_repository.py:159-162 | the file a session is saved to lists back as its sanitised id (its own id when already clean) |
| ContextRepository.LatestIndex | repositories/conversation_context_repository.py:33-38 | the last-created context of the session, no later one of it; none exactly when the session has none |
| ContextRepository.InMemoryContextRepository.GetMessagesByContext | repositories/conversation_context_repository.py:67-72 | in a consistent store the messages come in sequence order, message k having sequence k |
| ContextRepository.InMemoryContextRepository.constructor | repositories/conversation_context_repository.py:10-11 | an empty, consistent store |
| ContextRepository.InMemoryContextRepository.CreateContext | repositories/conversation_context_repository.py:13-24 | appends a context with the next id |
| ContextRepository.InMemoryContextRepository.AddMessage | repositories/conversation_context_repository.py:47-65 | appends the message to its context only |
| ContextRepository.InMemoryContextRepository.AddDocument | repositories/conversation_context_repository.py:74-92 | appends the document to its context only |
| ContextService.History | services/context_service.py:101-123 | no context: `[]`; otherwise one entry per message of the latest context, in stored order |
| ContextService.StoreUser | services/context_service.py:18-58 | the session is `session_{phone}`, user and agent as given; a context is at most added at the end; the user message is appended to its context at the returned sequence and no other context changes |
| ContextService.StoreUserConsistent | services/context_service.py:18-58 | the user message goes to the session's latest context (created if none) at sequence = its message count, and the store stays numbered |
| ContextService.HistoryAfterStore | services/context_service.py:18-58 | after storing, the history is the old history plus the user message |
| ContextService.DefaultCallIdsDistinct | services/context_service.py:82 | default ids `func_{sequence}` at different sequences differ |
| ContextService.CallId | services/context_service.py:82 | the call's own id when it has one; otherwise `func_` followed by digits that read back as the sequence |
| ContextService.ContextService.constructor | services/context_service.py:10-16 | the service over the given repository |
| ContextService.ContextService.StoreUserMessage | services/context_service.py:18-58 | stores the user message as above, returns its context, user, session `session_{phone}`, sequence and agent, and keeps the store consistent |
| ContextService.ContextService.StoreAssistantMessage | services/context_service.py:60-71 | appends an assistant message at the given sequence |
| ContextService.ContextService.StoreFunctionCall | services/context_service.py:73-85 | appends a `function_call` message holding the call's JSON, filed under its id or `func_{sequence}` |
| ContextService.ContextService.StoreDocument | services/context_service.py:87-99 | appends the document to the context |
| ContextService.ContextService.GetConversationHistory | services/context_service.py:101-123 | the history of the phone's session |
| ContextService.ContextService.GetDocumentsByContextId | services/context_service.py:125-138 | the context's documents in stored order |
| ContextManagementService.ToDocument | services/context_management_service.py:106-114 | a missing file name is `documento.pdf`, a missing type `application/pdf`, the rest kept |
| ContextManagementService.ToDocuments | services/context_management_service.py:106-114 | each input document converted, in order |
| ContextManagementService.CallMessages | services/context_management_service.py:95-103 | call i is stored at `sequence + i + 1`, in list order |
| ContextManagementService.ResponseMessages | services/context_management_service.py:86-103 | the assistant message at `sequence`, then the calls after it |
| ContextManagementService.ResponseSequencesConsecutive | services/context_management_service.py:86-103 | the appended messages carry consecutive sequences from `sequence` |
| ContextManagementService.ResponseKeepsNumbered | services/context_management_service.py:86-103 | answering at the next free sequence keeps the context numbered by position |
| ContextManagementService.ResponseDefaultIdsDistinct | services/context_management_service.py:102 | within one response, default ids `func_{i}` differ |
| ContextManagementService.DefaultIdsRepeatAcrossResponses | services/context_management_service.py:102 | two responses of one context each with an id-less call file both under `func_0` |
| ContextManagementService.ContextManagementService.constructor | services/context_management_service.py:9-15 | the service over the given repository |
| ContextManagementService.ContextManagementService.CreateOrUpdateContext | services/context_management_service.py:17-71 | files the user message exactly as the context service does and echoes what was stored |
| ContextManagementService.ContextManagementService.SaveAssistantResponse | services/context_management_service.py:73-116 | appends the response messages; documents are appended with defaults only when there are some |
| ContextManagementService.ContextManagementService.SaveCalls | services/context_management_service.py:95-103 | the `enumerate` loop appends the call messages |
| ContextManagementService.ContextManagementService.SaveDocuments | services/context_management_service.py:106-114 | the document loop appends the converted documents |
| ContextManagementService.ContextManagementService.GetConversationHistory | services/context_management_service.py:118-126 | the context's messages, in order |
| GenerateResponseService.LastAssistant | services/generate_response_service.py:79-83 | the last assistant output, with no later one; none exactly when there is none |
| GenerateResponseService.AssistantContent | services/generate_response_service.py:79-83 | empty when there is no assistant output; a non-empty answer is the content of the last assistant output |
| GenerateResponseService.Calls | services/generate_response_service.py:79-87 | at most one call per output (which ones in `CallsCorrect`) |
| GenerateResponseService.CallsConcat | services/generate_response_service.py:79-87 | the calls keep the order of the outputs: the calls of `a + b` are those of `a` followed by those of `b` |
| GenerateResponseService.CallsCorrect | services/generate_response_service.py:79-87 | exactly the function-call outputs that are not assistant outputs are kept |
| GenerateResponseService.CallsFrom | services/generate_response_service.py:98-105 | call i is stored at `first + i` with its id or `func_{sequence}` |
| GenerateResponseService.Planned | services/generate_response_service.py:89-105 | one message per call plus one for a non-empty answer, which comes first at the first sequence |
| GenerateResponseService.PlannedConsecutive | services/generate_response_service.py:77-105 | the stored sequences run from the user sequence + 1 without gaps |
| GenerateResponseService.TurnDefaultIdsDistinct | services/generate_response_service.py:98-105 | within a turn, default call ids differ |
| GenerateResponseService.TurnConsistent | services/generate_response_service.py:28-105 | the user message followed by the answer and calls keeps the store numbered by position |
| GenerateResponseService.Classify | services/generate_response_service.py:75-87 | the loop finds the last assistant content and the function calls in order |
| GenerateResponseService.GenerateResponseService.constructor | services/generate_response_service.py:13-23 | the service with its optional context service |
| GenerateResponseService.GenerateResponseService.StoreOutputs | services/generate_response_service.py:89-105 | appends the answer when not empty, then the calls, at consecutive sequences |
| GenerateResponseService.GenerateResponseService.StoreTurn | services/generate_response_service.py:89-105 | given the answer text and the calls, appends the answer when not empty at `start`, then the calls from the next sequence, to that context only |
| GenerateResponseService.GenerateResponseService.StoreAnswer | services/generate_response_service.py:90-96 | appends the answer only when it is not empty and returns the next free sequence |
| GenerateResponseService.GenerateResponseService.StoreCalls | services/generate_response_service.py:98-105 | the call loop appends each call at the next sequence |
| GenerateResponseService.GenerateResponseService.Execute | services/generate_response_service.py:28-116 | the user message is stored first when a context service is configured; an orchestrator or sending error is re-raised with only the user message stored; otherwise answer and calls follow it and the store stays consistent |

## Left out

- Language-model calls (classifier, itinerary completion, web search), the Queue-Times HTTP request and the Z-API post are parameters: `fetch`, `complete`, `search`, `post`, `reply` and `delivery` give their outcomes.
- The wall-clock time printed in the queue report is the parameter `now`.
- Module discovery by `pkgutil`/`importlib` is replaced by an explicit list of modules, each with its attributes and the outcome of calling their factories.
- `AgentContainer.all()` is the `agents` field itself; it has no member of its own.
- The agents' `execute` call shapes disagree (the orchestrator calls `execute(context=, phone=)`, the agent interface declares another shape); each component is modelled with its own shape, and `ResponseOrchestrator.Route` stops at the chosen agent and its context.
- The context services call `create_user`, which the user repository does not declare, and then read `user.id` from a dictionary; the user lookup is left out and the user id is an argument.
- `_prepare_context`, `_resolve_output_content` and `_save_messages_to_database` of the response service are not part of this model; their combined outcome is the `delivery` parameter, and the `agent_id` read from the outputs is unused.
- `repositories/message_repository.py`, the per-phone message store that `_save_messages_to_database` writes to, is not part of this model.
- `DatabaseConversationRepository` (repositories/conversation_repository.py:169-278), which deletes and re-inserts a whole session's rows, is not part of this model; only the in-memory and file-system conversation repositories are.
- Only the SQL repository `conversation_context_repository.py` and the database models it uses are modelled, by the in-memory `ContextRepository`; `created_at`, document ids and timestamps are dropped, and `ORDER BY sequence` is insertion order, which agrees with it in a consistent store.
- File reading and writing in the file-system conversation repository; only the path and the directory-listing parsing are modelled.
- Logging, `print`, `main.py` (the interactive loop), `start_server.py`, the PDF service and utilities.
- `RoteiroAgent.Execute`: the `instructions` text is an argument rather than the constant `Instructions`, which callers pass.
- `RoteiroAgent.Execute`: the source returns the output serialised with `json.dumps(output, ensure_ascii=False)` (agents/roteiro_agent.py:172); the model returns the structure itself, and JSON encoding is not modelled.
- `lower`, `isalnum` and `\d` are modelled on ASCII; Unicode case mapping and non-ASCII digits and letters are not.
- A JSON `null` where a string is expected (a message `content`, a raw `wait_time`) is treated as a missing key, except the classifier's `content`, where `null` raises as in the source.
- `QueueTimes.FromLands`: a land whose `rides` is `null` makes the source's loop (agents/fila_agent.py:100-101) raise, which the handler at agents/fila_agent.py:129-131 turns into no lands and no rides for the whole park; the model reads it as an empty list and keeps the other lands' rides. A `null` `lands` is returned as `None` by the source and as `[]` here; both are falsy for the formatter.
- `WebAgent.ItemsText`: an output item whose `content` is `null`, or a part whose `text` is `null`, makes the source's loop (agents/web_agent.py:43-45) raise an uncaught `TypeError`; the model reads them as `[]` and `""`.
- `WebAgent.Execute`: a context entry whose `role` is `null` is simply not a user entry in the source, while the model, which does not tell a `null` role from a missing one, raises `KeyError` for it as for a missing key.
- The "no parks" branches of the queue agent (agents/fila_agent.py:256-261, 347-352) cannot be taken because the catalogue is a constant with eight parks; they are not modelled.
- The `try`/`except` around the park-name report (agents/fila_agent.py:385-391) can only catch a failure of the formatting itself, since the fetch and the send catch their own errors; such a failure needs malformed Queue-Times data (a `null` `wait_time` beside numbers makes the sort at agents/fila_agent.py:163/179 raise), and the model, which reads a `null` wait as 0, does not model it.
- Concurrency: `async` only wraps awaited I/O.
