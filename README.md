# Triage assistant core, modelled in Dafny

This project models the core of a Portuguese-language health triage assistant. The assistant:

- talks with a patient over a web chat or WhatsApp;
- spots emergency phrases and answers them with a fixed advisory ("ligue para o 192");
- drives a two-phase dialogue with a language model, first free conversation and then a forced-JSON extraction once the agent writes "sua triagem foi registrada";
- validates the extracted record, with intensity 0..10;
- stores the conversation and the final triage.

The model is split into one module per source file:

- `Wrappers` (wrappers.dfy): `Option`, `Result`, the three states of a pydantic field input (`Omitted`, `Null`, `Given`), `ValidationError`
- `Strings` (strings.dfy): substring search, Python's `lower()`, `replace(p, "")`, `strip()`, `sep.join` and their lemmas
- `Emergencies` (emergencies.dfy): the 13 emergency phrases and the advisory, verbatim
- `Guard` (triage_guard.dfy): `TriageGuard`: lowered phrase list, `is_emergency`, `get_alert_message`
- `TriageSchema` (triage.dfy): the `Triage` record, its defaults, the 0..10 intensity, `dict(exclude_unset=True)`
- `Llm` (llm.dfy): `build_emergency_prompt`, `build_full_prompt`, the prompt `LLMService.get_reply` sends
- `ChatSchemas` (chat_schemas.dfy): `ChatRequest`, `ChatResponse`
- `Persistence` (persistence.dfy): `PersistenceService` as an in-memory class over `messages`/`triages` sequences
- `Graph` (graph.dfy): the agent graph: `TriageState`, the four nodes, `decide_next`, the wiring, one run
- `Chat` (chat_service.dfy): `ChatService.process_message`
- `WhatsAppSchemas` (whatsapp_schemas.dfy): the webhook payload records, `WhatsAppMessage` parsing, `WhatsAppSendMessage`
- `Webhook` (webhook.dfy): the `verify_webhook` handshake and `receive_webhook`

The pure parts (guard, schemas, prompt builders, router, fence cleaning) are functions with lemmas. State changes are classes:

- The store is a class with `messages`, `triages` and a counter `clock`. The counter stands for `datetime.utcnow()` and also supplies the inserted ids.
- `persist_node` and a whole graph run are methods of `TriageAgent`. Their `ensures` tie the new store to the old one.
- `ChatService`, and the webhook's handler class, keep an effect log. Each call made on a collaborator is appended in order: a save, a model request, a message sent. Each method is proved equal to a specification function (`Chat.Process`, `Webhook.Receive`), whose own contract states what the source promises.

Collaborators that cannot be seen or run become parameters:
- the language model is `get_reply` (`None` when it raises);
- `model_validate_json` is a partial parse returning the fields the JSON set;
- the WhatsApp send is `deliver` (`false` when it raises);
- the SHA-256 hex digest is `hash`;
- the salt, the configured verify token, the persona file text, the JSON schema text and the clock reading are plain values.

Where the design description and the code disagree, the model follows the code:
- `process_message` returns the request's own conversation id on every path. Nothing in the code clears the id after an emergency or a completed triage.
- A failing model call propagates as an error. There is no apology fallback.
- No history selector scans for marker phrases, and no leading "agent:" label is stripped.
- The chat service sends the model only the new message, with no history.

## Model

| member | source | states |
|---|---|---|
| `Guard.AnyOccurs` | app/services/triage_guard.py:30 | `any(k in text for k in keywords)` holds iff some listed phrase occurs in the text |
| `Guard.NewTriageGuard` | app/services/triage_guard.py:15-17 | the stored phrases are exactly the constants in their order (lowering changes nothing) and the alert message is `EMERGENCY_MESSAGE` |
| `Guard.KeywordsHaveNoCapitals` | app/constants/emergencies.py:10-24 | no emergency phrase contains a capital letter |
| `Guard.KeywordsAreLowercase` | app/services/triage_guard.py:16 | lowering the phrase list gives the list back |
| `Strings.Contains` | app/services/triage_guard.py:30 | Python's `p in s`; the substring facts the model needs are `Strings.ContainsMiddle`, `Strings.ContainsTransitive` and `Strings.ContainsCons` |
| `Strings.Lower` | app/services/triage_guard.py:29 | `str.lower()` for ASCII and Latin-1 capitals; `Strings.LowerKeepsContains` states that lowering keeps substrings: if `p` occurs in `s`, `lower(p)` occurs in `lower(s)` |
| `Strings.RemoveAll` | app/agents/graph.py:88-89 | `str.replace(pat, "")`; `Strings.RemoveAllAbsent` states it leaves a text without the pattern unchanged, and `Graph.NoFenceAfterRemoval` that no fence survives it |
| `Strings.Strip` | app/agents/graph.py:90 | `str.strip()`; `Strings.StripIsSubstring` states it keeps a substring with no whitespace at either end |
| `Strings.Join` | app/services/llm.py:30 | `sep.join(xs)`; `Strings.JoinPlacesElement` and `Strings.JoinPlacesSeparator` state where each element and separator sit |
| `Guard.TriageGuard.IsEmergency` | app/services/triage_guard.py:19-30 | `is_emergency`: its meaning, a listed phrase occurring in the lowercase message, is stated by `Guard.IsEmergencyIffPhrase` and `Guard.IsEmergencyMonotone` |
| `Guard.IsEmergencyIffPhrase` | app/services/triage_guard.py:19-30 | the default guard flags a message iff some emergency phrase is a substring of its lowercase form |
| `Guard.IsEmergencyMonotone` | app/services/triage_guard.py:29-30 | a message containing a flagged message is flagged |
| `Guard.EmptyIsNotEmergency` | app/services/triage_guard.py:29-30 | the empty message is not an emergency, every phrase being non-empty |
| `Guard.DetectsVerbatimPhrase` | app/services/triage_guard.py:29-30 | any text holding an emergency phrase verbatim is flagged |
| `Guard.DetectsChestPain` | tests/unit/test_triage_guard.py:20-42 | "Estou com dor no peito desde ontem" is flagged |
| `Guard.NoPhraseWithoutKeyLetters` | app/constants/emergencies.py:10-24 | a text lacking 'i', 'f' and 'ã' contains no emergency phrase |
| `Guard.LowerMildHeadache` | app/services/triage_guard.py:29 | the lowercase form of the mild-headache message |
| `Guard.IgnoresMildHeadache` | tests/unit/test_triage_guard.py:20-42 | "Estou apenas com dor de cabeça leve" is not flagged |
| `Guard.DetectsFaintingAndBreathlessness` | tests/unit/test_triage_guard.py:20-42 | "Tive um desmaio e agora sinto falta de ar" is flagged |
| `TriageSchema.Validate` | app/schemas/triage.py:13-36 | construction succeeds iff no text field is `None` and the intensity is not `None` and lies in 0..10; every constructed record is valid |
| `TriageSchema.ValidateAllFields` | app/schemas/triage.py:13-36 | rebuilding a record from all its fields returns it iff it is valid, else fails on `intensidade` alone |
| `TriageSchema.ValidIffInScale` | app/schemas/triage.py:10 | a record is valid iff 0 <= intensidade <= 10 |
| `TriageSchema.DefaultsWhenNothingIsSet` | app/schemas/triage.py:16-36 | `Triage()` has empty texts, intensity 0 and no conversation id |
| `TriageSchema.IntensitySevenAcceptedFifteenRejected` | tests/unit/test_schemas.py:49-74 | intensity 7 is accepted and kept, 15 is rejected |
| `TriageSchema.IntensityBounds` | app/schemas/triage.py:10 | 0 and 10 are accepted, -1 and 11 rejected |
| `TriageSchema.DocumentedExampleIsValid` | app/schemas/triage.py:38-49 | the documented example (intensity 8) is valid and survives a rebuild |
| `TriageSchema.ExcludeUnset` | app/agents/graph.py:94 | `dict(exclude_unset=True)` has only field names as keys; when it is empty is stated by `TriageSchema.ExcludeUnsetEmptyIff` |
| `TriageSchema.ExcludeUnsetEmptyIff` | app/agents/graph.py:94 | `dict(exclude_unset=True)` is empty iff no field was set |
| `Llm.QuotedAdvisoryIsEmergencyMessage` | app/services/llm.py:35-36 | the quoted advisory in the rules is `EMERGENCY_MESSAGE` between double quotes |
| `Llm.RulesFor` | app/services/llm.py:28-37 | the rules text over a phrase list; where each phrase, separator and the advisory sit is stated by `Llm.RulesPlaceKeyword`, `Llm.RulesSeparateKeywords` and `Llm.RulesHoldAdvisory` |
| `Llm.RulesPlaceKeyword` | app/services/llm.py:30-34 | phrase i of the list starts at its join offset after the fixed introduction |
| `Llm.RulesSeparateKeywords` | app/services/llm.py:30-34 | phrase i is followed by ", " and phrase i+1 starts right after it: the phrases appear in list order |
| `Llm.EmergencyPrompt` | app/services/llm.py:28-37 | `build_emergency_prompt()` over `EMERGENCY_KEYWORDS`; that it names every phrase is stated by `Llm.EmergencyPromptNamesKeywords` |
| `Llm.EmergencyPromptNamesKeywords` | app/services/llm.py:28-37 | the emergency prompt contains every emergency phrase |
| `Llm.RulesHoldAdvisory` | app/services/llm.py:31-36 | the rules contain `EMERGENCY_MESSAGE` verbatim and "ligue para o 192" |
| `Llm.EmergencyMessageNamesNumber` | app/constants/emergencies.py:26-29 | the advisory contains "ligue para o 192" |
| `Llm.PromptLayout` | app/services/llm.py:60-69 | the f-string of `build_full_prompt`; its sections and its ending are stated by `Llm.LayoutHoldsSections` and `Llm.LayoutEndsWithMessage` |
| `Llm.LayoutHoldsSections` | app/services/llm.py:60-69 | the full prompt layout contains persona, rules, schema, context and message |
| `Llm.LayoutEndsWithMessage` | app/services/llm.py:67-68 | the layout ends with "Mensagem do usuário:\n" followed by the message |
| `Llm.FullPrompt` | app/services/llm.py:54-69 | `build_full_prompt(user_message, conversation_context)`; its content is stated by `Llm.FullPromptHoldsSections` |
| `Llm.LlmService.PromptFor` | app/services/llm.py:95 | the prompt `get_reply` builds from its message and context; `Graph.ExtractionPromptHoldsConversation` states what it holds for the extraction request |
| `Llm.FullPromptHoldsSections` | app/services/llm.py:54-69 | `build_full_prompt` contains persona, emergency rules, advisory, schema, context and message, and ends with the message |
| `Llm.LlmService.GetReply` | app/services/llm.py:81-97 | `get_reply`: the model's answer to `PromptFor`; that the session id plays no part is stated by `Llm.GetReplyIgnoresSession` |
| `Llm.GetReplyIgnoresSession` | app/services/llm.py:95 | the session id cannot change the reply |
| `ChatSchemas.NewChatRequest` | app/schemas/chat.py:6-29 | accepted iff the channel is left out or one of the two literals and the message is given; ids default to `None`; errors name the offending fields |
| `ChatSchemas.NewChatResponse` | app/schemas/chat.py:32-51 | id and response default to `None`; a left-out timestamp is the current time; a `None` timestamp is rejected |
| `ChatSchemas.ParseChannel` | app/schemas/chat.py:22 | the `Literal["whatsapp", "web"]` check: an accepted literal is the name of the channel it gives; the converse is `ChatSchemas.ChannelNameRoundTrip` |
| `ChatSchemas.ChannelNameRoundTrip` | app/schemas/chat.py:22 | the channel literals and the channel values are in one-to-one correspondence |
| `ChatSchemas.RequestFieldsRoundTrip` | app/schemas/chat.py:6-29 | every request is rebuilt unchanged from its own fields |
| `ChatSchemas.RequestDefaults` | app/schemas/chat.py:14-29 | only the message is required; an explicit `None` channel is rejected |
| `ChatSchemas.RequestKeepsValues` | tests/unit/test_schemas.py:19-30 | the "conv123" request keeps all its values |
| `ChatSchemas.RequestWithoutIdIsAccepted` | tests/unit/test_schemas.py:33-38 | a request without conversation id is accepted |
| `ChatSchemas.ResponseDefaults` | app/schemas/chat.py:40-51 | a response without timestamp carries the current time |
| `Persistence.Matching` | app/services/persistence.py:63 | the filter keeps exactly the documents of the conversation |
| `Persistence.Take` | app/services/persistence.py:65-67 | `.limit(n)` returns a prefix of at most n documents, all of them when fewer |
| `Persistence.FirstTriage` | app/services/persistence.py:99 | `find_one` returns a document of the conversation, and none iff there is none |
| `Persistence.PersistenceService.constructor` | app/services/persistence.py:19-27 | a new store has empty collections |
| `Persistence.PersistenceService.SaveMessage` | app/services/persistence.py:29-49 | appends one document copying the request's and response's fields, stamped now; triages untouched; returns its id |
| `Persistence.PersistenceService.GetConversation` | app/services/persistence.py:51-67 | only documents of the conversation, ascending in time, at most `limit` (default 100) |
| `Persistence.PersistenceService.SaveTriage` | app/services/persistence.py:69-87 | appends one document holding the data unchanged; messages untouched |
| `Persistence.PersistenceService.GetTriage` | app/services/persistence.py:89-99 | a matching triage, or none iff the conversation has none |
| `Persistence.MatchingKeepsAscending` | app/services/persistence.py:63-64 | filtering keeps documents in ascending time order |
| `Persistence.ViewIsAscending` | app/services/persistence.py:62-67 | the conversation view is ascending |
| `Persistence.AscendingIsUnique` | app/services/persistence.py:64 | two ascending arrangements of the same documents are equal, so the sort result is determined when timestamps are distinct |
| `Persistence.SameHead` | app/services/persistence.py:64 | two ascending sequences holding each other's first documents start alike |
| `Persistence.AscendingTail` | app/services/persistence.py:64 | dropping the first document keeps a sequence ascending |
| `Persistence.ConversationView` | app/services/persistence.py:62-67 | `find(...).sort(...).limit(n)`: at most `limit` documents, each stored and of the conversation; order and completeness are stated by `Persistence.ViewIsAscending`, `Persistence.ViewIsSortedFilter` and `Persistence.ViewIsCompleteUnderLimit` |
| `Persistence.ViewIsSortedFilter` | app/services/persistence.py:62-67 | the view equals the matching documents sorted by time and cut at the limit |
| `Persistence.ViewIsCompleteUnderLimit` | app/services/persistence.py:62-67 | every matching document is returned when there are at most `limit` |
| `Persistence.SaveThenGetConversation` | tests/unit/test_persistence.py:38-44 | on a fresh store a saved interaction reads back as the conversation's only document |
| `Persistence.SaveThenGetTriage` | tests/unit/test_persistence.py:61-71 | on a fresh store a saved triage reads back with its data |
| `Persistence.TriageDataIsKeptAsGiven` | tests/unit/test_persistence.py:61-71 | a stored intensity "7" reads back as the string "7" |
| `Persistence.FirstTriageAfterAppend` | app/services/persistence.py:86-99 | a triage saved for a conversation without one is the one found |
| `Persistence.NoTriageForUnknownConversation` | app/services/persistence.py:89-99 | nothing is found in an empty collection |
| `Graph.DecideNext` | app/agents/graph.py:115-122 | `decide_next`: both directions of its test are stated by `Graph.DecideNextRoutes` |
| `Graph.DecideNextRoutes` | app/agents/graph.py:115-122 | routes to extraction iff there is an agent message whose lowercase contains "sua triagem foi registrada"; END when it is absent |
| `Graph.LowerCompletionSentence` | app/agents/graph.py:105 | the closing text's sentence lowers to the router's phrase |
| `Graph.ClosingMessageCompletes` | app/agents/graph.py:103-109 | the closing text `persist_node` writes passes the completion test |
| `Graph.DialogNode` | app/agents/graph.py:49-58 | raises on a missing `user_message`, then on a missing `conversation_id`; otherwise replaces only `agent_message` with the model's reply |
| `Graph.ExtractRequestNode` | app/agents/graph.py:60-80 | raises as above; otherwise replaces only `internal_reply` with the reply to the extraction request |
| `Graph.ExtractionCall` | app/agents/graph.py:65-79 | the extraction request contains the history and the last message, and is sent with the conversation id and an empty context |
| `Graph.ExtractPrompt` | app/agents/graph.py:65-78 | the extraction f-string; that it holds the history and the message is stated by `Graph.ExtractPromptHoldsConversation` |
| `Graph.ExtractPromptHoldsConversation` | app/agents/graph.py:65-78 | the extraction prompt contains the context and the message |
| `Graph.ExtractionPromptHoldsConversation` | app/agents/graph.py:79 | the full prompt the model receives for the extraction holds the message, the history and the advisory |
| `Graph.FenceRemovalKeepsHead` | app/agents/graph.py:89 | removing "```" keeps a first character that is not a backtick |
| `Graph.NoFenceAfterRemoval` | app/agents/graph.py:89 | after removing every "```" none remains |
| `Graph.CleanReply` | app/agents/graph.py:86-91 | the chained `replace` and `strip`; that no fence survives is stated by `Graph.CleanReplyHasNoFence` |
| `Graph.CleanReplyHasNoFence` | app/agents/graph.py:86-91 | the cleaned reply contains no "```" |
| `Graph.ExtractedTriage` | app/agents/graph.py:92-96 | the dict `extraction_node` stores; its content and when it is empty are stated by `Graph.ExtractedTriageFields` and `Graph.ExtractedTriageEmptyIff` |
| `Graph.ExtractedTriageFields` | app/agents/graph.py:92-96 | the stored dict is `{}` when decoding or validation fails (intensity out of range included), and otherwise holds exactly the fields the JSON set with their values |
| `Graph.ExtractedTriageEmptyIff` | app/agents/graph.py:92-96 | the dict is empty iff decoding fails, validation fails, or no field was set |
| `Graph.ExtractionNode` | app/agents/graph.py:82-97 | raises iff `internal_reply` is missing; otherwise sets only `triage` |
| `Graph.RunUntilPersist` | app/agents/graph.py:124-136 | at most two model calls, and the visited nodes are a prefix of the wiring |
| `Graph.ReachesPersistIffExtractRoute` | app/agents/graph.py:129-135 | `persist` is reached iff the dialog succeeded, the router chose extraction and the extraction request did not raise |
| `Graph.EndRouteStopsAfterDialog` | app/agents/graph.py:130-133 | routing to END stops after the dialog with its state |
| `Graph.RunFollowsWiring` | app/agents/graph.py:124-136 | the run starts at the entry point and follows the edges |
| `Graph.CallsOfARun` | app/agents/graph.py:53-79 | the first call is the dialog call; the second carries the history and message with empty context |
| `Graph.TriageAgent.constructor` | app/agents/graph.py:37-40 | the agent holds its model, parser and store |
| `Graph.TriageAgent.PersistNode` | app/agents/graph.py:99-113 | saves one triage under the conversation id when the dict is non-empty (raising when the id is missing), saves nothing when empty, and sets only `agent_message` to the closing text |
| `Graph.TriageAgent.Run` | app/agents/graph.py:124-138 | a run executes the nodes in wiring order, and its result and store changes are those of `RunUntilPersist` followed by `persist_node` |
| `Graph.PersistedRunEndsWithClosingText` | app/agents/graph.py:103-120 | a run reaching `persist` ends with a triage in the state and an agent message that routes to extraction again |
| `Chat.ServiceAdvisoryIsEmergencyMessage` | app/services/chat_service.py:61-64 | the service's advisory equals `EMERGENCY_MESSAGE` |
| `Chat.Saves` | app/services/chat_service.py:52-79 | the saves picked out of an effect log are exactly its `Saved` entries |
| `Chat.Process` | app/services/chat_service.py:35-86 | the user turn is saved first; an emergency is answered with the advisory and no model call; otherwise the model is called exactly once and the response is its output, and when it raises the log stops after the user save and the call; the whole log is given on every path; a response means exactly two saves with the payload's ids and channel, and carries the payload's conversation id |
| `Chat.EmergencyAnswerIsEmergencyMessage` | app/services/chat_service.py:60-64 | an emergency is answered and saved with `EMERGENCY_MESSAGE` |
| `Chat.ChestPainIsAnsweredWithAdvisory` | app/services/chat_service.py:60-64 | with the default guard a chest-pain message gets the advisory without a model call |
| `Chat.ChatService.constructor` | app/services/chat_service.py:25-33 | the default guard and the given client, no calls yet |
| `Chat.ChatService.ProcessMessage` | app/services/chat_service.py:35-86 | appends to the log exactly the calls `Process` lists, in order, and returns its result |
| `WhatsAppSchemas.NewWhatsAppMessage` | app/schemas/whatsapp.py:21-27 | the four strings are required, the sender comes from the key "from", the text may be absent or null |
| `WhatsAppSchemas.MessageObjectRoundTrip` | app/schemas/whatsapp.py:21-27 | a message's own JSON object reads back as the message |
| `WhatsAppSchemas.SenderIsReadFromAlias` | app/schemas/whatsapp.py:24 | a sender given under "from_" only is rejected |
| `WhatsAppSchemas.TextMayBeLeftOut` | app/schemas/whatsapp.py:27 | a message without text is accepted with no text |
| `WhatsAppSchemas.NewSendMessage` | app/schemas/whatsapp.py:56-71 | accepted iff product and type are left out or their constants and `to` and `text` are given; the root validator reports a text message without text |
| `WhatsAppSchemas.TextMessage` | app/schemas/whatsapp.py:61-64 | a message built from a number and a body is accepted, with product "whatsapp" and type "text" |
| `WhatsAppSchemas.SendMessageDefaults` | tests/unit/test_schemas.py:77-84 | the documented message gets "whatsapp", "text" and keeps its body |
| `WhatsAppSchemas.TextTypeNeedsText` | app/schemas/whatsapp.py:66-71 | a text message without text is rejected with a root error |
| `WhatsAppSchemas.ConstantsCannotChange` | app/schemas/whatsapp.py:61-63 | any other product or type is rejected |
| `Webhook.DigitChar` | app/routes/webhook.py:29 | a digit's character reads back as the digit |
| `Webhook.ShowNat` | app/routes/webhook.py:29 | the decimal text of a number is a non-empty run of digits |
| `Webhook.ShowNatValue` | app/routes/webhook.py:29 | the digits of a number's decimal text spell the number |
| `Webhook.StripKeepsTrimmed` | app/routes/webhook.py:29 | a text without whitespace at its ends is unchanged by stripping |
| `Webhook.ParseInt` | app/routes/webhook.py:29 | `int(hub_challenge)`; that it reads back every `str(n)` is stated by `Webhook.ParseShowRoundTrip` |
| `Webhook.ShowInt` | app/routes/webhook.py:29 | `str(n)`: non-empty, with a leading '-' iff `n` is negative; `Webhook.ParseShowRoundTrip` states that `int()` reads it back |
| `Webhook.ParseShowRoundTrip` | app/routes/webhook.py:29 | `int(str(n)) == n` for every integer |
| `Webhook.VerifyWebhook` | app/routes/webhook.py:14-30 | the challenge is returned as a number iff mode is "subscribe", the token matches and the challenge is numeric; 403 iff mode or token is wrong |
| `Webhook.ChallengeIsEchoed` | app/routes/webhook.py:28-29 | a matching subscription echoes every numeric challenge |
| `Webhook.ShowExample` | tests/integration/test_webhook_flow.py:31 | 12345 is written "12345" |
| `Webhook.ChallengeExample` | tests/integration/test_webhook_flow.py:23-31 | challenge "12345" comes back as 12345, written "12345" |
| `Webhook.WebhookAdvisoryDiffers` | app/routes/webhook.py:67-69 | the route's advisory ("ligue 192") is not `EMERGENCY_MESSAGE` |
| `Webhook.FirstMessage` | app/routes/webhook.py:57-58 | there is a first message iff the first entry's first change has a non-empty message list, and it is that list's head |
| `Webhook.UserText` | app/routes/webhook.py:60 | a message without text reads as "" |
| `Webhook.Receive` | app/routes/webhook.py:55-91 | no message gives 500; an emergency sends the advisory, then saves, answers "emergency_handled" and never asks the model; otherwise it asks with the salted hash as session and, when the model raises, ends there with 500; with a reply it saves, sends, and answers "ok" iff the send goes through, else 500; the whole log is given on every path |
| `Webhook.TextlessMessageAsksWithEmptyText` | app/routes/webhook.py:60-78 | a message without text is no emergency and is sent to the model as "" |
| `Webhook.ReceiveAsWritten` | app/routes/webhook.py:55-91 | the route with its three-argument save, the as-written half of the finding; its outcome is stated by `Webhook.AsWrittenEveryRequestFails` |
| `Webhook.AsWrittenEveryRequestFails` | app/routes/webhook.py:74-81 | with the save call as written every request ends in 500, nothing is saved, and only the advisory can be sent |
| `Webhook.ChestPainPayloadIsAnEmergency` | tests/integration/test_webhook_flow.py:45-72 | under the corrected `Receive`, a typed payload whose first message is the test's chest-pain message, with a send that succeeds, is answered "emergency_handled", not "ok" |
| `Webhook.WebhookHandler.constructor` | app/routes/webhook.py:50-53 | the handler holds its collaborators and the default guard |
| `Webhook.WebhookHandler.ReceiveWebhook` | app/routes/webhook.py:33-91 | appends to the log exactly the calls `Receive` lists and returns its outcome |

## Left out

- The language model, the JSON decoding of `model_validate_json`, the WhatsApp Cloud API send, SHA-256 and the clock are parameters, not modelled.
- The persona file read (`load_system_prompt`) and `json.dumps(get_triage_schema())` are plain text parameters.
- Python's `lower()` is modelled for ASCII and Latin-1 capitals only. Python's `int()` is modelled for ASCII digits only.
- Webhook.ParseInt: strips with the whitespace of `str.strip()`, which includes the separators \x1c-\x1f that `int()` refuses around a number. CPython's limit of 4300 digits, past which `int()` raises `ValueError`, is not modelled either.
- Pydantic type coercion is not modelled: a number given where a string is expected is rejected.
- Persistence.PersistenceService.GetConversation: requires `limit > 0`. With the store's driver 0 means "no limit" and negative values have their own meaning, which is not modelled.
- Persistence: `find_one` is modelled as the first match in insertion order. Ids and timestamps both come from the one counter.
- Persistence: `datetime.utcnow()` is stored at millisecond precision, so two saves can tie and the clock can step back. The model's timestamps are distinct and increasing. Tied or non-monotone timestamps, and the store's unspecified order among tied documents under `.sort("timestamp", 1)`, are not modelled.
- Graph.ExtractionNode: `extraction_node` assigns `state["triage"]` on the caller's dict in place and returns that same dict. The model returns an updated copy, so aliasing of the state dict is not captured.
- Graph: the model is asked through an abstract `get_reply`. The prompt it builds is proved separately in `Llm`, and one lemma connects the two for the extraction request.
- Graph: the langgraph runtime, compilation and `get_graph` are out. A run is the node sequence the wiring allows.
- Chat: `chat_service.py` imports `LLMClient`, which the LLM module does not define, so the module cannot be imported. Its model-client call is modelled by the shape it uses (`generate_response(conversation_id, message, user_id)`).
- Chat: the keyword arguments passed to `save_message` (`sender`, `content`, …) do not match the two-parameter `save_message` of the store. The calls are recorded in that keyword shape, not reconciled with the store.
- Webhook: the service objects are constructed outside the `try`. The ValueError that `WhatsAppService()` raises when configuration is missing is not modelled.
- Webhook: the corrected `Receive` models the save as if the call were well-formed and awaited (`save_message` is `async`, and the route never awaits it). The call as written raises `TypeError` while binding its arguments, before any coroutine exists; see Findings.
- Webhook: payload validation into `WhatsAppWebhookPayload` (a 422 before the handler runs) is out. The handler receives the typed payload.
- Webhook: `app/main.py` mounts only the health and chat routers, so the webhook routes are not served. The model covers the handlers as if they were mounted.
- WhatsAppSchemas: the rest of the project uses pydantic 2 (`pydantic_settings`, `model_validate_json`, `model_json_schema`, `json_schema_extra`). Under pydantic 2, `Field("whatsapp", const=True)` and `Field("text", const=True)` (app/schemas/whatsapp.py:61, 63) and the bare `@root_validator` (:66) raise `PydanticUserError` while the class is defined. So `app/schemas/whatsapp.py`, the WhatsApp service that imports it, and `app/routes/webhook.py` cannot be imported as written. WhatsAppSchemas and Webhook model the pydantic-1 intent of code that does not load.
- Logging, HTTP routing, `app/main.py`, the repositories and the unused intents constants are out.
- The tests that name `TriageData` or `check_emergency` refer to code that does not exist. The expected error for a request without a conversation id cannot happen; `RequestWithoutIdIsAccepted` states the opposite. The webhook flow test's payload has no `changes[0].field`, `value.messaging_product` or `value.metadata`, all of them required (app/schemas/whatsapp.py:32-33, 40), so validation would answer 422. The route is not mounted (404), and with the save as written the emergency path ends in 500. `ChestPainPayloadIsAnEmergency` states only what the corrected `Receive` does with a typed payload whose first message is the test's message.

## Findings

| source | as written | input that shows it | evidently intended | confidence | as-written member | corrected member |
|---|---|---|---|---|---|---|
| app/routes/webhook.py:74-81 | `persistence.save_message(phone_hash, user_text, reply)` passes three positional arguments to `save_message(self, chat_request, chat_response)`. That raises `TypeError`, which the `except` turns into a 500. On the normal path the reply is never sent. | any payload with a first message, e.g. text "Olá" with a send that succeeds: 500, no save, no reply sent | save the exchange, send the reply, and answer "ok" or "emergency_handled" | not executed | `Webhook.ReceiveAsWritten`, shown by `Webhook.AsWrittenEveryRequestFails` | `Webhook.Receive`, used by `Webhook.WebhookHandler.ReceiveWebhook` |
