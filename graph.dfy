/**
 * The triage agent of app/agents/graph.py: four nodes over a shared state record,
 * wired `llm_dialog` → (completion phrase?) → `llm_extract` → `extract` → `persist` → END.
 * The dialog, extraction-request and extraction nodes compute a new state; the persist
 * node writes to the store. The agent's `LLMService.get_reply` is the collaborator
 * `getReply` (message, session id, context), whose prompt assembly is modelled in `Llm`;
 * the JSON decoding of `model_validate_json` is the collaborator `parse`.
 */
module Graph {
  import opened Wrappers
  import opened Strings
  import opened TriageSchema
  import opened Llm
  import opened Persistence
  import opened Emergencies

  /** `TriageState` (a `total=False` dict): every key may be missing. */
  datatype TriageState = TriageState(
    conversationId: Option<string>,
    userMessage: Option<string>,
    conversationContext: Option<string>,
    agentMessage: Option<string>,
    internalReply: Option<string>,
    triage: Option<map<string, Value>>)

  /** The arguments of one `get_reply` call. */
  datatype ReplyCall = ReplyCall(message: string, sessionId: Option<string>, context: string)

  const UserMessageKey := "user_message"
  const InternalReplyKey := "internal_reply"

  /** What a node can raise: a missing state key, or an exception from the language model. */
  datatype GraphError = KeyError(key: string) | BackendError

  datatype Node = LlmDialog | LlmExtract | Extract | Persist

  /** The outcome of `decide_next`. */
  datatype Route = ToLlmExtract | ToEnd

  const EntryPoint := LlmDialog

  /** The edges of `_build_graph`: the node after `n` (None for END), the route choosing after the dialog. */
  function Successor(n: Node, route: Route): Option<Node> {
    match n
    case LlmDialog => if route == ToLlmExtract then Some(LlmExtract) else None
    case LlmExtract => Some(Extract)
    case Extract => Some(Persist)
    case Persist => None
  }

  const FinalPhrase := "sua triagem foi registrada"

  /** The sentence of the closing text that announces the registration, as written there. */
  const CompletionSentence := "Sua triagem foi registrada"

  /** The closing text of `persist_node`. */
  const FinalMessage :=
    "Obrigado por compartilhar todas essas informações. "
    + CompletionSentence + " e será encaminhada para nossa equipe médica, "
    + "que dará continuidade ao seu atendimento. "
    + "Lembre-se: este é apenas um pré-atendimento e não substitui uma consulta "
    + "com um profissional de saúde."

  // ---------------------------------------------------------------------------
  // decide_next
  // ---------------------------------------------------------------------------

  /** `decide_next`: extract when the lowercased agent message holds the completion phrase. */
  function DecideNext(s: TriageState): Route {
    if Contains(Lower(s.agentMessage.GetOr("")), FinalPhrase) then ToLlmExtract else ToEnd
  }

  /** The router picks the extraction iff there is an agent message whose lowercase holds the phrase. */
  lemma DecideNextRoutes(s: TriageState)
    ensures DecideNext(s) == ToLlmExtract <==> s.agentMessage.Some? && Contains(Lower(s.agentMessage.value), FinalPhrase)
    ensures s.agentMessage.None? ==> DecideNext(s) == ToEnd
  {
    if s.agentMessage.None? {
      assert Lower("") == "";
      NothingInEmpty(FinalPhrase);
    }
  }

  lemma LowerCompletionSentence()
    ensures Lower(CompletionSentence) == FinalPhrase
  {
  }

  /** The closing text itself passes the completion test. */
  lemma ClosingMessageCompletes(s: TriageState)
    ensures DecideNext(s.(agentMessage := Some(FinalMessage))) == ToLlmExtract
  {
    var head := "Obrigado por compartilhar todas essas informações. ";
    var rest1 := " e será encaminhada para nossa equipe médica, ";
    var rest2 := "que dará continuidade ao seu atendimento. ";
    var rest3 := "Lembre-se: este é apenas um pré-atendimento e não substitui uma consulta ";
    var rest4 := "com um profissional de saúde.";
    ContainsMiddle(head, CompletionSentence, rest1);
    ContainsBeforeSuffix(head + CompletionSentence + rest1, rest2, CompletionSentence);
    ContainsBeforeSuffix(head + CompletionSentence + rest1 + rest2, rest3, CompletionSentence);
    ContainsBeforeSuffix(head + CompletionSentence + rest1 + rest2 + rest3, rest4, CompletionSentence);
    LowerKeepsContains(FinalMessage, CompletionSentence);
    LowerCompletionSentence();
  }

  // ---------------------------------------------------------------------------
  // llm_dialog_node and llm_extract_node
  // ---------------------------------------------------------------------------

  /**
   * `llm_dialog_node`: reads `user_message`, then `conversation_id` (each raising when
   * missing), asks the model with the stored context, and sets `agent_message` to the
   * reply, copying every other field.
   */
  function DialogNode(getReply: Reply, s: TriageState): (r: Result<TriageState, GraphError>)
    ensures s.userMessage.None? ==> r == Failure(KeyError(UserMessageKey))
    ensures s.userMessage.Some? && s.conversationId.None? ==> r == Failure(KeyError(ConversationIdKey))
    ensures r.Success? ==>
      r.value.(agentMessage := s.agentMessage) == s
      && r.value.agentMessage == Call(getReply, DialogCall(s))
    ensures s.userMessage.Some? && s.conversationId.Some? ==>
      (r.Success? <==> Call(getReply, DialogCall(s)).Some?)
  {
    if s.userMessage.None? then Failure(KeyError(UserMessageKey))
    else if s.conversationId.None? then Failure(KeyError(ConversationIdKey))
    else
      match getReply(s.userMessage.value, s.conversationId, s.conversationContext.GetOr(""))
      case None => Failure(BackendError)
      case Some(reply) => Success(s.(agentMessage := Some(reply)))
  }

  /** Performing a recorded call. */
  function Call(getReply: Reply, c: ReplyCall): Option<string> {
    getReply(c.message, c.sessionId, c.context)
  }

  /** The call of the dialog node: the message, the conversation id and the stored context. */
  function DialogCall(s: TriageState): ReplyCall
    requires s.userMessage.Some?
  {
    ReplyCall(s.userMessage.value, s.conversationId, s.conversationContext.GetOr(""))
  }

  /** The fixed instructions of the extraction request, ending with the empty JSON template. */
  const ExtractInstructions :=
    "Extraia as informações abaixo da conversa (histórico + última mensagem). "
    + "Responda SOMENTE em JSON.\n\n"
    + "{\n"
    + "  \"queixa_principal\": \"\",\n"
    + "  \"sintomas\": \"\",\n"
    + "  \"duracao_frequencia\": \"\",\n"
    + "  \"intensidade\": 0,\n"
    + "  \"historico\": \"\",\n"
    + "  \"medidas_tomadas\": \"\"\n"
    + "}\n\n"

  const HistoryLabel := "Histórico:\n"
  const LastMessageLabel := "Última mensagem:\n"

  /** The extraction request of `llm_extract_node`. */
  function ExtractPrompt(context: string, userMessage: string): string {
    ExtractInstructions + HistoryLabel + context + "\n\n" + LastMessageLabel + userMessage
  }

  /** The extraction request holds the history and, at its very end, the last message. */
  lemma ExtractPromptHoldsConversation(context: string, userMessage: string)
    ensures Contains(ExtractPrompt(context, userMessage), context)
    ensures Contains(ExtractPrompt(context, userMessage), userMessage)
    ensures var p := ExtractPrompt(context, userMessage); p[|p| - |userMessage|..] == userMessage
  {
    var front := ExtractInstructions + HistoryLabel;
    var p := ExtractPrompt(context, userMessage);
    ContainsSelf(context);
    ContainsAfterPrefix(front, context, context);
    ContainsBeforeSuffix(front + context, "\n\n", context);
    ContainsBeforeSuffix(front + context + "\n\n", LastMessageLabel, context);
    ContainsBeforeSuffix(front + context + "\n\n" + LastMessageLabel, userMessage, context);
    ContainsSelf(userMessage);
    ContainsAfterPrefix(front + context + "\n\n" + LastMessageLabel, userMessage, userMessage);
  }

  /**
   * `llm_extract_node`: builds the extraction request from the stored context and
   * `user_message` (raising when it is missing), sends it with `conversation_id`
   * (raising when missing) and an empty context, and sets `internal_reply` to the reply,
   * copying every other field.
   */
  function ExtractRequestNode(getReply: Reply, s: TriageState): (r: Result<TriageState, GraphError>)
    ensures s.userMessage.None? ==> r == Failure(KeyError(UserMessageKey))
    ensures s.userMessage.Some? && s.conversationId.None? ==> r == Failure(KeyError(ConversationIdKey))
    ensures r.Success? ==>
      r.value.(internalReply := s.internalReply) == s
      && r.value.internalReply == Call(getReply, ExtractionCall(s))
    ensures s.userMessage.Some? && s.conversationId.Some? ==>
      (r.Success? <==> Call(getReply, ExtractionCall(s)).Some?)
  {
    if s.userMessage.None? then Failure(KeyError(UserMessageKey))
    else if s.conversationId.None? then Failure(KeyError(ConversationIdKey))
    else
      match getReply(ExtractPrompt(s.conversationContext.GetOr(""), s.userMessage.value), s.conversationId, "")
      case None => Failure(BackendError)
      case Some(reply) => Success(s.(internalReply := Some(reply)))
  }

  /**
   * The call of the extraction request: the request built from the stored context and
   * the message, the conversation id, and an empty context.
   */
  function ExtractionCall(s: TriageState): (c: ReplyCall)
    requires s.userMessage.Some?
    ensures c.context == "" && c.sessionId == s.conversationId
    ensures Contains(c.message, s.userMessage.value) && Contains(c.message, s.conversationContext.GetOr(""))
  {
    ExtractPromptHoldsConversation(s.conversationContext.GetOr(""), s.userMessage.value);
    ReplyCall(ExtractPrompt(s.conversationContext.GetOr(""), s.userMessage.value), s.conversationId, "")
  }

  /**
   * With the agent's `LLMService`, the prompt the model receives for the extraction
   * request carries the history and the last message, and the emergency rules.
   */
  lemma ExtractionPromptHoldsConversation(llm: LlmService, s: TriageState)
    requires s.userMessage.Some?
    ensures var c := ExtractionCall(s); var prompt := llm.PromptFor(c.message, c.context);
      Contains(prompt, s.userMessage.value) && Contains(prompt, s.conversationContext.GetOr(""))
      && Contains(prompt, EmergencyMessage)
  {
    var c := ExtractionCall(s);
    FullPromptHoldsSections(llm.systemPrompt, llm.schema, c.message, c.context);
    ContainsTransitive(llm.PromptFor(c.message, c.context), c.message, s.userMessage.value);
    ContainsTransitive(llm.PromptFor(c.message, c.context), c.message, s.conversationContext.GetOr(""));
  }

  // ---------------------------------------------------------------------------
  // extraction_node
  // ---------------------------------------------------------------------------

  const Fence := "```"
  const JsonFence := "```json"

  /** The cleaning of the raw reply: drop every "```json", then every "```", then strip. */
  function CleanReply(reply: string): string {
    Strip(RemoveAll(RemoveAll(reply, JsonFence), Fence))
  }

  /** A text that does not start with a backtick keeps its first character under fence removal. */
  lemma FenceRemovalKeepsHead(v: string)
    requires |v| > 0 && v[0] != '`'
    ensures |RemoveAll(v, Fence)| > 0 && RemoveAll(v, Fence)[0] == v[0]
  {
    if |v| >= 3 {
      assert v[..3][0] == v[0];
    }
  }

  /** Removing every "```" leaves no "```": a removal never joins backticks into a new fence. */
  lemma {:induction false} NoFenceAfterRemoval(u: string)
    ensures !Contains(RemoveAll(u, Fence), Fence)
    decreases |u|
  {
    if |u| < 3 {
      assert |RemoveAll(u, Fence)| < 3;
    } else if u[..3] == Fence {
      NoFenceAfterRemoval(u[3..]);
    } else {
      var r := RemoveAll(u, Fence);
      var t := RemoveAll(u[1..], Fence);
      assert r == [u[0]] + t;
      NoFenceAfterRemoval(u[1..]);
      // a kept backtick is followed, within two places, by a character that is not one
      if u[0] == '`' && u[1] != '`' {
        FenceRemovalKeepsHead(u[1..]);
      } else if u[0] == '`' && |u| > 3 {
        assert u[1..][..3] != Fence;
        FenceRemovalKeepsHead(u[2..]);
      }
      assert !OccursAt(Fence, r, 0);
      if Contains(r, Fence) {
        ContainsCons(u[0], t, Fence);
      }
    }
  }

  /** After cleaning, the text holds no "```". */
  lemma CleanReplyHasNoFence(reply: string)
    ensures !Contains(CleanReply(reply), Fence)
  {
    var u := RemoveAll(RemoveAll(reply, JsonFence), Fence);
    NoFenceAfterRemoval(RemoveAll(reply, JsonFence));
    StripIsSubstring(u);
    if Contains(CleanReply(reply), Fence) {
      ContainsTransitive(u, Strip(u), Fence);
    }
  }

  /**
   * The triage dict the extraction node stores for a raw reply: the fields the JSON set
   * when it decodes and validates as a `Triage`, and `{}` otherwise.
   */
  function ExtractedTriage(parse: string -> Option<TriageFields>, reply: string): map<string, Value> {
    match parse(CleanReply(reply))
    case None => map[]
    case Some(fields) =>
      match Validate(fields)
      case Failure(_) => map[]
      case Success(t) => ExcludeUnset(t, fields)
  }

  /**
   * The stored dict is `{}` when the cleaned reply does not decode or does not validate (an
   * intensity outside 0..10 in particular); otherwise it holds exactly the fields the
   * JSON set, each with the validated value.
   */
  lemma ExtractedTriageFields(parse: string -> Option<TriageFields>, reply: string)
    ensures parse(CleanReply(reply)).None? ==> ExtractedTriage(parse, reply) == map[]
    ensures parse(CleanReply(reply)).Some? && Validate(parse(CleanReply(reply)).value).Failure? ==>
      ExtractedTriage(parse, reply) == map[]
    ensures var f := parse(CleanReply(reply));
      f.Some? && f.value.intensidade.Given? && !InIntensityScale(f.value.intensidade.value) ==>
      ExtractedTriage(parse, reply) == map[]
    ensures var f := parse(CleanReply(reply));
      f.Some? && Validate(f.value).Success? ==>
        var d := ExtractedTriage(parse, reply);
        (forall k :: k in d <==> k in FieldNames && IsSet(f.value, k))
        && (forall k :: k in d ==> d[k] == Attribute(Validate(f.value).value, k))
  {
  }

  /** The dict is empty exactly when decoding or validation fails, or when the JSON set no field. */
  lemma ExtractedTriageEmptyIff(parse: string -> Option<TriageFields>, reply: string)
    ensures ExtractedTriage(parse, reply) == map[] <==>
      var f := parse(CleanReply(reply));
      f.None? || Validate(f.value).Failure? || f.value == NoFields
  {
    var f := parse(CleanReply(reply));
    if f.Some? && Validate(f.value).Success? {
      ExcludeUnsetEmptyIff(Validate(f.value).value, f.value);
    }
  }

  /**
   * `extraction_node`: reads `internal_reply` (raising when missing) and sets `triage` to
   * the extracted dict, copying every other field.
   */
  function ExtractionNode(parse: string -> Option<TriageFields>, s: TriageState): (r: Result<TriageState, GraphError>)
    ensures r.Failure? <==> s.internalReply.None?
    ensures r.Failure? ==> r.error == KeyError(InternalReplyKey)
    ensures r.Success? ==>
      r.value.(triage := s.triage) == s
      && r.value.triage == Some(ExtractedTriage(parse, s.internalReply.value))
  {
    if s.internalReply.None? then Failure(KeyError(InternalReplyKey))
    else Success(s.(triage := Some(ExtractedTriage(parse, s.internalReply.value))))
  }

  // ---------------------------------------------------------------------------
  // A run up to the persist node
  // ---------------------------------------------------------------------------

  /** What a run did before reaching `persist`: the nodes it ran, the prompts it sent, and the state or error. */
  datatype Progress = Progress(visited: seq<Node>, calls: seq<ReplyCall>, result: Result<TriageState, GraphError>)

  /**
   * The first three nodes of a run from state `s`: the dialog, then, when the router
   * picks it, the extraction request and the extraction. A raising node ends the run.
   */
  function RunUntilPersist(getReply: Reply, parse: string -> Option<TriageFields>, s: TriageState): (p: Progress)
    ensures |p.calls| <= 2
    ensures p.visited == [LlmDialog] || p.visited == [LlmDialog, LlmExtract] || p.visited == [LlmDialog, LlmExtract, Extract]
  {
    var calls := if s.userMessage.Some? && s.conversationId.Some? then [DialogCall(s)] else [];
    match DialogNode(getReply, s)
    case Failure(e) => Progress([LlmDialog], calls, Failure(e))
    case Success(s1) =>
      if DecideNext(s1) == ToEnd then Progress([LlmDialog], calls, Success(s1))
      else
        match ExtractRequestNode(getReply, s1)
        case Failure(e) => Progress([LlmDialog, LlmExtract], calls + [ExtractionCall(s1)], Failure(e))
        case Success(s2) =>
          Progress([LlmDialog, LlmExtract, Extract], calls + [ExtractionCall(s1)], ExtractionNode(parse, s2))
  }

  /** Whether a run continues into `persist`. */
  predicate ReachesPersist(p: Progress) {
    p.visited == [LlmDialog, LlmExtract, Extract] && p.result.Success?
  }

  /**
   * `persist` is reached only after the router chose `llm_extract`, and always then,
   * unless the model raises on the extraction request.
   */
  lemma ReachesPersistIffExtractRoute(getReply: Reply, parse: string -> Option<TriageFields>, s: TriageState)
    ensures ReachesPersist(RunUntilPersist(getReply, parse, s)) <==>
      DialogNode(getReply, s).Success? && DecideNext(DialogNode(getReply, s).value) == ToLlmExtract
      && Call(getReply, ExtractionCall(DialogNode(getReply, s).value)).Some?
  {
  }

  /** When the router ends the run, only the dialog ran and its state is the result. */
  lemma EndRouteStopsAfterDialog(getReply: Reply, parse: string -> Option<TriageFields>, s: TriageState)
    requires DialogNode(getReply, s).Success? && DecideNext(DialogNode(getReply, s).value) == ToEnd
    ensures RunUntilPersist(getReply, parse, s) == Progress([LlmDialog], [DialogCall(s)], DialogNode(getReply, s))
  {
  }

  /** The nodes a run visits follow the wiring from the entry point. */
  lemma RunFollowsWiring(getReply: Reply, parse: string -> Option<TriageFields>, s: TriageState)
    ensures var p := RunUntilPersist(getReply, parse, s);
      p.visited[0] == EntryPoint
      && (|p.visited| > 1 ==>
            (DialogNode(getReply, s).Success?
             && Successor(LlmDialog, DecideNext(DialogNode(getReply, s).value)) == Some(LlmExtract)))
      && (forall i :: 1 <= i < |p.visited| - 1 ==> Successor(p.visited[i], ToEnd) == Some(p.visited[i + 1]))
  {
  }

  /**
   * The model is asked at most twice: first the dialog call, then the extraction request,
   * which carries the history and the last message and is sent with an empty context.
   */
  lemma CallsOfARun(getReply: Reply, parse: string -> Option<TriageFields>, s: TriageState)
    ensures var p := RunUntilPersist(getReply, parse, s);
      |p.calls| <= 2
      && (|p.calls| > 0 ==> s.userMessage.Some? && p.calls[0] == DialogCall(s))
      && (|p.calls| == 2 ==>
            p.calls[1].context == ""
            && p.calls[1].sessionId == s.conversationId
            && Contains(p.calls[1].message, s.userMessage.value)
            && Contains(p.calls[1].message, s.conversationContext.GetOr("")))
  {
  }

  // ---------------------------------------------------------------------------
  // The agent: persist_node and a whole run
  // ---------------------------------------------------------------------------

  class TriageAgent {
    const getReply: Reply
    const parse: string -> Option<TriageFields>
    const store: PersistenceService

    constructor(getReply: Reply, parse: string -> Option<TriageFields>, store: PersistenceService)
      ensures this.getReply == getReply && this.parse == parse && this.store == store
    {
      this.getReply := getReply;
      this.parse := parse;
      this.store := store;
    }

    /**
     * `persist_node`: when the state holds a non-empty triage, saves it once under
     * `conversation_id` (raising when that key is missing); saves nothing otherwise; and
     * sets `agent_message` to the closing text, copying every other field.
     */
    method PersistNode(s: TriageState) returns (r: Result<TriageState, GraphError>)
      requires store.Valid()
      modifies store
      ensures store.Valid()
      ensures store.messages == old(store.messages)
      ensures var data := s.triage.GetOr(map[]);
        (data == map[] ==>
          r == Success(s.(agentMessage := Some(FinalMessage))) && unchanged(store))
        && (data != map[] && s.conversationId.None? ==>
          r == Failure(KeyError(ConversationIdKey)) && unchanged(store))
        && (data != map[] && s.conversationId.Some? ==>
          r == Success(s.(agentMessage := Some(FinalMessage)))
          && store.triages == old(store.triages) + [TriageDoc(old(store.clock), s.conversationId.value, data, old(store.clock))]
          && store.clock == old(store.clock) + 1)
    {
      var data := s.triage.GetOr(map[]);
      if data != map[] {
        if s.conversationId.None? {
          return Failure(KeyError(ConversationIdKey));
        }
        var _ := store.SaveTriage(s.conversationId.value, data);
      }
      r := Success(s.(agentMessage := Some(FinalMessage)));
    }

    /**
     * One run of the compiled graph from state `s`: the nodes in wiring order, each fed
     * the state the previous one returned, ending at END or at the first node that raises.
     * Returns the outcome and the nodes it ran.
     */
    method Run(s: TriageState) returns (r: Result<TriageState, GraphError>, visited: seq<Node>)
      requires store.Valid()
      modifies store
      ensures store.Valid()
      ensures var p := RunUntilPersist(getReply, parse, s);
        if ReachesPersist(p) then
          visited == p.visited + [Persist]
          && (var st := p.result.value; var data := st.triage.GetOr(map[]);
              (r.Success? <==> data == map[] || st.conversationId.Some?)
              && (r.Success? ==> r.value == st.(agentMessage := Some(FinalMessage)))
              && (r.Failure? ==> r.error == KeyError(ConversationIdKey))
              && (data != map[] && st.conversationId.Some? ==>
                    store.triages == old(store.triages) + [TriageDoc(old(store.clock), st.conversationId.value, data, old(store.clock))]
                    && store.messages == old(store.messages) && store.clock == old(store.clock) + 1)
              && (data == map[] || st.conversationId.None? ==> unchanged(store)))
        else
          visited == p.visited && r == p.result && unchanged(store)
    {
      visited := [LlmDialog];
      var dialog := DialogNode(getReply, s);
      if dialog.Failure? {
        return dialog, visited;
      }
      if DecideNext(dialog.value) == ToEnd {
        return dialog, visited;
      }
      visited := visited + [LlmExtract];
      var request := ExtractRequestNode(getReply, dialog.value);
      if request.Failure? {
        return request, visited;
      }
      visited := visited + [Extract];
      var extracted := ExtractionNode(parse, request.value);
      visited := visited + [Persist];
      r := PersistNode(extracted.value);
    }
  }

  /** A completed run that reached `persist` ends with the closing text, which would route to extraction again. */
  lemma PersistedRunEndsWithClosingText(getReply: Reply, parse: string -> Option<TriageFields>, s: TriageState)
    requires ReachesPersist(RunUntilPersist(getReply, parse, s))
    ensures var st := RunUntilPersist(getReply, parse, s).result.value;
      st.triage.Some? && DecideNext(st.(agentMessage := Some(FinalMessage))) == ToLlmExtract
  {
    ClosingMessageCompletes(RunUntilPersist(getReply, parse, s).result.value);
  }
}
