/**
 * Prompt assembly of app/services/llm.py. The persona text (read from a file and
 * stripped) and the JSON schema text are parameters; the language-model client is an
 * uninterpreted function from prompt to reply, `None` standing for a call that raised.
 */
module Llm {
  import opened Wrappers
  import opened Strings
  import opened Emergencies

  const EmergencyRulesIntro :=
    "Regras de Emergência:\n"
    + "Se a mensagem do usuário contiver sinais de urgência médica, como "

  const EmergencyRulesAction := ", interrompa a triagem imediatamente e responda:\n"

  /** The advisory as `build_emergency_prompt` spells it out, between double quotes. */
  const QuotedAdvisory :=
    "\"" + "Entendi. Seus sintomas podem indicar uma situação de emergência. "
    + "Por favor, procure o pronto-socorro mais próximo ou ligue para o 192 imediatamente." + "\""

  const SectionSeparator := "\n\n"
  const SchemaHeader := "Estrutura esperada da triagem (JSON Schema):\n"
  const HistoryHeader := "Histórico da conversa:\n"
  const MessageHeader := "Mensagem do usuário:\n"

  /** The emergency rules for a list of phrases, `", "`-joined into the sentence. */
  function RulesFor(keywords: seq<string>): string {
    EmergencyRulesIntro + Join(keywords, ", ") + EmergencyRulesAction + QuotedAdvisory
  }

  /** `build_emergency_prompt()`: the rules for `EMERGENCY_KEYWORDS`. */
  function EmergencyPrompt(): string {
    RulesFor(EmergencyKeywords)
  }

  /** The layout of the full prompt: five sections separated by blank lines. */
  function PromptLayout(systemPrompt: string, rules: string, schema: string, context: string, userMessage: string): string {
    systemPrompt + SectionSeparator
    + rules + SectionSeparator
    + SchemaHeader + schema + SectionSeparator
    + HistoryHeader + context + SectionSeparator
    + MessageHeader + userMessage
  }

  /** `build_full_prompt(user_message, conversation_context)`, with the persona and schema texts given. */
  function FullPrompt(systemPrompt: string, schema: string, userMessage: string, context: string): string {
    PromptLayout(systemPrompt, EmergencyPrompt(), schema, context, userMessage)
  }

  /**
   * `get_reply(user_message, session_id, conversation_context)` as its callers see it:
   * the reply, or `None` when the model raises.
   */
  type Reply = (string, Option<string>, string) -> Option<string>

  /** The service: the backend client plus the persona and schema texts it sends along. */
  datatype LlmService = LlmService(backend: string -> Option<string>, systemPrompt: string, schema: string) {

    /** The prompt `get_reply` sends for a message and a context. */
    function PromptFor(userMessage: string, context: string): string {
      FullPrompt(systemPrompt, schema, userMessage, context)
    }

    /** `get_reply(user_message, session_id, conversation_context)`. */
    function GetReply(userMessage: string, sessionId: Option<string>, context: string): Option<string> {
      backend(PromptFor(userMessage, context))
    }
  }

  /** The quoted advisory in the emergency rules is `EMERGENCY_MESSAGE` itself. */
  lemma QuotedAdvisoryIsEmergencyMessage()
    ensures QuotedAdvisory == "\"" + EmergencyMessage + "\""
  {
  }

  /** Phrase `i` of the list starts at its offset in the joined list, after the fixed introduction. */
  lemma {:induction false} RulesPlaceKeyword(keywords: seq<string>, i: nat)
    requires i < |keywords|
    ensures OccursAt(keywords[i], RulesFor(keywords), |EmergencyRulesIntro| + JoinOffset(keywords, ", ", i))
  {
    var list := Join(keywords, ", ");
    var k := JoinOffset(keywords, ", ", i);
    JoinPlacesElement(keywords, ", ", i);
    OccursAfterPrefix(keywords[i], EmergencyRulesIntro, list, k);
    OccursBeforeSuffix(keywords[i], EmergencyRulesIntro + list, EmergencyRulesAction, |EmergencyRulesIntro| + k);
    OccursBeforeSuffix(keywords[i], EmergencyRulesIntro + list + EmergencyRulesAction, QuotedAdvisory,
      |EmergencyRulesIntro| + k);
  }

  /**
   * Every phrase but the last is followed by ", " and phrase `i + 1` starts right
   * after that separator, so the rules name the phrases in list order.
   */
  lemma {:induction false} RulesSeparateKeywords(keywords: seq<string>, i: nat)
    requires i + 1 < |keywords|
    ensures OccursAt(", ", RulesFor(keywords), |EmergencyRulesIntro| + JoinOffset(keywords, ", ", i) + |keywords[i]|)
    ensures JoinOffset(keywords, ", ", i + 1) == JoinOffset(keywords, ", ", i) + |keywords[i]| + 2
  {
    var list := Join(keywords, ", ");
    var k := JoinOffset(keywords, ", ", i) + |keywords[i]|;
    JoinPlacesSeparator(keywords, ", ", i);
    OccursAfterPrefix(", ", EmergencyRulesIntro, list, k);
    OccursBeforeSuffix(", ", EmergencyRulesIntro + list, EmergencyRulesAction, |EmergencyRulesIntro| + k);
    OccursBeforeSuffix(", ", EmergencyRulesIntro + list + EmergencyRulesAction, QuotedAdvisory,
      |EmergencyRulesIntro| + k);
    JoinOffsetStep(keywords, ", ", i);
  }

  /** The emergency rules of the prompt name every emergency phrase. */
  lemma EmergencyPromptNamesKeywords(i: nat)
    requires i < |EmergencyKeywords|
    ensures Contains(EmergencyPrompt(), EmergencyKeywords[i])
  {
    RulesPlaceKeyword(EmergencyKeywords, i);
  }

  /** The rules hold `EMERGENCY_MESSAGE` verbatim, hence the number to call, whatever the phrases. */
  lemma {:induction false} RulesHoldAdvisory(keywords: seq<string>)
    ensures Contains(RulesFor(keywords), EmergencyMessage)
    ensures Contains(RulesFor(keywords), "ligue para o 192")
  {
    QuotedAdvisoryIsEmergencyMessage();
    ContainsMiddle("\"", EmergencyMessage, "\"");
    ContainsAfterPrefix(EmergencyRulesIntro + Join(keywords, ", ") + EmergencyRulesAction, QuotedAdvisory, EmergencyMessage);
    EmergencyMessageNamesNumber();
    ContainsTransitive(RulesFor(keywords), EmergencyMessage, "ligue para o 192");
  }

  /** The advisory tells the user to call 192. */
  lemma EmergencyMessageNamesNumber()
    ensures Contains(EmergencyMessage, "ligue para o 192")
  {
    var before := "Entendi. Seus sintomas podem indicar uma situação de emergência. "
      + "Por favor, procure o pronto-socorro mais próximo ou ";
    assert EmergencyMessage == before + "ligue para o 192" + " imediatamente.";
    ContainsMiddle(before, "ligue para o 192", " imediatamente.");
  }

  /** Every section of the layout is in the prompt. */
  lemma {:induction false} LayoutHoldsSections(systemPrompt: string, rules: string, schema: string, context: string, userMessage: string)
    ensures var p := PromptLayout(systemPrompt, rules, schema, context, userMessage);
      Contains(p, systemPrompt) && Contains(p, rules) && Contains(p, schema)
      && Contains(p, context) && Contains(p, userMessage)
  {
    var p1 := systemPrompt + SectionSeparator;
    var p2 := p1 + rules;
    var p3 := p2 + SectionSeparator;
    var p4 := p3 + SchemaHeader;
    var p5 := p4 + schema;
    var p6 := p5 + SectionSeparator;
    var p7 := p6 + HistoryHeader;
    var p8 := p7 + context;
    var p9 := p8 + SectionSeparator;
    var p10 := p9 + MessageHeader;
    var p := p10 + userMessage;
    ContainsSelf(systemPrompt);
    ContainsBeforeSuffix(systemPrompt, SectionSeparator, systemPrompt);
    ContainsSelf(rules);
    ContainsAfterPrefix(p1, rules, rules);
    ContainsSelf(schema);
    ContainsAfterPrefix(p4, schema, schema);
    ContainsSelf(context);
    ContainsAfterPrefix(p7, context, context);
    ContainsSelf(userMessage);
    ContainsAfterPrefix(p10, userMessage, userMessage);
    ContainsInPrefix(p1, p, systemPrompt);
    ContainsInPrefix(p2, p, rules);
    ContainsInPrefix(p5, p, schema);
    ContainsInPrefix(p8, p, context);
  }

  /** The layout ends with the message header followed by the message. */
  lemma LayoutEndsWithMessage(systemPrompt: string, rules: string, schema: string, context: string, userMessage: string)
    ensures var p := PromptLayout(systemPrompt, rules, schema, context, userMessage);
      |p| >= |MessageHeader| + |userMessage|
      && p[|p| - |userMessage|..] == userMessage
      && p[|p| - |userMessage| - |MessageHeader|..|p| - |userMessage|] == MessageHeader
  {
    var front := systemPrompt + SectionSeparator + rules + SectionSeparator + SchemaHeader + schema
      + SectionSeparator + HistoryHeader + context + SectionSeparator;
    var p := front + MessageHeader + userMessage;
    assert p[|front| + |MessageHeader|..] == userMessage;
    assert p[|front|..|front| + |MessageHeader|] == MessageHeader;
  }

  /**
   * The full prompt holds the persona, the emergency rules (hence the advisory and every
   * emergency phrase), the schema, the context and the message, and ends with the
   * message header followed by the message.
   */
  lemma FullPromptHoldsSections(systemPrompt: string, schema: string, userMessage: string, context: string)
    ensures var p := FullPrompt(systemPrompt, schema, userMessage, context);
      Contains(p, systemPrompt) && Contains(p, EmergencyPrompt()) && Contains(p, schema)
      && Contains(p, context) && Contains(p, userMessage) && Contains(p, EmergencyMessage)
    ensures var p := FullPrompt(systemPrompt, schema, userMessage, context);
      p[|p| - |userMessage|..] == userMessage
  {
    var p := FullPrompt(systemPrompt, schema, userMessage, context);
    LayoutHoldsSections(systemPrompt, EmergencyPrompt(), schema, context, userMessage);
    LayoutEndsWithMessage(systemPrompt, EmergencyPrompt(), schema, context, userMessage);
    RulesHoldAdvisory(EmergencyKeywords);
    ContainsTransitive(p, EmergencyPrompt(), EmergencyMessage);
  }

  /** The session id plays no part in the prompt, so it cannot change the reply. */
  lemma GetReplyIgnoresSession(llm: LlmService, userMessage: string, s1: Option<string>, s2: Option<string>, context: string)
    ensures llm.GetReply(userMessage, s1, context) == llm.GetReply(userMessage, s2, context)
  {
  }
}
