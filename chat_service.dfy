/**
 * `ChatService.process_message` of app/services/chat_service.py: save the user turn,
 * consult the guard, take the fixed advisory or the model's answer, save the agent turn
 * and answer with the request's conversation id. The message store and the language
 * model are collaborators reached through the call shapes the service uses: each call
 * the service makes is recorded, in order, in the service's effect log.
 */
module Chat {
  import opened Wrappers
  import opened ChatSchemas
  import opened Guard
  import opened Emergencies

  datatype Sender = User | Agent

  function SenderName(s: Sender): string {
    match s
    case User => "user"
    case Agent => "agent"
  }

  /** `save_message(conversation_id=…, sender=…, content=…, channel=…, user_id=…)`. */
  datatype SaveCall = SaveCall(
    conversationId: Option<string>,
    sender: Sender,
    content: string,
    channel: Option<Channel>,
    userId: Option<string>)

  /** `generate_response(conversation_id=…, message=…, user_id=…)`. */
  datatype GenerateCall = GenerateCall(conversationId: Option<string>, message: string, userId: Option<string>)

  /** The model client: the answer, or `None` when the call raises. */
  type Generate = GenerateCall -> Option<string>

  /** One call the service makes on a collaborator. */
  datatype Effect = Saved(save: SaveCall) | Generated(request: GenerateCall)

  /** What can end a call early: the model client raising, which propagates to the caller. */
  datatype ChatError = GenerateError

  /** The advisory the service answers an emergency with, as written in the service. */
  const ServiceAdvisory :=
    "Entendi. Seus sintomas podem indicar uma situação de emergência. "
    + "Por favor, procure o pronto-socorro mais próximo ou ligue para o 192 imediatamente."

  /** The service's advisory is `EMERGENCY_MESSAGE` word for word. */
  lemma ServiceAdvisoryIsEmergencyMessage()
    ensures ServiceAdvisory == EmergencyMessage
  {
  }

  /** The turn saved for the payload by `sender` with `content`: ids and channel come from the payload. */
  function Turn(payload: ChatRequest, sender: Sender, content: string): SaveCall {
    SaveCall(payload.conversationId, sender, content, payload.channel, payload.userId)
  }

  /** The model request for the payload. */
  function Request(payload: ChatRequest): GenerateCall {
    GenerateCall(payload.conversationId, payload.message, payload.userId)
  }

  /** The saves among a sequence of effects, in order. */
  function Saves(effects: seq<Effect>): (r: seq<SaveCall>)
    ensures |r| <= |effects|
    ensures forall c :: c in r <==> Saved(c) in effects
  {
    if |effects| == 0 then []
    else (if effects[0].Saved? then [effects[0].save] else []) + Saves(effects[1..])
  }

  /** The calls one `process_message` makes and its outcome. */
  datatype Exchange = Exchange(effects: seq<Effect>, result: Result<ChatResponse, ChatError>)

  /**
   * One `process_message(payload)` at time `now`, by its guarantees:
   * - the first call saves the user turn, before the guard and the model are consulted;
   * - on an emergency the answer is the service's advisory and the model is never called;
   * - otherwise the model is called once with the payload and its answer, unchanged,
   *   is the response; when the model raises, nothing more happens and the error propagates;
   * - a call that answers made exactly two saves, the user's message then the response,
   *   both with the payload's conversation id, channel and user id;
   * - the response carries the payload's conversation id and the time `now`.
   */
  function Process(guard: TriageGuard, generate: Generate, payload: ChatRequest, now: nat): (x: Exchange)
    ensures |x.effects| >= 2 && x.effects[0] == Saved(Turn(payload, User, payload.message))
    ensures guard.IsEmergency(payload.message) ==>
      x.result == Success(ChatResponse(payload.conversationId, Some(ServiceAdvisory), now))
      && x.effects == [Saved(Turn(payload, User, payload.message)), Saved(Turn(payload, Agent, ServiceAdvisory))]
      && forall i :: 0 <= i < |x.effects| ==> !x.effects[i].Generated?
    ensures !guard.IsEmergency(payload.message) ==>
      x.effects[1] == Generated(Request(payload))
      && x.effects == [Saved(Turn(payload, User, payload.message)), Generated(Request(payload))]
         + (if generate(Request(payload)).Some?
            then [Saved(Turn(payload, Agent, generate(Request(payload)).value))] else [])
      && (x.result.Success? <==> generate(Request(payload)).Some?)
      && (x.result.Success? ==> x.result.value.response == generate(Request(payload)))
      && (x.result.Failure? ==> Saves(x.effects) == [Turn(payload, User, payload.message)])
    ensures x.result.Success? ==>
      x.result.value.conversationId == payload.conversationId
      && x.result.value.timestamp == now
      && x.result.value.response.Some?
      && Saves(x.effects)
         == [Turn(payload, User, payload.message), Turn(payload, Agent, x.result.value.response.value)]
  {
    var userTurn := Saved(Turn(payload, User, payload.message));
    if guard.IsEmergency(payload.message) then
      var effects := [userTurn, Saved(Turn(payload, Agent, ServiceAdvisory))];
      assert Saves(effects) == [userTurn.save] + Saves(effects[1..]);
      Exchange(effects, Success(ChatResponse(payload.conversationId, Some(ServiceAdvisory), now)))
    else
      match generate(Request(payload))
      case None =>
        var effects := [userTurn, Generated(Request(payload))];
        assert Saves(effects) == [userTurn.save] + Saves(effects[1..]);
        assert Saves(effects[1..]) == Saves(effects[2..]);
        Exchange(effects, Failure(GenerateError))
      case Some(text) =>
        var effects := [userTurn, Generated(Request(payload)), Saved(Turn(payload, Agent, text))];
        assert Saves(effects) == [userTurn.save] + Saves(effects[1..]);
        assert Saves(effects[1..]) == Saves(effects[2..]);
        Exchange(effects, Success(ChatResponse(payload.conversationId, Some(text), now)))
  }

  /** The emergency answer is `EMERGENCY_MESSAGE` itself, and nothing but the two turns is saved. */
  lemma EmergencyAnswerIsEmergencyMessage(guard: TriageGuard, generate: Generate, payload: ChatRequest, now: nat)
    requires guard.IsEmergency(payload.message)
    ensures var x := Process(guard, generate, payload, now);
      x.result == Success(ChatResponse(payload.conversationId, Some(EmergencyMessage), now))
      && Saves(x.effects) == [Turn(payload, User, payload.message), Turn(payload, Agent, EmergencyMessage)]
  {
    ServiceAdvisoryIsEmergencyMessage();
  }

  /** With the default guard, a chest-pain message is answered with the advisory and the model is not asked. */
  lemma ChestPainIsAnsweredWithAdvisory(generate: Generate, payload: ChatRequest, now: nat)
    requires payload.message == "Estou com " + "dor no peito" + " desde ontem"
    ensures var x := Process(NewTriageGuard(), generate, payload, now);
      x.result.Success? && x.result.value.response == Some(EmergencyMessage)
      && |x.effects| == 2 && !x.effects[1].Generated?
  {
    DetectsChestPain();
    EmergencyAnswerIsEmergencyMessage(NewTriageGuard(), generate, payload, now);
  }

  /** The service: its guard, its model client, and the calls made so far. */
  class ChatService {
    const guard: TriageGuard
    const generate: Generate
    var effects: seq<Effect>

    /** `ChatService()` with the default guard and the given model client; nothing called yet. */
    constructor(generate: Generate)
      ensures guard == NewTriageGuard() && this.generate == generate && effects == []
    {
      guard := NewTriageGuard();
      this.generate := generate;
      effects := [];
    }

    /**
     * `process_message(payload)`, the clock reading `now`: the calls it makes are appended
     * to the log in the order it makes them, and the result is the one `Process` gives.
     */
    method ProcessMessage(payload: ChatRequest, now: nat) returns (r: Result<ChatResponse, ChatError>)
      modifies this
      ensures effects == old(effects) + Process(guard, generate, payload, now).effects
      ensures r == Process(guard, generate, payload, now).result
    {
      effects := effects + [Saved(Turn(payload, User, payload.message))];
      var responseText: string;
      if guard.IsEmergency(payload.message) {
        responseText := ServiceAdvisory;
      } else {
        effects := effects + [Generated(Request(payload))];
        var answer := generate(Request(payload));
        if answer.None? {
          return Failure(GenerateError);
        }
        responseText := answer.value;
      }
      effects := effects + [Saved(Turn(payload, Agent, responseText))];
      r := Success(ChatResponse(payload.conversationId, Some(responseText), now));
    }
  }
}
