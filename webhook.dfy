/**
 * The WhatsApp webhook of app/routes/webhook.py: the subscription handshake of the GET
 * route, and the POST route that answers an incoming message, either with the emergency
 * advisory or with the model's reply. Sending, saving, the phone-number hash and the
 * model are collaborators; each call the route makes is recorded in the handler's log.
 */
module Webhook {
  import opened Wrappers
  import opened Strings
  import opened Emergencies
  import opened Guard
  import opened WhatsAppSchemas
  import Llm

  // ---------------------------------------------------------------------------
  // Python's int(str) and str(int), base 10
  // ---------------------------------------------------------------------------

  predicate IsDigit(c: char) {
    '0' <= c <= '9'
  }

  function DigitValue(c: char): nat
    requires IsDigit(c)
  {
    c as int - '0' as int
  }

  function DigitChar(d: nat): (c: char)
    requires d < 10
    ensures IsDigit(c) && DigitValue(c) == d
  {
    ('0' as int + d) as char
  }

  /** Digits, possibly grouped by single underscores: starts and ends with a digit, no "__". */
  predicate DigitRun(ds: string) {
    |ds| > 0 && IsDigit(ds[0]) && IsDigit(ds[|ds| - 1])
    && (forall i :: 0 <= i < |ds| ==> IsDigit(ds[i]) || ds[i] == '_')
    && (forall i :: 0 <= i < |ds| - 1 ==> ds[i] == '_' ==> ds[i + 1] != '_')
  }

  /** The number the digits of `ds` spell, underscores skipped. */
  function DigitsValue(ds: string): nat
    requires forall i :: 0 <= i < |ds| ==> IsDigit(ds[i]) || ds[i] == '_'
  {
    if |ds| == 0 then 0
    else if ds[|ds| - 1] == '_' then DigitsValue(ds[..|ds| - 1])
    else DigitsValue(ds[..|ds| - 1]) * 10 + DigitValue(ds[|ds| - 1])
  }

  /**
   * `int(s)`: surrounding whitespace is ignored; then an optional sign and a run of
   * digits; anything else raises `ValueError` (`None` here).
   */
  function ParseInt(s: string): Option<int> {
    var t := Strip(s);
    if |t| > 0 && (t[0] == '+' || t[0] == '-') then
      if DigitRun(t[1..]) then
        var magnitude: int := DigitsValue(t[1..]);
        Some(if t[0] == '-' then -magnitude else magnitude)
      else None
    else if DigitRun(t) then Some(DigitsValue(t))
    else None
  }

  /** `str(n)` for a natural number: its decimal digits, no leading zero. */
  function ShowNat(n: nat): (r: string)
    ensures |r| > 0 && forall i :: 0 <= i < |r| ==> IsDigit(r[i])
  {
    if n < 10 then [DigitChar(n)] else ShowNat(n / 10) + [DigitChar(n % 10)]
  }

  /** `str(n)`. */
  function ShowInt(n: int): (r: string)
    ensures |r| > 0 && (r[0] == '-' <==> n < 0)
  {
    if n < 0 then "-" + ShowNat(-n) else ShowNat(n)
  }

  /** The digits of `str(n)` spell `n`. */
  lemma {:induction false} ShowNatValue(n: nat)
    ensures DigitsValue(ShowNat(n)) == n
  {
    var r := ShowNat(n);
    if n >= 10 {
      ShowNatValue(n / 10);
      assert r[..|r| - 1] == ShowNat(n / 10);
    }
  }

  /** A text without whitespace at its ends is its own `strip()`. */
  lemma StripKeepsTrimmed(s: string)
    requires |s| > 0 && !IsSpace(s[0]) && !IsSpace(s[|s| - 1])
    ensures Strip(s) == s
  {
  }

  /** `int(str(n)) == n` for every integer. */
  lemma ParseShowRoundTrip(n: int)
    ensures ParseInt(ShowInt(n)) == Some(n)
  {
    var t := ShowInt(n);
    var digits := if n < 0 then ShowNat(-n) else ShowNat(n);
    assert !IsSpace(digits[|digits| - 1]);
    if n < 0 {
      assert t[1..] == digits;
      assert t[|t| - 1] == digits[|digits| - 1];
    }
    StripKeepsTrimmed(t);
    ShowNatValue(if n < 0 then -n else n);
  }

  // ---------------------------------------------------------------------------
  // GET /webhook/whatsapp
  // ---------------------------------------------------------------------------

  const SubscribeMode := "subscribe"

  /** The responses of the handshake: the challenge as a number, 403, or 500 when `int()` raises. */
  datatype VerifyOutcome = Challenge(n: int) | Forbidden | ServerError

  function StatusCode(o: VerifyOutcome): nat {
    match o
    case Challenge(_) => 200
    case Forbidden => 403
    case ServerError => 500
  }

  /**
   * `verify_webhook(hub.mode, hub.challenge, hub.verify_token)` against the configured
   * token: the challenge is echoed as a number exactly for a subscription whose token
   * matches; every other request is refused with 403.
   */
  function VerifyWebhook(mode: string, challenge: string, token: string, configured: string): (r: VerifyOutcome)
    ensures r.Challenge? <==> mode == SubscribeMode && token == configured && ParseInt(challenge).Some?
    ensures r.Challenge? ==> r.n == ParseInt(challenge).value
    ensures r == Forbidden <==> !(mode == SubscribeMode && token == configured)
  {
    if mode == SubscribeMode && token == configured then
      match ParseInt(challenge)
      case None => ServerError
      case Some(n) => Challenge(n)
    else
      Forbidden
  }

  /** A matching subscription echoes any numeric challenge, and the response body is its text. */
  lemma ChallengeIsEchoed(n: int, configured: string)
    ensures VerifyWebhook(SubscribeMode, ShowInt(n), configured, configured) == Challenge(n)
  {
    ParseShowRoundTrip(n);
  }

  /** `str(12345)` is "12345". */
  lemma ShowExample()
    ensures ShowInt(12345) == "12345"
  {
    assert ShowNat(1) == "1";
    assert ShowNat(12) == ShowNat(1) + ['2'];
    assert ShowNat(123) == ShowNat(12) + ['3'];
    assert ShowNat(1234) == ShowNat(123) + ['4'];
    assert ShowNat(12345) == ShowNat(1234) + ['5'];
  }

  /** The documented handshake: challenge "12345" comes back as 12345, written "12345". */
  lemma ChallengeExample(configured: string)
    ensures VerifyWebhook(SubscribeMode, "12345", configured, configured) == Challenge(12345)
    ensures ShowInt(12345) == "12345"
  {
    ShowExample();
    ChallengeIsEchoed(12345, configured);
  }

  // ---------------------------------------------------------------------------
  // POST /webhook/whatsapp
  // ---------------------------------------------------------------------------

  /** `WhatsAppService.send_message`: whether the send went through (it raises otherwise). */
  type Deliver = WhatsAppSendMessage -> bool

  /** `sha256(text.encode()).hexdigest()`. */
  type Hash = string -> string

  /** One call the route makes on a collaborator. */
  datatype WebhookEffect =
    | Sent(message: WhatsAppSendMessage)
    | Asked(userMessage: string, sessionId: Option<string>)
    | Saved(phoneHash: string, userText: string, reply: string)

  /** The JSON answers of the route, and the 500 every raised exception becomes. */
  datatype WebhookOutcome = Status(status: string) | InternalError

  const EmergencyHandled := "emergency_handled"
  const Ok := "ok"

  /** The advisory the route sends, as written in the route. */
  const WebhookAdvisory :=
    "Entendi. Seus sintomas podem indicar uma situação de emergência. "
    + "Por favor, procure o pronto-socorro mais próximo ou ligue 192 imediatamente."

  /** The route's advisory is not `EMERGENCY_MESSAGE`: it says "ligue 192", which is shorter. */
  lemma WebhookAdvisoryDiffers()
    ensures WebhookAdvisory != EmergencyMessage
    ensures |EmergencyMessage| == |WebhookAdvisory| + |"para o "|
  {
  }

  /** `payload.entry[0].changes[0].value.messages[0]`, or `None` when any step raises. */
  function FirstMessage(payload: WhatsAppWebhookPayload): (r: Option<WhatsAppMessage>)
    ensures r.Some? <==>
      |payload.entry| > 0 && |payload.entry[0].changes| > 0
      && payload.entry[0].changes[0].value.messages.Some?
      && |payload.entry[0].changes[0].value.messages.value| > 0
    ensures r.Some? ==> r.value == payload.entry[0].changes[0].value.messages.value[0]
  {
    if |payload.entry| == 0 || |payload.entry[0].changes| == 0 then None
    else
      var value := payload.entry[0].changes[0].value;
      if value.messages.None? || |value.messages.value| == 0 then None
      else Some(value.messages.value[0])
  }

  /** `msg.text.body if msg.text else ""`. */
  function UserText(msg: WhatsAppMessage): (r: string)
    ensures msg.text.None? ==> r == ""
    ensures msg.text.Some? ==> r == msg.text.value.body
  {
    if msg.text.Some? then msg.text.value.body else ""
  }

  /** The calls one request makes and its answer. */
  datatype Handling = Handling(effects: seq<WebhookEffect>, outcome: WebhookOutcome)

  /** The collaborators of the route, and the guard it builds. */
  datatype Collaborators = Collaborators(guard: TriageGuard, getReply: Llm.Reply, deliver: Deliver, hash: Hash, salt: string)

  /** The salted hash the route keys the conversation with. */
  function PhoneHash(c: Collaborators, number: string): string {
    c.hash(number + c.salt)
  }

  /**
   * `receive_webhook(payload)`, by its guarantees:
   * - a payload without a first message ends in 500 and calls nothing;
   * - on an emergency the route sends the advisory, then saves the exchange, answers
   *   "emergency_handled", and never asks the model;
   * - otherwise it asks the model with the salted number hash as session, then saves,
   *   then sends the reply, and answers "ok";
   * - whichever call raises ends the request with 500, and nothing after it happens.
   */
  function Receive(c: Collaborators, payload: WhatsAppWebhookPayload): (h: Handling)
    ensures FirstMessage(payload).None? ==> h == Handling([], InternalError)
    ensures FirstMessage(payload).Some? && c.guard.IsEmergency(UserText(FirstMessage(payload).value)) ==>
      var msg := FirstMessage(payload).value;
      var sent := Sent(TextMessage(msg.sender, WebhookAdvisory));
      (forall i :: 0 <= i < |h.effects| ==> !h.effects[i].Asked?)
      && (c.deliver(sent.message) ==>
            h == Handling([sent, Saved(PhoneHash(c, msg.sender), UserText(msg), WebhookAdvisory)], Status(EmergencyHandled)))
      && (!c.deliver(sent.message) ==> h == Handling([sent], InternalError))
    ensures FirstMessage(payload).Some? && !c.guard.IsEmergency(UserText(FirstMessage(payload).value)) ==>
      var msg := FirstMessage(payload).value;
      var asked := Asked(UserText(msg), Some(PhoneHash(c, msg.sender)));
      var answer := c.getReply(UserText(msg), Some(PhoneHash(c, msg.sender)), "");
      |h.effects| >= 1 && h.effects[0] == asked
      && (h.outcome == Status(Ok) <==> answer.Some? && c.deliver(TextMessage(msg.sender, answer.value)))
      && (h.outcome != Status(Ok) ==> h.outcome == InternalError)
      && (answer.None? ==> h == Handling([asked], InternalError))
      && (answer.Some? ==>
            h.effects == [asked, Saved(PhoneHash(c, msg.sender), UserText(msg), answer.value),
                          Sent(TextMessage(msg.sender, answer.value))])
    ensures h.outcome.Status? ==> h.outcome.status == EmergencyHandled || h.outcome.status == Ok
  {
    match FirstMessage(payload)
    case None => Handling([], InternalError)
    case Some(msg) =>
      var text := UserText(msg);
      var phoneHash := PhoneHash(c, msg.sender);
      if c.guard.IsEmergency(text) then
        var message := TextMessage(msg.sender, WebhookAdvisory);
        if !c.deliver(message) then Handling([Sent(message)], InternalError)
        else Handling([Sent(message), Saved(phoneHash, text, WebhookAdvisory)], Status(EmergencyHandled))
      else
        var asked := Asked(text, Some(phoneHash));
        match c.getReply(text, Some(phoneHash), "")
        case None => Handling([asked], InternalError)
        case Some(reply) =>
          var message := TextMessage(msg.sender, reply);
          var effects := [asked, Saved(phoneHash, text, reply), Sent(message)];
          if c.deliver(message) then Handling(effects, Status(Ok)) else Handling(effects, InternalError)
  }

  /** A message without text is handled as the empty text, which is no emergency: the model is asked with "". */
  lemma TextlessMessageAsksWithEmptyText(c: Collaborators, payload: WhatsAppWebhookPayload)
    requires c.guard == NewTriageGuard()
    requires FirstMessage(payload).Some? && FirstMessage(payload).value.text.None?
    ensures var msg := FirstMessage(payload).value;
      Receive(c, payload).effects[0] == Asked("", Some(PhoneHash(c, msg.sender)))
  {
    EmptyIsNotEmergency();
  }

  // ---------------------------------------------------------------------------
  // The save call as written
  // ---------------------------------------------------------------------------

  /** The positional parameters of `PersistenceService.save_message` after `self`. */
  const SaveMessageParameters := ["chat_request", "chat_response"]

  /** Binding positional arguments to `save_message`: `false` when Python raises `TypeError`. */
  predicate BindsToSaveMessage(arguments: seq<string>) {
    |arguments| == |SaveMessageParameters|
  }

  /**
   * `receive_webhook` as written: the save passes three positional arguments
   * (hash, text, reply) to the two-parameter `save_message`, so the call raises
   * `TypeError` before any coroutine exists, and the handler turns it into a 500.
   */
  function ReceiveAsWritten(c: Collaborators, payload: WhatsAppWebhookPayload): Handling {
    match FirstMessage(payload)
    case None => Handling([], InternalError)
    case Some(msg) =>
      var text := UserText(msg);
      var phoneHash := PhoneHash(c, msg.sender);
      if c.guard.IsEmergency(text) then
        var message := TextMessage(msg.sender, WebhookAdvisory);
        if !c.deliver(message) then Handling([Sent(message)], InternalError)
        else if !BindsToSaveMessage([phoneHash, text, WebhookAdvisory]) then Handling([Sent(message)], InternalError)
        else Handling([Sent(message), Saved(phoneHash, text, WebhookAdvisory)], Status(EmergencyHandled))
      else
        var asked := Asked(text, Some(phoneHash));
        match c.getReply(text, Some(phoneHash), "")
        case None => Handling([asked], InternalError)
        case Some(reply) =>
          if !BindsToSaveMessage([phoneHash, text, reply]) then Handling([asked], InternalError)
          else
            var message := TextMessage(msg.sender, reply);
            var effects := [asked, Saved(phoneHash, text, reply), Sent(message)];
            if c.deliver(message) then Handling(effects, Status(Ok)) else Handling(effects, InternalError)
  }

  /**
   * As written, every request ends in 500, nothing is ever saved, and the model's reply
   * is never sent: only the emergency advisory can reach the user.
   */
  lemma AsWrittenEveryRequestFails(c: Collaborators, payload: WhatsAppWebhookPayload)
    ensures var h := ReceiveAsWritten(c, payload);
      h.outcome == InternalError
      && (forall i :: 0 <= i < |h.effects| ==> !h.effects[i].Saved?)
      && (forall i :: 0 <= i < |h.effects| ==>
            h.effects[i].Sent? ==> h.effects[i].message == TextMessage(h.effects[i].message.to, WebhookAdvisory))
  {
  }

  /**
   * The corrected route on a typed payload whose first message is the flow test's
   * chest-pain message, the send succeeding: the answer is "emergency_handled", not "ok".
   */
  lemma ChestPainPayloadIsAnEmergency(c: Collaborators, payload: WhatsAppWebhookPayload)
    requires c.guard == NewTriageGuard()
    requires FirstMessage(payload) == Some(WhatsAppMessage("wamid.test", "5581991113682", "1690000000", "text",
      Some(WhatsAppText("Estou com " + "dor no peito"))))
    requires c.deliver(TextMessage("5581991113682", WebhookAdvisory))
    ensures Receive(c, payload).outcome == Status(EmergencyHandled)
  {
    DetectsVerbatimPhrase("Estou com ", 0, "");
    assert "Estou com " + EmergencyKeywords[0] + "" == "Estou com " + "dor no peito";
  }

  /** The route, with its collaborators, and the calls made so far. */
  class WebhookHandler {
    const collaborators: Collaborators
    var effects: seq<WebhookEffect>

    /** A handler whose guard is `TriageGuard()`, as the route builds on every request. */
    constructor(collaborators: Collaborators)
      requires collaborators.guard == NewTriageGuard()
      ensures this.collaborators == collaborators && effects == []
    {
      this.collaborators := collaborators;
      effects := [];
    }

    /**
     * `receive_webhook(payload)`: extracts the first message, then sends, asks and saves
     * in the order `Receive` gives, each call appended to the log as it is made, and
     * stops at the first call that raises.
     */
    method ReceiveWebhook(payload: WhatsAppWebhookPayload) returns (r: WebhookOutcome)
      modifies this
      ensures effects == old(effects) + Receive(collaborators, payload).effects
      ensures r == Receive(collaborators, payload).outcome
    {
      var first := FirstMessage(payload);
      if first.None? {
        return InternalError;
      }
      var msg := first.value;
      var userText := UserText(msg);
      var phoneHash := PhoneHash(collaborators, msg.sender);
      if collaborators.guard.IsEmergency(userText) {
        var message := TextMessage(msg.sender, WebhookAdvisory);
        effects := effects + [Sent(message)];
        if !collaborators.deliver(message) {
          return InternalError;
        }
        effects := effects + [Saved(phoneHash, userText, WebhookAdvisory)];
        return Status(EmergencyHandled);
      }
      effects := effects + [Asked(userText, Some(phoneHash))];
      var agentReply := collaborators.getReply(userText, Some(phoneHash), "");
      if agentReply.None? {
        return InternalError;
      }
      effects := effects + [Saved(phoneHash, userText, agentReply.value)];
      var message := TextMessage(msg.sender, agentReply.value);
      effects := effects + [Sent(message)];
      if !collaborators.deliver(message) {
        return InternalError;
      }
      r := Status(Ok);
    }
  }
}
