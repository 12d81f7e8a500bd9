/**
 * The request and response records of app/schemas/chat.py. The wall clock that fills
 * in a missing response timestamp is a parameter (`now`), timestamps being counter values.
 */
module ChatSchemas {
  import opened Wrappers

  /** `Literal["whatsapp", "web"]`. */
  datatype Channel = WhatsApp | Web

  function ChannelName(c: Channel): string {
    match c
    case WhatsApp => "whatsapp"
    case Web => "web"
  }

  /** The literal a given channel string must be. */
  function ParseChannel(s: string): (r: Option<Channel>)
    ensures r.Some? ==> ChannelName(r.value) == s
  {
    if s == "whatsapp" then Some(WhatsApp)
    else if s == "web" then Some(Web)
    else None
  }

  datatype ChatRequest = ChatRequest(
    conversationId: Option<string>,
    userId: Option<string>,
    channel: Option<Channel>,
    message: string)

  datatype ChatResponse = ChatResponse(
    conversationId: Option<string>,
    response: Option<string>,
    timestamp: nat)

  const ChannelKey := "channel"
  const MessageKey := "message"

  /**
   * The channel field: its default `None` is not validated, so leaving it out gives
   * `None`, but an explicit `None` or any other text than the two literals is rejected.
   */
  predicate ChannelAccepted(x: Input<string>) {
    x.Omitted? || (x.Given? && ParseChannel(x.value).Some?)
  }

  function ChannelValue(x: Input<string>): Option<Channel> {
    if x.Given? then ParseChannel(x.value) else None
  }

  /**
   * `ChatRequest(...)`: the conversation and user ids are optional, the channel is one of
   * the two literals or left out, and the message is required and may not be `None`.
   */
  function NewChatRequest(conversationId: Input<string>, userId: Input<string>, channel: Input<string>, message: Input<string>)
    : (r: Result<ChatRequest, ValidationError>)
    ensures r.Success? <==> ChannelAccepted(channel) && message.Given?
    ensures r.Success? ==>
      r.value.message == message.value
      && r.value.conversationId == conversationId.AsOptional()
      && r.value.userId == userId.AsOptional()
      && (channel.Given? ==> r.value.channel.Some? && ChannelName(r.value.channel.value) == channel.value)
      && (channel.Omitted? ==> r.value.channel == None)
    ensures r.Failure? ==>
      (ChannelKey in r.error.fields <==> !ChannelAccepted(channel))
      && (MessageKey in r.error.fields <==> !message.Given?)
  {
    var errors := (if ChannelAccepted(channel) then [] else [ChannelKey])
      + (if message.Given? then [] else [MessageKey]);
    if errors == [] then
      Success(ChatRequest(conversationId.AsOptional(), userId.AsOptional(), ChannelValue(channel), message.value))
    else
      Failure(ValidationError(errors))
  }

  /** `ChatResponse(...)`: optional id and response; a left-out timestamp is `now`, a `None` one is rejected. */
  function NewChatResponse(conversationId: Input<string>, response: Input<string>, timestamp: Input<nat>, now: nat)
    : (r: Result<ChatResponse, ValidationError>)
    ensures r.Success? <==> !timestamp.Null?
    ensures r.Success? ==>
      r.value.conversationId == conversationId.AsOptional()
      && r.value.response == response.AsOptional()
      && r.value.timestamp == (if timestamp.Given? then timestamp.value else now)
    ensures r.Failure? ==> r.error.fields == [TimestampKey]
  {
    match timestamp
    case Null => Failure(ValidationError([TimestampKey]))
    case Omitted => Success(ChatResponse(conversationId.AsOptional(), response.AsOptional(), now))
    case Given(t) => Success(ChatResponse(conversationId.AsOptional(), response.AsOptional(), t))
  }

  /** Naming a channel and reading the name back are inverse. */
  lemma ChannelNameRoundTrip(c: Channel, s: string)
    ensures ParseChannel(ChannelName(c)) == Some(c)
    ensures ParseChannel(s) == Some(c) ==> s == ChannelName(c)
  {
  }

  /** A request's own fields, given explicitly (absent ids as `None`). */
  function RequestFields(req: ChatRequest): (Input<string>, Input<string>, Input<string>, Input<string>) {
    (if req.conversationId.Some? then Given(req.conversationId.value) else Null,
     if req.userId.Some? then Given(req.userId.value) else Null,
     if req.channel.Some? then Given(ChannelName(req.channel.value)) else Omitted,
     Given(req.message))
  }

  /** Every request is rebuilt unchanged from its own fields. */
  lemma RequestFieldsRoundTrip(req: ChatRequest)
    ensures var (c, u, ch, m) := RequestFields(req); NewChatRequest(c, u, ch, m) == Success(req)
  {
    var (c, u, ch, m) := RequestFields(req);
    var r := NewChatRequest(c, u, ch, m);
    if req.channel.Some? {
      ChannelNameRoundTrip(req.channel.value, ChannelName(req.channel.value));
    }
    assert r.Success?;
  }

  /** The optional fields default to `None`; only the message is needed. */
  lemma RequestDefaults(message: string)
    ensures NewChatRequest(Omitted, Omitted, Omitted, Given(message)) == Success(ChatRequest(None, None, None, message))
    ensures NewChatRequest(Omitted, Omitted, Omitted, Omitted).Failure?
    ensures NewChatRequest(Omitted, Omitted, Null, Given(message)).Failure?
  {
  }

  /** Supplied values are kept: the documented request with id "conv123" on the web channel. */
  lemma RequestKeepsValues()
    ensures var r := NewChatRequest(Given("conv123"), Given("user123"), Given("web"), Given("Tenho dor de cabeça há 2 dias"));
      r == Success(ChatRequest(Some("conv123"), Some("user123"), Some(Web), "Tenho dor de cabeça há 2 dias"))
  {
  }

  /**
   * A request with a channel and a message but no conversation id is accepted, since
   * the id is optional: a rejection expected for it cannot happen.
   */
  lemma RequestWithoutIdIsAccepted()
    ensures NewChatRequest(Omitted, Omitted, Given("web"), Given("Teste")).Success?
  {
  }

  /** A response built without a timestamp carries the current time, and defaults its other fields to `None`. */
  lemma ResponseDefaults(now: nat)
    ensures NewChatResponse(Omitted, Omitted, Omitted, now) == Success(ChatResponse(None, None, now))
    ensures NewChatResponse(Given("conv123"), Given("Tudo bem, me conte mais"), Omitted, now).value.timestamp == now
  {
  }
}
