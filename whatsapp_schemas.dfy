/**
 * The WhatsApp Cloud API records of app/schemas/whatsapp.py: the incoming webhook
 * payload, and the outgoing text message with its constant fields and root validator.
 * The schema is written for pydantic 1 (`Field(..., const=True)`, `root_validator`).
 * The rest of the program uses pydantic 2, under which these declarations fail while
 * the class is defined; the model states their pydantic-1 meaning.
 */
module WhatsAppSchemas {
  import opened Wrappers

  datatype WhatsAppProfile = WhatsAppProfile(name: Option<string>)

  datatype WhatsAppContact = WhatsAppContact(waId: string, profile: Option<WhatsAppProfile>)

  datatype WhatsAppText = WhatsAppText(body: string)

  /** An incoming message; `sender` is the field `from_`, read from the key "from". */
  datatype WhatsAppMessage = WhatsAppMessage(
    id: string,
    sender: string,
    timestamp: string,
    kind: string,
    text: Option<WhatsAppText>)

  datatype WhatsAppChangeValue = WhatsAppChangeValue(
    messagingProduct: string,
    metadata: map<string, string>,
    contacts: Option<seq<WhatsAppContact>>,
    messages: Option<seq<WhatsAppMessage>>)

  datatype WhatsAppChange = WhatsAppChange(field: string, value: WhatsAppChangeValue)

  datatype WhatsAppEntry = WhatsAppEntry(id: string, changes: seq<WhatsAppChange>)

  datatype WhatsAppWebhookPayload = WhatsAppWebhookPayload(objectName: string, entry: seq<WhatsAppEntry>)

  // ---------------------------------------------------------------------------
  // Reading an incoming message from its JSON object
  // ---------------------------------------------------------------------------

  /** A decoded JSON value. */
  datatype Json = JString(s: string) | JNumber(n: int) | JBool(b: bool) | JNull | JObject(members: map<string, Json>)

  const IdKey := "id"
  const FromKey := "from"
  const TypeKey := "type"
  const TextKey := "text"
  const BodyKey := "body"

  /** A required `str` field: present and a string. */
  function StrField(obj: map<string, Json>, key: string): Option<string> {
    if key in obj && obj[key].JString? then Some(obj[key].s) else None
  }

  /** `text: Optional[WhatsAppText] = None`: absent or `null` gives `None`, an object needs a string body. */
  function MessageTextField(obj: map<string, Json>): Option<Option<WhatsAppText>> {
    if TextKey !in obj || obj[TextKey].JNull? then Some(None)
    else if obj[TextKey].JObject? && StrField(obj[TextKey].members, BodyKey).Some? then
      Some(Some(WhatsAppText(StrField(obj[TextKey].members, BodyKey).value)))
    else None
  }

  /** The keys whose value is rejected, in declaration order (the sender under its alias). */
  function MessageErrors(obj: map<string, Json>): seq<string> {
    (if StrField(obj, IdKey).None? then [IdKey] else [])
    + (if StrField(obj, FromKey).None? then [FromKey] else [])
    + (if StrField(obj, TimestampKey).None? then [TimestampKey] else [])
    + (if StrField(obj, TypeKey).None? then [TypeKey] else [])
    + (if MessageTextField(obj).None? then [TextKey] else [])
  }

  /**
   * `WhatsAppMessage.parse_obj(obj)`: the four strings are required, the sender is read
   * from the key "from" only, and the text may be left out.
   */
  function NewWhatsAppMessage(obj: map<string, Json>): (r: Result<WhatsAppMessage, ValidationError>)
    ensures r.Success? <==>
      StrField(obj, IdKey).Some? && StrField(obj, FromKey).Some? && StrField(obj, TimestampKey).Some?
      && StrField(obj, TypeKey).Some? && MessageTextField(obj).Some?
    ensures r.Success? ==>
      r.value.id == obj[IdKey].s && r.value.sender == obj[FromKey].s
      && r.value.timestamp == obj[TimestampKey].s && r.value.kind == obj[TypeKey].s
      && (r.value.text.None? <==> TextKey !in obj || obj[TextKey] == JNull)
      && (r.value.text.Some? ==> r.value.text.value.body == obj[TextKey].members[BodyKey].s)
    ensures r.Failure? ==> (FromKey in r.error.fields <==> StrField(obj, FromKey).None?)
  {
    var errors := MessageErrors(obj);
    if errors == [] then
      Success(WhatsAppMessage(
        StrField(obj, IdKey).value, StrField(obj, FromKey).value, StrField(obj, TimestampKey).value,
        StrField(obj, TypeKey).value, MessageTextField(obj).value))
    else
      Failure(ValidationError(errors))
  }

  /** The JSON object of a message (`.dict(by_alias=True)`), the text left out when absent. */
  function MessageObject(m: WhatsAppMessage): map<string, Json> {
    var fields := map[IdKey := JString(m.id), FromKey := JString(m.sender),
                      TimestampKey := JString(m.timestamp), TypeKey := JString(m.kind)];
    if m.text.Some? then fields[TextKey := JObject(map[BodyKey := JString(m.text.value.body)])] else fields
  }

  /** Reading back a message's own object gives the message. */
  lemma MessageObjectRoundTrip(m: WhatsAppMessage)
    ensures NewWhatsAppMessage(MessageObject(m)) == Success(m)
  {
    var obj := MessageObject(m);
    assert StrField(obj, IdKey) == Some(m.id);
    assert StrField(obj, FromKey) == Some(m.sender);
    assert StrField(obj, TimestampKey) == Some(m.timestamp);
    assert StrField(obj, TypeKey) == Some(m.kind);
    if m.text.Some? {
      assert StrField(obj[TextKey].members, BodyKey) == Some(m.text.value.body);
    }
    assert MessageTextField(obj) == Some(m.text);
  }

  /** A message under the field's own name "from_" and not under "from" is rejected. */
  lemma SenderIsReadFromAlias(obj: map<string, Json>)
    requires "from_" in obj && FromKey !in obj
    ensures NewWhatsAppMessage(obj).Failure?
  {
  }

  /** A message may leave its text out. */
  lemma TextMayBeLeftOut(id: string, sender: string, timestamp: string, kind: string)
    ensures var obj := map[IdKey := JString(id), FromKey := JString(sender),
                           TimestampKey := JString(timestamp), TypeKey := JString(kind)];
      NewWhatsAppMessage(obj) == Success(WhatsAppMessage(id, sender, timestamp, kind, None))
  {
    MessageObjectRoundTrip(WhatsAppMessage(id, sender, timestamp, kind, None));
  }

  // ---------------------------------------------------------------------------
  // WhatsAppSendMessage
  // ---------------------------------------------------------------------------

  datatype WhatsAppSendMessage = WhatsAppSendMessage(
    messagingProduct: string,
    to: string,
    kind: string,
    text: WhatsAppText)

  const MessagingProduct := "whatsapp"
  const TextType := "text"
  const MessagingProductKey := "messaging_product"
  const ToKey := "to"
  const RootKey := "__root__"

  /** A `Field(default, const=True)` of type `str`: left out gives the default; a given value must be it. */
  function ConstField(x: Input<string>, default: string): Option<string> {
    match x
    case Omitted => Some(default)
    case Null => None
    case Given(v) => if v == default then Some(v) else None
  }

  /**
   * The root validator, over the fields that validated: it rejects a message whose
   * `type` is "text" and whose `text` is missing. A `WhatsAppText` instance is always truthy.
   */
  predicate RootRejects(kind: Option<string>, text: Input<WhatsAppText>) {
    kind == Some(TextType) && !text.Given?
  }

  function SendErrors(product: Input<string>, to: Input<string>, kind: Input<string>, text: Input<WhatsAppText>): seq<string> {
    (if ConstField(product, MessagingProduct).None? then [MessagingProductKey] else [])
    + (if !to.Given? then [ToKey] else [])
    + (if ConstField(kind, TextType).None? then [TypeKey] else [])
    + (if !text.Given? then [TextKey] else [])
    + (if RootRejects(ConstField(kind, TextType), text) then [RootKey] else [])
  }

  /**
   * `WhatsAppSendMessage(...)`: `to` and `text` are required; `messaging_product` and
   * `type` cannot be anything but "whatsapp" and "text"; the root validator reports a
   * text message without text.
   */
  function NewSendMessage(product: Input<string>, to: Input<string>, kind: Input<string>, text: Input<WhatsAppText>)
    : (r: Result<WhatsAppSendMessage, ValidationError>)
    ensures r.Success? <==>
      ConstField(product, MessagingProduct).Some? && to.Given? && ConstField(kind, TextType).Some? && text.Given?
    ensures r.Success? ==>
      r.value == WhatsAppSendMessage(MessagingProduct, to.value, TextType, text.value)
    ensures r.Failure? ==>
      (RootKey in r.error.fields <==> ConstField(kind, TextType).Some? && !text.Given?)
  {
    var errors := SendErrors(product, to, kind, text);
    if errors == [] then
      Success(WhatsAppSendMessage(MessagingProduct, to.value, TextType, text.value))
    else
      Failure(ValidationError(errors))
  }

  /** `WhatsAppSendMessage(to=to, text={"body": body})`: always accepted, with the constant fields. */
  function TextMessage(to: string, body: string): (m: WhatsAppSendMessage)
    ensures NewSendMessage(Omitted, Given(to), Omitted, Given(WhatsAppText(body))) == Success(m)
    ensures m.messagingProduct == MessagingProduct && m.kind == TextType
    ensures m.to == to && m.text.body == body
  {
    WhatsAppSendMessage(MessagingProduct, to, TextType, WhatsAppText(body))
  }

  /** The documented defaults: product "whatsapp", type "text", the body kept. */
  lemma SendMessageDefaults()
    ensures var r := NewSendMessage(Omitted, Given("5581991113682"), Omitted, Given(WhatsAppText("Olá")));
      r.Success? && r.value.messagingProduct == "whatsapp" && r.value.kind == "text"
      && r.value.text.body == "Olá"
  {
  }

  /** A text message without text is rejected by the root validator, whether `type` is left out or given. */
  lemma TextTypeNeedsText(to: Input<string>, text: Input<WhatsAppText>)
    requires !text.Given?
    ensures NewSendMessage(Omitted, to, Omitted, text).Failure?
    ensures RootKey in NewSendMessage(Omitted, to, Omitted, text).error.fields
    ensures RootKey in NewSendMessage(Omitted, to, Given(TextType), text).error.fields
  {
  }

  /** The constant fields refuse any other value. */
  lemma ConstantsCannotChange(product: string, kind: string, to: string, text: WhatsAppText)
    requires product != MessagingProduct || kind != TextType
    ensures NewSendMessage(Given(product), Given(to), Given(kind), Given(text)).Failure?
  {
  }
}
