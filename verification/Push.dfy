/**
 From a Pub/Sub push request to the function: the envelope parsed from the request body, the CloudEvent
 data built from it, and what the SDK decodes from that.  Bodies are parsed JSON values.
 */
module Push {
  import opened Wrappers
  import opened Numbers
  import opened Base64

  // Integers are told apart as the JSON library does: `Whole` fits 64 bits without a sign.
  datatype Number = Whole(value: nat) | Other(text: string)

  datatype Json =
    | Null
    | Bool(b: bool)
    | Num(n: Number)
    | Str(s: string)
    | Arr(items: seq<Json>)
    | Obj(fields: map<string, Json>)

  datatype PushError = InvalidJson | NotAnObject | MissingMessage | InvalidBase64

  datatype Envelope = Envelope(
    messageId: string,
    publishTime: string,
    data: seq<Byte>,
    attributes: map<string, string>,
    orderingKey: Option<string>,
    subscription: string,
    deliveryAttempt: Option<nat>)

  // What the surroundings supply: the receipt time, and how the JSON library writes a value that is not
  // a string.
  datatype Surroundings = Surroundings(now: string, render: Json -> string)

  // ---------- Parsing ----------

  function ObjectField(fields: map<string, Json>, key: string): Option<map<string, Json>> {
    if key in fields && fields[key].Obj? then Some(fields[key].fields) else None
  }

  function StringField(fields: map<string, Json>, key: string): Option<string> {
    if key in fields && fields[key].Str? then Some(fields[key].s) else None
  }

  function OrElse<T>(a: Option<T>, b: Option<T>): Option<T> {
    if a.Some? then a else b
  }

  function OrDefault<T>(a: Option<T>, default: T): T {
    if a.Some? then a.value else default
  }

  function AttributeText(v: Json, s: Surroundings): string {
    if v.Str? then v.s else s.render(v)
  }

  function Attributes(message: map<string, Json>, s: Surroundings): map<string, string> {
    var fields := OrDefault(ObjectField(message, "attributes"), map[]);
    map k | k in fields :: AttributeText(fields[k], s)
  }

  // A missing or null `data` is no data; anything but a string in base64 is refused.
  function MessageData(message: map<string, Json>): Option<seq<Byte>> {
    if "data" !in message || message["data"].Null? then Some([])
    else if message["data"].Str? then Decode(message["data"].s)
    else None
  }

  function DeliveryAttempt(root: map<string, Json>): Option<nat> {
    if "deliveryAttempt" in root && root["deliveryAttempt"].Num? && root["deliveryAttempt"].n.Whole?
       && root["deliveryAttempt"].n.value < U32_LIMIT
    then Some(root["deliveryAttempt"].n.value)
    else None
  }

  // `raw` is None when the body is not JSON.
  function ParsePushEnvelope(raw: Option<Json>, s: Surroundings): Result<Envelope, PushError> {
    if raw.None? then Err(InvalidJson)
    else if !raw.value.Obj? then Err(NotAnObject)
    else
      var root := raw.value.fields;
      var message := ObjectField(root, "message");
      if message.None? then Err(MissingMessage)
      else
        var m := message.value;
        var data := MessageData(m);
        if data.None? then Err(InvalidBase64)
        else
          Ok(Envelope(
               OrDefault(OrElse(StringField(m, "messageId"), StringField(m, "message_id")), ""),
               OrDefault(OrElse(StringField(m, "publishTime"), StringField(m, "publish_time")), s.now),
               data.value,
               Attributes(m, s),
               StringField(m, "orderingKey"),
               OrDefault(StringField(root, "subscription"), ""),
               DeliveryAttempt(root)))
  }

  // ---------- The event ----------

  function AttributesJson(attributes: map<string, string>): Json {
    Obj(map k | k in attributes :: Str(attributes[k]))
  }

  function MessageJson(e: Envelope): map<string, Json> {
    map[
      "data" := Str(Encode(e.data)),
      "attributes" := AttributesJson(e.attributes),
      "messageId" := Str(e.messageId),
      "publishTime" := Str(e.publishTime),
      "orderingKey" := Str(OrDefault(e.orderingKey, ""))]
  }

  function EventData(e: Envelope): Json {
    var data := map["message" := Obj(MessageJson(e)), "subscription" := Str(e.subscription)];
    Obj(if e.deliveryAttempt.Some? then data["deliveryAttempt" := Num(Whole(e.deliveryAttempt.value))] else data)
  }

  // Times are instants; `time` is the publish time as far as it can be read.
  datatype Event = Event(id: string, source: string, ty: string, time: int, data: Json)

  // `parseTime` reads an RFC 3339 time; a publish time that is none gives way to the receipt time.
  method ToCloudEvent(e: Envelope, project: string, topic: string, parseTime: string -> Option<int>, receivedAt: int)
    returns (event: Event)
    ensures event.id == e.messageId && event.data == EventData(e)
    ensures event.source == "//pubsub.googleapis.com/projects/" + project + "/topics/" + topic
    ensures event.ty == "google.cloud.pubsub.topic.v1.messagePublished"
    ensures event.time == OrDefault(parseTime(e.publishTime), receivedAt)
  {
    var parsed := parseTime(e.publishTime);
    var time := if parsed.Some? then parsed.value else receivedAt;
    var orderingKey := if e.orderingKey.Some? then e.orderingKey.value else "";
    var message: map<string, Json> := map[];
    message := message["data" := Str(Encode(e.data))];
    message := message["attributes" := AttributesJson(e.attributes)];
    message := message["messageId" := Str(e.messageId)];
    message := message["publishTime" := Str(e.publishTime)];
    message := message["orderingKey" := Str(orderingKey)];
    assert message == MessageJson(e);
    var data: map<string, Json> := map[];
    data := data["message" := Obj(message)];
    data := data["subscription" := Str(e.subscription)];
    if e.deliveryAttempt.Some? {
      data := data["deliveryAttempt" := Num(Whole(e.deliveryAttempt.value))];
    }
    assert Obj(data) == EventData(e);
    event := Event(e.messageId, "//pubsub.googleapis.com/projects/" + project + "/topics/" + topic,
                   "google.cloud.pubsub.topic.v1.messagePublished", time, Obj(data));
  }

  // ---------- The SDK ----------

  datatype Message = Message(
    data: seq<Byte>, attributes: map<string, string>, messageId: string, publishTime: string, orderingKey: string)

  datatype Published = Published(message: Message, subscription: string)

  // A field with a default may be missing, but not of another type.
  function SdkAttributes(message: map<string, Json>): Option<map<string, string>> {
    if "attributes" !in message then Some(map[])
    else if
      && message["attributes"].Obj?
      && forall k <- message["attributes"].fields :: message["attributes"].fields[k].Str?
    then
      var fields := message["attributes"].fields;
      Some(map k | k in fields :: fields[k].s)
    else None
  }

  function SdkOrderingKey(message: map<string, Json>): Option<string> {
    if "orderingKey" !in message then Some("") else StringField(message, "orderingKey")
  }

  function SdkData(message: map<string, Json>): Option<seq<Byte>> {
    var text := StringField(message, "data");
    if text.None? then None else Decode(text.value)
  }

  function DecodeMessage(m: map<string, Json>): Option<Message> {
    match (SdkData(m), SdkAttributes(m), StringField(m, "messageId"), StringField(m, "publishTime"), SdkOrderingKey(m))
    case (Some(data), Some(attributes), Some(id), Some(time), Some(key)) =>
      Some(Message(data, attributes, id, time, key))
    case _ => None
  }

  function DecodePublished(data: Json): Option<Published> {
    if !data.Obj? || ObjectField(data.fields, "message").None? then None
    else
      match (DecodeMessage(ObjectField(data.fields, "message").value), StringField(data.fields, "subscription"))
      case (Some(message), Some(subscription)) => Some(Published(message, subscription))
      case _ => None
  }

  function EncodePublished(p: Published): Json {
    Obj(map[
      "message" := Obj(map[
        "data" := Str(Encode(p.message.data)),
        "attributes" := AttributesJson(p.message.attributes),
        "messageId" := Str(p.message.messageId),
        "publishTime" := Str(p.message.publishTime),
        "orderingKey" := Str(p.message.orderingKey)]),
      "subscription" := Str(p.subscription)])
  }

  // ---------- Round trips ----------

  function Seen(e: Envelope): Published {
    Published(Message(e.data, e.attributes, e.messageId, e.publishTime, OrDefault(e.orderingKey, "")), e.subscription)
  }

  lemma AttributesRoundTrip(attributes: map<string, string>, m: map<string, Json>, s: Surroundings)
    requires "attributes" in m && m["attributes"] == AttributesJson(attributes)
    ensures SdkAttributes(m) == Some(attributes) && Attributes(m, s) == attributes
  {
    var fields := m["attributes"].fields;
    assert (map k | k in fields :: fields[k].s) == attributes;
    assert Attributes(m, s) == attributes;
  }

  lemma MessageRoundTrip(e: Envelope)
    ensures DecodeMessage(MessageJson(e)) == Some(Seen(e).message)
  {
    DecodeEncode(e.data);
    AttributesRoundTrip(e.attributes, MessageJson(e), Surroundings("", x => ""));
  }

  // The function sees what was parsed: the same bytes, attributes, id, time, subscription and ordering key.
  lemma SdkSeesEnvelope(e: Envelope)
    ensures DecodePublished(EventData(e)) == Some(Seen(e))
  {
    MessageRoundTrip(e);
  }

  function WithOrderingKey(e: Envelope): Envelope {
    e.(orderingKey := Some(OrDefault(e.orderingKey, "")))
  }

  lemma MessageFields(e: Envelope, s: Surroundings)
    ensures var m := MessageJson(e);
            && MessageData(m) == Some(e.data)
            && StringField(m, "messageId") == Some(e.messageId)
            && StringField(m, "publishTime") == Some(e.publishTime)
            && StringField(m, "orderingKey") == Some(OrDefault(e.orderingKey, ""))
            && Attributes(m, s) == e.attributes
  {
    DecodeEncode(e.data);
    AttributesRoundTrip(e.attributes, MessageJson(e), s);
  }

  lemma RootFields(e: Envelope)
    requires e.deliveryAttempt.Some? ==> e.deliveryAttempt.value < U32_LIMIT
    ensures var root := EventData(e).fields;
            && ObjectField(root, "message") == Some(MessageJson(e))
            && StringField(root, "subscription") == Some(e.subscription)
            && DeliveryAttempt(root) == e.deliveryAttempt
  {
  }

  // Taken as a push body again, the event's data parses to the same envelope, the ordering key now given.
  lemma ReparsesToItself(e: Envelope, s: Surroundings)
    requires e.deliveryAttempt.Some? ==> e.deliveryAttempt.value < U32_LIMIT
    ensures ParsePushEnvelope(Some(EventData(e)), s) == Ok(WithOrderingKey(e))
  {
    MessageFields(e, s);
    RootFields(e);
  }

  lemma ParsedAttempt(raw: Option<Json>, s: Surroundings)
    requires ParsePushEnvelope(raw, s).Ok?
    ensures var e := ParsePushEnvelope(raw, s).value; e.deliveryAttempt.Some? ==> e.deliveryAttempt.value < U32_LIMIT
  {
  }

  /**
   For every body that is accepted: the SDK gives the function exactly what was parsed; feeding the event's
   data back in is a fixed point after one pass; and if the body had data, the event carries that very text.
   */
  lemma PushRoundTrip(raw: Option<Json>, s: Surroundings, t: Surroundings)
    requires ParsePushEnvelope(raw, s).Ok?
    ensures var e := ParsePushEnvelope(raw, s).value;
            && DecodePublished(EventData(e)) == Some(Seen(e))
            && ParsePushEnvelope(Some(EventData(e)), t) == Ok(WithOrderingKey(e))
            && EventData(WithOrderingKey(e)) == EventData(e)
            && (StringField(raw.value.fields["message"].fields, "data").Some? ==>
                  Encode(e.data) == raw.value.fields["message"].fields["data"].s)
  {
    var e := ParsePushEnvelope(raw, s).value;
    SdkSeesEnvelope(e);
    ParsedAttempt(raw, s);
    ReparsesToItself(e, t);
    var m := raw.value.fields["message"].fields;
    if StringField(m, "data").Some? {
      EncodeDecode(m["data"].s);
    }
  }

  // The field is there, and is a string.
  predicate HasText(fields: map<string, Json>, key: string) {
    key in fields && fields[key].Str?
  }

  // `text` is the string under the first of the two keys that has one, and `default` if neither has.
  predicate FirstText(fields: map<string, Json>, key: string, other: string, default: string, text: string) {
    if HasText(fields, key) then fields[key] == Str(text)
    else if HasText(fields, other) then fields[other] == Str(text)
    else text == default
  }

  // Where every field of an accepted body's envelope comes from.
  lemma ParsedFields(root: map<string, Json>, m: map<string, Json>, s: Surroundings)
    requires "message" in root && root["message"] == Obj(m) && ParsePushEnvelope(Some(Obj(root)), s).Ok?
    ensures var e := ParsePushEnvelope(Some(Obj(root)), s).value;
            && FirstText(m, "messageId", "message_id", "", e.messageId)
            && FirstText(m, "publishTime", "publish_time", s.now, e.publishTime)
            && (e.orderingKey.Some? <==> HasText(m, "orderingKey"))
            && (e.orderingKey.Some? ==> m["orderingKey"] == Str(e.orderingKey.value))
            && (if HasText(root, "subscription") then root["subscription"] == Str(e.subscription)
                else e.subscription == "")
            && (if HasText(m, "data") then m["data"] == Str(Encode(e.data)) else e.data == [])
            && (forall n :: e.deliveryAttempt == Some(n) <==>
                  "deliveryAttempt" in root && root["deliveryAttempt"] == Num(Whole(n)) && n <= 4294967295)
            && AttributesOf(m, s, e.attributes)
  {
    if HasText(m, "data") {
      EncodeDecode(m["data"].s);
    }
  }

  // Attributes that are strings are taken as they are, any others as the JSON library writes them.
  predicate AttributesOf(m: map<string, Json>, s: Surroundings, attributes: map<string, string>) {
    if "attributes" in m && m["attributes"].Obj? then
      var fields := m["attributes"].fields;
      && attributes.Keys == fields.Keys
      && forall k <- fields :: if fields[k].Str? then fields[k] == Str(attributes[k])
                               else attributes[k] == s.render(fields[k])
    else attributes == map[]
  }

  // A body is refused exactly if it is not JSON, not an object, has no message object, or has data other
  // than null that is not the base64 encoding of some bytes; the first of these that applies is the error.
  lemma RefusedExactly(raw: Option<Json>, s: Surroundings)
    ensures ParsePushEnvelope(raw, s) == Err(InvalidJson) <==> raw.None?
    ensures ParsePushEnvelope(raw, s) == Err(NotAnObject) <==> raw.Some? && !raw.value.Obj?
    ensures ParsePushEnvelope(raw, s) == Err(MissingMessage) <==>
              raw.Some? && raw.value.Obj? && !("message" in raw.value.fields && raw.value.fields["message"].Obj?)
    ensures ParsePushEnvelope(raw, s) == Err(InvalidBase64) <==>
              && raw.Some? && raw.value.Obj? && "message" in raw.value.fields && raw.value.fields["message"].Obj?
              && var m := raw.value.fields["message"].fields;
                 "data" in m && !m["data"].Null? && forall bytes: seq<Byte> :: m["data"] != Str(Encode(bytes))
  {
    if raw.Some? && raw.value.Obj? && "message" in raw.value.fields && raw.value.fields["message"].Obj? {
      DataRefusedExactly(raw.value.fields["message"].fields);
    }
  }

  lemma DataRefusedExactly(m: map<string, Json>)
    ensures MessageData(m).None? <==>
              "data" in m && !m["data"].Null? && forall bytes: seq<Byte> :: m["data"] != Str(Encode(bytes))
  {
    if "data" in m && m["data"].Str? {
      forall bytes: seq<Byte> ensures Decode(m["data"].s) == Some(bytes) <==> m["data"].s == Encode(bytes) {
        AcceptsEncodingsOnly(m["data"].s, bytes);
      }
      if MessageData(m).Some? {
        assert m["data"] == Str(Encode(MessageData(m).value));
      }
    }
  }

  // The message's fields are there as strings, the data in base64; attributes and ordering key may be missing.
  predicate MessageReads(m: map<string, Json>, message: Message) {
    && "data" in m && m["data"] == Str(Encode(message.data))
    && "messageId" in m && m["messageId"] == Str(message.messageId)
    && "publishTime" in m && m["publishTime"] == Str(message.publishTime)
    && (if "attributes" in m
        then m["attributes"] == Obj(map k | k in message.attributes :: Str(message.attributes[k]))
        else message.attributes == map[])
    && (if "orderingKey" in m then m["orderingKey"] == Str(message.orderingKey) else message.orderingKey == "")
  }

  lemma AttributesExactly(m: map<string, Json>, attributes: map<string, string>)
    requires "attributes" in m
    ensures SdkAttributes(m) == Some(attributes) <==>
              m["attributes"] == Obj(map k | k in attributes :: Str(attributes[k]))
  {
    var text := map k | k in attributes :: Str(attributes[k]);
    if SdkAttributes(m) == Some(attributes) {
      assert m["attributes"].fields == text;
    }
    assert (map k | k in text :: text[k].s) == attributes;
  }

  lemma MessageDecodesExactly(m: map<string, Json>, message: Message)
    ensures DecodeMessage(m) == Some(message) <==> MessageReads(m, message)
  {
    if HasText(m, "data") {
      AcceptsEncodingsOnly(m["data"].s, message.data);
    }
    if "attributes" in m {
      AttributesExactly(m, message.attributes);
    }
  }

  // What the SDK accepts, and as what.
  lemma SdkDecodesExactly(data: Json, p: Published)
    ensures DecodePublished(data) == Some(p) <==>
              && data.Obj? && "message" in data.fields && data.fields["message"].Obj?
              && MessageReads(data.fields["message"].fields, p.message)
              && "subscription" in data.fields && data.fields["subscription"] == Str(p.subscription)
  {
    if data.Obj? && "message" in data.fields && data.fields["message"].Obj? {
      MessageDecodesExactly(data.fields["message"].fields, p.message);
    }
  }

  // What the SDK encodes it decodes, and what it decodes of an event without a delivery attempt it encodes
  // to the same data.
  lemma SdkRoundTrip(p: Published, e: Envelope)
    ensures DecodePublished(EncodePublished(p)) == Some(p)
    ensures e.deliveryAttempt.None? ==> EncodePublished(Seen(e)) == EventData(e)
  {
    var m := EncodePublished(p).fields["message"].fields;
    DecodeEncode(p.message.data);
    AttributesRoundTrip(p.message.attributes, m, Surroundings("", x => ""));
  }
}
