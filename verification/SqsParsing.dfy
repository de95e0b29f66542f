/** Recognising and unwrapping what arrives on an SQS queue. */
module SqsParsing {
  import opened Common
  import opened Messages
  import opened Publishers
  import opened Text
  import Base64
  import ServiceHandler

  /** A queue message; an attribute without a string value maps to None. */
  datatype SqsMessage = SqsMessage(
    messageId: string,
    receiptHandle: string,
    body: Bytes,
    attributes: map<string, Option<string>>,
    receiveCount: Option<string>
  )

  datatype EventBridgeWrapper = EventBridgeWrapper(detail: Bytes, detailType: string)

  datatype SnsWrapper = SnsWrapper(kind: string, message: Bytes, topicArn: string)

  /** The envelopes of the transports, as JSON readers and the one writer that matters here; `nameId` is the SHA-1 UUID. */
  datatype Formats = Formats(
    eventBridge: Bytes -> Option<EventBridgeWrapper>,
    sns: Bytes -> Option<SnsWrapper>,
    envelope: PutEventEntry -> Bytes,
    nameId: string -> string
  )

  /** EventBridge delivers an entry's detail and detail type as they were put. */
  ghost predicate EnvelopeCarries(f: Formats) {
    forall e :: f.eventBridge(f.envelope(e)) == Some(EventBridgeWrapper(e.detail, e.detailType))
  }

  datatype ParseError =
    | BadServiceName
    | UnsupportedContentType
    | BadBase64
    | UnknownDetailType
    | BadO5Message
    | BadTopicArn
    | UnsupportedFormat

  const CONTENT_TYPE := "Content-Type"
  const SERVICE := "grpc-service"
  const GRPC_MESSAGE := "grpc-message"

  function Attribute(msg: SqsMessage, name: string): Option<string> {
    if name in msg.attributes then msg.attributes[name] else None
  }

  predicate IsBlank(b: byte) {
    b == 32 || b == 9 || b == 10
  }

  function TrimLeft(b: Bytes): Bytes {
    if b != [] && IsBlank(b[0]) then TrimLeft(b[1..]) else b
  }

  function TrimRight(b: Bytes): Bytes {
    if b != [] && IsBlank(b[|b| - 1]) then TrimRight(b[..|b| - 1]) else b
  }

  predicate LooksLikeJson(body: Bytes) {
    var b := TrimRight(TrimLeft(body));
    b != [] && ((b[0] == 123 && b[|b| - 1] == 125) || (b[0] == 91 && b[|b| - 1] == 93))
  }

  predicate IsNotification(w: SnsWrapper) {
    w.kind == "Notification" && HasPrefix(w.topicArn, "arn:aws:sns:")
  }

  /** The SNS notification a body holds, if it holds one. */
  function SnsContent(f: Formats, body: Bytes): Option<Bytes> {
    if LooksLikeJson(body) && f.sns(body).Some? && IsNotification(f.sns(body).value) then Some(f.sns(body).value.message) else None
  }

  function ContentTypeEncoding(contentType: string): Option<Encoding> {
    if contentType == "application/json" then Some(ProtoJson)
    else if contentType == "application/protobuf" || contentType == "" then Some(Unspecified)
    else None
  }

  function GuessedEncoding(body: Bytes): Encoding {
    if LooksLikeJson(body) then ProtoJson else Unspecified
  }

  /** Encoding and value of a service message before a nested notification is looked for. */
  function OuterBody(msg: SqsMessage): Result<(Encoding, Bytes), ParseError> {
    match Attribute(msg, CONTENT_TYPE)
    case Some(contentType) =>
      (match ContentTypeEncoding(contentType)
       case None => Err(UnsupportedContentType)
       case Some(encoding) => Ok((encoding, msg.body)))
    case None =>
      if LooksLikeJson(msg.body) then Ok((ProtoJson, msg.body))
      else match Base64.Decode(msg.body)
        case None => Err(BadBase64)
        case Some(decoded) => Ok((Unspecified, decoded))
  }

  /** What parseServiceMessage makes of a message with a service attribute. */
  function ServiceMessage(f: Formats, msg: SqsMessage, serviceName: string): Result<Message, ParseError> {
    var parts := Split(serviceName, '/');
    if |parts| != 3 then Err(BadServiceName)
    else match OuterBody(msg)
      case Err(e) => Err(e)
      case Ok((encoding, body)) =>
        var inner := SnsContent(f, body);
        var value := if inner.Some? then inner.value else body;
        var actual := if inner.Some? && Attribute(msg, CONTENT_TYPE).None? then GuessedEncoding(value) else encoding;
        var typeUrl := match Attribute(msg, GRPC_MESSAGE) case None => "" case Some(name) => TYPE_URL_PREFIX + name;
        Ok(Message(f.nameId(msg.messageId), parts[1], parts[2], Some(Body(typeUrl, actual, value)), "", "", "", map[], NoExtension))
  }

  method ParseServiceMessage(f: Formats, msg: SqsMessage, serviceName: string) returns (r: Result<Message, ParseError>)
    ensures r == ServiceMessage(f, msg, serviceName)
  {
    var parts := Split(serviceName, '/');
    if |parts| != 3 {
      return Err(BadServiceName);
    }
    var body := msg.body;
    var encoding := Unspecified;
    var encodingSpecified := false;
    var contentType := Attribute(msg, CONTENT_TYPE);
    if contentType.Some? {
      encodingSpecified := true;
      if contentType.value == "application/json" {
        encoding := ProtoJson;
      } else if contentType.value == "application/protobuf" || contentType.value == "" {
        encoding := Unspecified;
      } else {
        return Err(UnsupportedContentType);
      }
    } else if LooksLikeJson(body) {
      encoding := ProtoJson;
    } else {
      var decoded := Base64.Decode(body);
      if decoded == None {
        return Err(BadBase64);
      }
      body := decoded.value;
    }
    if LooksLikeJson(body) {
      var wrapper := f.sns(body);
      if wrapper.Some? && IsNotification(wrapper.value) {
        body := wrapper.value.message;
        if !encodingSpecified {
          encoding := GuessedEncoding(body);
        }
      }
    }
    var typeUrl := "";
    if Attribute(msg, GRPC_MESSAGE).Some? {
      typeUrl := TYPE_URL_PREFIX + Attribute(msg, GRPC_MESSAGE).value;
    }
    return Ok(Message(f.nameId(msg.messageId), parts[1], parts[2], Some(Body(typeUrl, encoding, body)), "", "", "", map[], NoExtension));
  }

  function ParseSqsMessage(f: Formats, codec: Codec, msg: SqsMessage): Result<Message, ParseError> {
    if Attribute(msg, SERVICE).Some? then ServiceMessage(f, msg, Attribute(msg, SERVICE).value)
    else
      var wrapper := f.eventBridge(msg.body);
      if wrapper.Some? && wrapper.value.detailType != "" then
        if wrapper.value.detailType != DETAIL_TYPE then Err(UnknownDetailType)
        else match codec.messageDecode(wrapper.value.detail)
          case None => Err(BadO5Message)
          case Some(m) => Ok(m)
      else
        var sns := f.sns(msg.body);
        if sns.Some? && IsNotification(sns.value) then
          var parts := Split(sns.value.topicArn, ':');
          if |parts| != 6 then Err(BadTopicArn)
          else Ok(Message(msg.messageId, "o5.messaging.v1.topic.RawMessageTopic", "Raw", Some(Body("", Raw, sns.value.message)),
                          "", "", parts[5], map[], NoExtension))
        else match codec.messageDecode(msg.body)
          case None => Err(UnsupportedFormat)
          case Some(m) => Ok(m)
  }

  /** What the outbox put on the bus is what the worker gets, field by field. */
  lemma EventBridgeRoundTrip(f: Formats, codec: Codec, busArn: string, m: Message, msg: SqsMessage)
    requires EnvelopeCarries(f) && MessageCodecInverts(codec)
    requires BuildPutEventEntry(codec, busArn, m).Some?
    requires msg.body == f.envelope(BuildPutEventEntry(codec, busArn, m).value)
    requires Attribute(msg, SERVICE) == None
    ensures ParseSqsMessage(f, codec, msg) == Ok(m)
  {
  }

  /** Base64 text is never mistaken for JSON. */
  lemma Base64NeverLooksLikeJson(x: Bytes)
    ensures !LooksLikeJson(Base64.Encode(x))
  {
    var s := Base64.Encode(x);
    Base64.EncodeIsText(x);
    if s != [] {
      assert Base64.IsText(s[0]) && Base64.IsText(s[|s| - 1]);
      assert TrimLeft(s) == s && TrimRight(s) == s;
    }
  }

  /**
   A service message whose body is base64 of `x`, without a content type, yields
   exactly `x`, unless `x` is itself an SNS notification: then it yields the
   notification's message.
   */
  lemma Base64BodyIsRecovered(f: Formats, msg: SqsMessage, serviceName: string, x: Bytes)
    requires msg.body == Base64.Encode(x) && Attribute(msg, CONTENT_TYPE) == None
    requires |Split(serviceName, '/')| == 3
    ensures ServiceMessage(f, msg, serviceName).Ok?
    ensures var body := ServiceMessage(f, msg, serviceName).value.body.value;
            && (SnsContent(f, x).None? ==> body.value == x && body.encoding == Unspecified)
            && (SnsContent(f, x).Some? ==> body.value == SnsContent(f, x).value && body.encoding == GuessedEncoding(body.value))
  {
    Base64NeverLooksLikeJson(x);
    Base64.DecodeEncode(x);
  }

  /** Service and method are the two names of the attribute "/service/method". */
  lemma ServiceNameIsSplit(f: Formats, msg: SqsMessage, service: string, grpcMethod: string)
    requires '/' !in service && '/' !in grpcMethod && OuterBody(msg).Ok?
    ensures ServiceMessage(f, msg, "/" + service + "/" + grpcMethod).Ok?
    ensures ServiceMessage(f, msg, "/" + service + "/" + grpcMethod).value.grpcService == service
    ensures ServiceMessage(f, msg, "/" + service + "/" + grpcMethod).value.grpcMethod == grpcMethod
  {
    var name := "/" + service + "/" + grpcMethod;
    assert name == "" + ['/'] + (service + ['/'] + grpcMethod);
    SplitFirst("", service + ['/'] + grpcMethod, '/');
    SplitFirst(service, grpcMethod, '/');
    SplitWhole(grpcMethod, '/');
    assert Split(name, '/') == ["", service, grpcMethod];
  }

  /**
   How the content type decides what the application decodes, for a service
   message that wraps no notification: as JSON, as the bytes themselves, or,
   without a content type, as JSON when it looks so and from base64 otherwise.
   */
  lemma ContentTypeDecidesDecoding(f: Formats, codec: Codec, d: Descriptor, msg: SqsMessage, serviceName: string)
    requires |Split(serviceName, '/')| == 3
    requires Attribute(msg, GRPC_MESSAGE) == None || Attribute(msg, GRPC_MESSAGE) == Some(d.fullName)
    requires OuterBody(msg).Ok? && SnsContent(f, OuterBody(msg).value.1) == None
    ensures ServiceMessage(f, msg, serviceName).Ok?
    ensures var delivered := ServiceHandler.ParsedBody(codec, d, ServiceMessage(f, msg, serviceName).value);
            var asJson, contentType := codec.protoJsonDecode(d, msg.body), Attribute(msg, CONTENT_TYPE);
            if contentType == Some("application/json") || (contentType == None && LooksLikeJson(msg.body)) then
              delivered == HandedOver(asJson)
            else if contentType.Some? then delivered == HandedOver(codec.protoDecode(d, msg.body))
            else Base64.Decode(msg.body).Some? && delivered == HandedOver(codec.protoDecode(d, Base64.Decode(msg.body).value))
  {
    hide LooksLikeJson, Base64.Decode, SnsContent, Split;
    var m := ServiceMessage(f, msg, serviceName).value;
    assert m.body.value.typeUrl == "" || m.body.value.typeUrl == TYPE_URL_PREFIX + d.fullName;
  }

  /** What the application gets of a decoded body. */
  function HandedOver(v: Option<Value>): Result<ServiceHandler.RequestBody, ServiceHandler.HandlerError> {
    match v
    case None => Err(ServiceHandler.Undecodable)
    case Some(value) => Ok(ServiceHandler.Dynamic(value))
  }

  /**
   An SNS notification outside a service message, also where the event-bus reader
   makes an empty wrapper of it, is accepted exactly when its topic ARN has six parts,
   and then reaches its handler as the raw message under the topic's own name.
   */
  lemma NotificationReachesHandlerRaw(f: Formats, codec: Codec, d: Descriptor, msg: SqsMessage, w: SnsWrapper)
    requires Attribute(msg, SERVICE) == None && f.sns(msg.body) == Some(w) && IsNotification(w)
    requires f.eventBridge(msg.body).Some? ==> f.eventBridge(msg.body).value.detailType == ""
    ensures ParseSqsMessage(f, codec, msg).Ok? <==> |Split(w.topicArn, ':')| == 6
    ensures ParseSqsMessage(f, codec, msg).Ok? ==>
              ServiceHandler.ParsedBody(codec, d, ParseSqsMessage(f, codec, msg).value)
              == Ok(ServiceHandler.RawMessage(Split(w.topicArn, ':')[5], w.message))
  {
  }

  /** Which service messages are accepted: three parts in the name, and a known content type, or none and a JSON look or base64. */
  lemma ServiceMessageAcceptedIff(f: Formats, msg: SqsMessage, serviceName: string)
    ensures ServiceMessage(f, msg, serviceName).Ok? <==>
              |Split(serviceName, '/')| == 3 &&
              match Attribute(msg, "Content-Type")
              case Some(t) => t == "application/json" || t == "application/protobuf" || t == ""
              case None => LooksLikeJson(msg.body) || Base64.Decode(msg.body).Some?
  {
  }

  /** The identity of a service message: its id is derived from the queue's, its type is the attribute's, and it asks for no reply. */
  lemma ServiceMessageFields(f: Formats, msg: SqsMessage, serviceName: string)
    requires ServiceMessage(f, msg, serviceName).Ok?
    ensures var m := ServiceMessage(f, msg, serviceName).value;
            && m.messageId == f.nameId(msg.messageId) && m.extension == NoExtension && m.body.Some?
            && m.body.value.typeUrl ==
                 match Attribute(msg, "grpc-message") case Some(name) => "type.googleapis.com/" + name case None => ""
  {
  }

  /**
   A service message that is an SNS notification, as it stands or in base64, is unwrapped:
   its value is the notification's message, in the encoding the content type says or,
   without one, as JSON when it looks so and as binary otherwise.
   */
  lemma ServiceMessageIsUnwrapped(f: Formats, msg: SqsMessage, serviceName: string, body: Bytes, w: SnsWrapper)
    requires ServiceMessage(f, msg, serviceName).Ok?
    requires body == msg.body
          || (Attribute(msg, "Content-Type") == None && !LooksLikeJson(msg.body) && Base64.Decode(msg.body) == Some(body))
    requires LooksLikeJson(body) && f.sns(body) == Some(w) && w.kind == "Notification" && "arn:aws:sns:" <= w.topicArn
    ensures var m := ServiceMessage(f, msg, serviceName).value.body.value;
            && m.value == w.message
            && m.encoding ==
                 match Attribute(msg, "Content-Type")
                 case Some(t) => if t == "application/json" then ProtoJson else Unspecified
                 case None => if LooksLikeJson(w.message) then ProtoJson else Unspecified
  {
  }

  /** The order in which a queue message is recognised: by its service attribute, by an event-bus detail type, as a notification, or as a bare o5 message. */
  lemma RecognisedInOrder(f: Formats, codec: Codec, msg: SqsMessage)
    ensures Attribute(msg, "grpc-service").Some? ==>
              ParseSqsMessage(f, codec, msg) == ServiceMessage(f, msg, Attribute(msg, "grpc-service").value)
    ensures Attribute(msg, "grpc-service") == None && f.eventBridge(msg.body).Some? && f.eventBridge(msg.body).value.detailType != "" ==>
              var w := f.eventBridge(msg.body).value;
              && (ParseSqsMessage(f, codec, msg).Ok? <==> w.detailType == "o5-message/v1" && codec.messageDecode(w.detail).Some?)
              && (ParseSqsMessage(f, codec, msg).Ok? ==> codec.messageDecode(w.detail) == Some(ParseSqsMessage(f, codec, msg).value))
    ensures Attribute(msg, "grpc-service") == None
            && (f.eventBridge(msg.body).Some? ==> f.eventBridge(msg.body).value.detailType == "")
            && (f.sns(msg.body).Some? ==> f.sns(msg.body).value.kind != "Notification" || !("arn:aws:sns:" <= f.sns(msg.body).value.topicArn)) ==>
              && (ParseSqsMessage(f, codec, msg).Ok? <==> codec.messageDecode(msg.body).Some?)
              && (ParseSqsMessage(f, codec, msg).Ok? ==> codec.messageDecode(msg.body) == Some(ParseSqsMessage(f, codec, msg).value))
  {
  }

  /** A notification keeps the queue's message id and goes to the raw topic's method, under the last part of its ARN. */
  lemma NotificationFields(f: Formats, codec: Codec, msg: SqsMessage, w: SnsWrapper)
    requires Attribute(msg, "grpc-service") == None && f.sns(msg.body) == Some(w)
    requires w.kind == "Notification" && "arn:aws:sns:" <= w.topicArn
    requires f.eventBridge(msg.body).Some? ==> f.eventBridge(msg.body).value.detailType == ""
    requires ParseSqsMessage(f, codec, msg).Ok?
    ensures var m := ParseSqsMessage(f, codec, msg).value;
            && m.messageId == msg.messageId
            && m.grpcService == "o5.messaging.v1.topic.RawMessageTopic" && m.grpcMethod == "Raw"
            && m.destinationTopic == Split(w.topicArn, ':')[5]
            && m.body == Some(Body("", Raw, w.message)) && m.extension == NoExtension
  {
  }

  predicate AllBlank(b: Bytes) {
    forall i :: 0 <= i < |b| ==> b[i] == ' ' as int || b[i] == '\t' as int || b[i] == '\n' as int
  }

  lemma {:induction false} TrimLeftOf(before: Bytes, core: Bytes)
    requires AllBlank(before) && (core == [] || !IsBlank(core[0]))
    ensures TrimLeft(before + core) == core
  {
    if before == [] {
      assert before + core == core;
    } else {
      assert (before + core)[1..] == before[1..] + core;
      TrimLeftOf(before[1..], core);
    }
  }

  lemma {:induction false} TrimRightOf(core: Bytes, after: Bytes)
    requires AllBlank(after) && (core == [] || !IsBlank(core[|core| - 1]))
    ensures TrimRight(core + after) == core
  {
    if after == [] {
      assert core + after == core;
    } else {
      var n := |after| - 1;
      assert (core + after)[..|core + after| - 1] == core + after[..n];
      TrimRightOf(core, after[..n]);
    }
  }

  /** What looks like JSON: between blanks, a text from brace to brace or from bracket to bracket. */
  lemma LooksLikeJsonIff(before: Bytes, core: Bytes, after: Bytes)
    requires AllBlank(before) && AllBlank(after)
    requires core != [] && !AllBlank(core[..1]) && !AllBlank(core[|core| - 1..])
    ensures LooksLikeJson(before + (core + after)) <==>
              || (core[0] == '{' as int && core[|core| - 1] == '}' as int)
              || (core[0] == '[' as int && core[|core| - 1] == ']' as int)
  {
    assert !IsBlank(core[0]) && !IsBlank(core[|core| - 1]);
    TrimLeftOf(before, core + after);
    TrimRightOf(core, after);
  }
}
