/**
 The outbox side of the pipeline: parsing an outbox row into an o5 message,
 stamping it with the sender's identity and re-encoding its body as J5 JSON.
 */
module Converter {
  import opened Common
  import opened Messages

  datatype AppInfo = AppInfo(sourceApp: string, sourceEnv: string, sidecarVersion: string)

  /** A reflection client, reduced to what it resolves a message name to. */
  datatype Reflection = Reflection(find: string -> Option<Descriptor>)

  /** `NilBody` stands for the nil dereference of a message without a body. */
  datatype ConvertError =
    | BadEnvelope
    | NilBody
    | TypeNotFound(name: string)
    | UndecodableBody
    | UnencodableBody

  const VERSION_HEADER := "o5-sidecar-outbox-version"

  function Address(source: AppInfo): string {
    source.sourceEnv + "/" + source.sourceApp
  }

  predicate NeedsReencoding(e: Encoding) {
    e.Unspecified? || e.ProtoJson?
  }

  function ToJ5Json(codec: Codec, reflection: Reflection, body: Body): Result<Body, ConvertError>
    requires NeedsReencoding(body.encoding)
  {
    var name := TrimPrefix(body.typeUrl, TYPE_URL_PREFIX);
    match reflection.find(name)
    case None => Err(TypeNotFound(name))
    case Some(descriptor) =>
      var decoded := if body.encoding == Unspecified then codec.protoDecode(descriptor, body.value)
                     else codec.protoJsonDecode(descriptor, body.value);
      match decoded
      case None => Err(UndecodableBody)
      case Some(value) =>
        match codec.j5Encode(descriptor, value)
        case None => Err(UnencodableBody)
        case Some(json) => Ok(Body(body.typeUrl, J5Json, json))
  }

  function ConvertedBody(codec: Codec, reflection: Option<Reflection>, body: Option<Body>): Result<Option<Body>, ConvertError> {
    if reflection.None? then Ok(body)
    else if body.None? then Err(NilBody)
    else if !NeedsReencoding(body.value.encoding) then Ok(body)
    else match ToJ5Json(codec, reflection.value, body.value)
      case Ok(converted) => Ok(Some(converted))
      case Err(e) => Err(e)
  }

  /** What ConvertMessage makes of a message. */
  function Converted(codec: Codec, source: AppInfo, reflection: Option<Reflection>, msg: Message): Result<Message, ConvertError> {
    match ConvertedBody(codec, reflection, msg.body)
    case Err(e) => Err(e)
    case Ok(body) =>
      Ok(msg.(sourceApp := source.sourceApp,
              sourceEnv := source.sourceEnv,
              headers := msg.headers[VERSION_HEADER := source.sidecarVersion],
              body := body,
              extension := if msg.extension.Request? then Request(Address(source)) else msg.extension))
  }

  /** What ParseMessage makes of an outbox row. */
  function ParsedRow(codec: Codec, source: AppInfo, reflection: Option<Reflection>, id: string, data: Bytes): Result<Message, ConvertError> {
    match codec.messageDecode(data)
    case None => Err(BadEnvelope)
    case Some(msg) => Converted(codec, source, reflection, msg.(messageId := id))
  }

  class MessageConverter {
    const source: AppInfo
    const codec: Codec
    var reflection: Option<Reflection>

    constructor (codec: Codec, source: AppInfo)
      ensures this.codec == codec && this.source == source && reflection == None
    {
      this.codec, this.source, this.reflection := codec, source, None;
    }

    method SetReflectionClient(client: Reflection)
      modifies this
      ensures reflection == Some(client)
    {
      reflection := Some(client);
    }

    method ConvertMessage(input: Message) returns (r: Result<Message, ConvertError>)
      ensures r == Converted(codec, source, reflection, input)
    {
      var msg := input.(sourceApp := source.sourceApp, sourceEnv := source.sourceEnv);
      msg := msg.(headers := msg.headers[VERSION_HEADER := source.sidecarVersion]);
      if reflection.Some? {
        if msg.body == None {
          return Err(NilBody);
        }
        match msg.body.value.encoding {
          case Unspecified | ProtoJson =>
            var body := ToJ5Json(codec, reflection.value, msg.body.value);
            if body.Err? {
              return Err(body.error);
            }
            msg := msg.(body := Some(body.value));
          case _ =>
        }
      }
      match msg.extension {
        case Request(_) => msg := msg.(extension := Request(Address(source)));
        case _ =>
      }
      return Ok(msg);
    }

    method ParseMessage(id: string, data: Bytes) returns (r: Result<Message, ConvertError>)
      ensures r == ParsedRow(codec, source, reflection, id, data)
    {
      var decoded := codec.messageDecode(data);
      if decoded == None {
        return Err(BadEnvelope);
      }
      r := ConvertMessage(decoded.value.(messageId := id));
    }
  }

  /** The message published for a row carries the row's id, and nothing else about routing is touched. */
  lemma RowIdBecomesMessageId(codec: Codec, source: AppInfo, reflection: Option<Reflection>, id: string, data: Bytes)
    requires ParsedRow(codec, source, reflection, id, data).Ok?
    ensures var m := ParsedRow(codec, source, reflection, id, data).value;
            && m.messageId == id
            && codec.messageDecode(data).Some?
            && var stored := codec.messageDecode(data).value;
            && m.grpcService == stored.grpcService
            && m.grpcMethod == stored.grpcMethod
            && m.destinationTopic == stored.destinationTopic
            && (!stored.extension.Request? ==> m.extension == stored.extension)
  {
  }

  /** Converting a message that the same sidecar already converted changes nothing. */
  lemma ConvertIsIdempotent(codec: Codec, source: AppInfo, reflection: Option<Reflection>, msg: Message)
    requires Converted(codec, source, reflection, msg).Ok?
    ensures var once := Converted(codec, source, reflection, msg).value;
            Converted(codec, source, reflection, once) == Ok(once)
  {
    var once := Converted(codec, source, reflection, msg).value;
    assert once.headers[VERSION_HEADER := source.sidecarVersion] == once.headers;
  }

  /**
   What conversion stamps, in full: the sender's app, environment and version, the
   other headers as stored, and on a request the sender's address.
   */
  lemma StampsTheSender(codec: Codec, source: AppInfo, reflection: Option<Reflection>, id: string, data: Bytes)
    requires ParsedRow(codec, source, reflection, id, data).Ok?
    ensures codec.messageDecode(data).Some?
    ensures var m, stored := ParsedRow(codec, source, reflection, id, data).value, codec.messageDecode(data).value;
            && m.sourceApp == source.sourceApp && m.sourceEnv == source.sourceEnv
            && "o5-sidecar-outbox-version" in m.headers && m.headers["o5-sidecar-outbox-version"] == source.sidecarVersion
            && m.headers.Keys == stored.headers.Keys + {"o5-sidecar-outbox-version"}
            && (forall key :: key in stored.headers && key != "o5-sidecar-outbox-version" ==> m.headers[key] == stored.headers[key])
            && (stored.extension.Request? ==> m.extension == Request(source.sourceEnv + "/" + source.sourceApp))
  {
  }

  /**
   Which bodies are re-encoded: without a reflection client none; with one, binary and
   proto-JSON bodies, which leave as J5 under the same type URL, and no others.
   */
  lemma ReencodesExactlyProto(codec: Codec, source: AppInfo, reflection: Option<Reflection>, msg: Message)
    requires Converted(codec, source, reflection, msg).Ok?
    ensures var m := Converted(codec, source, reflection, msg).value;
            if reflection.Some? && (msg.body.value.encoding == Unspecified || msg.body.value.encoding == ProtoJson) then
              m.body.Some? && m.body.value.encoding == J5Json && m.body.value.typeUrl == msg.body.value.typeUrl
            else m.body == msg.body
  {
  }

  /**
   Which messages are refused: only with a reflection client, those without a body, and
   those to re-encode whose type is unknown under the name in its URL, whose bytes do not
   decode in their own encoding, or whose content has no J5 form.
   */
  lemma RefusedIff(codec: Codec, source: AppInfo, reflection: Option<Reflection>, msg: Message, name: string)
    requires msg.body.Some? ==>
               || msg.body.value.typeUrl == "type.googleapis.com/" + name
               || (msg.body.value.typeUrl == name && !("type.googleapis.com/" <= name))
    ensures Converted(codec, source, reflection, msg).Err? <==>
              reflection.Some? &&
              (|| msg.body == None
               || (msg.body.value.encoding == Unspecified
                   && !Reencodes(codec, reflection.value.find(name), d => codec.protoDecode(d, msg.body.value.value)))
               || (msg.body.value.encoding == ProtoJson
                   && !Reencodes(codec, reflection.value.find(name), d => codec.protoJsonDecode(d, msg.body.value.value))))
  {
    if msg.body.Some? {
      assert TrimPrefix("type.googleapis.com/" + name, TYPE_URL_PREFIX) == name;
    }
  }

  /** A known type whose value decodes and can be written as J5. */
  predicate Reencodes(codec: Codec, d: Option<Descriptor>, decode: Descriptor -> Option<Value>) {
    d.Some? && decode(d.value).Some? && codec.j5Encode(d.value, decode(d.value).value).Some?
  }
}
