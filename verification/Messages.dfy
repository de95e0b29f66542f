/** The o5 message envelope and the codecs the sidecar uses on it. */
module Messages {
  import opened Common

  /** Wire encodings of a message body. */
  datatype Encoding = Unspecified | ProtoJson | J5Json | Raw | Unknown(code: nat)

  datatype Body = Body(typeUrl: string, encoding: Encoding, value: Bytes)

  datatype Extension =
    | NoExtension
    | Request(replyTo: string)
    | Reply(replyTo: string)
    | OtherExtension(payload: Bytes)

  datatype Message = Message(
    messageId: string,
    grpcService: string,
    grpcMethod: string,
    body: Option<Body>,
    sourceApp: string,
    sourceEnv: string,
    destinationTopic: string,
    headers: map<string, string>,
    extension: Extension
  )

  /** Message kinds matter only for reply-to injection; everything else is opaque. */
  datatype Kind = Scalar | MessageKind(typeName: string, repeated: bool)

  /** `oneof` names the oneof group a field belongs to, if any. */
  datatype Field = Field(name: string, kind: Kind, oneof: Option<string>)

  datatype Descriptor = Descriptor(fullName: string, fields: seq<Field>)

  datatype FieldValue = Metadata(replyTo: string, rest: Bytes) | Opaque(content: Bytes)

  /** A dynamic message: the fields that are set, by position in the descriptor. */
  type Value = map<nat, FieldValue>

  /** The serialisers, as partial functions; a `None` is a marshalling error. */
  datatype Codec = Codec(
    protoDecode: (Descriptor, Bytes) -> Option<Value>,
    protoJsonDecode: (Descriptor, Bytes) -> Option<Value>,
    j5Encode: (Descriptor, Value) -> Option<Bytes>,
    j5Decode: (Descriptor, Bytes) -> Option<Value>,
    messageEncode: Message -> Option<Bytes>,
    messageDecode: Bytes -> Option<Message>
  )

  /** The J5 codec reads back what it wrote, for message bodies. */
  ghost predicate BodyCodecInverts(c: Codec) {
    forall d, v :: c.j5Encode(d, v).Some? ==> c.j5Decode(d, c.j5Encode(d, v).value) == Some(v)
  }

  /** The J5 codec reads back what it wrote, for whole o5 messages. */
  ghost predicate MessageCodecInverts(c: Codec) {
    forall m :: c.messageEncode(m).Some? ==> c.messageDecode(c.messageEncode(m).value) == Some(m)
  }

  const TYPE_URL_PREFIX := "type.googleapis.com/"

  /** Go's strings.TrimPrefix. */
  function TrimPrefix(s: string, prefix: string): string {
    if prefix <= s then s[|prefix|..] else s
  }
}
