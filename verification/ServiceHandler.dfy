/**
 The worker side of the pipeline: decoding a message body for a gRPC handler
 and injecting the platform's reply-to address into it.
 */
module ServiceHandler {
  import opened Common
  import opened Messages
  import opened Converter

  const REQUEST_METADATA := "j5.messaging.v1.RequestMetadata"

  /** `NilBody` and `ListField` stand for run-time panics, the rest for returned errors. */
  datatype HandlerError =
    | NilBody
    | UnexpectedTypeUrl
    | Undecodable
    | UnknownEncoding
    | NoRequestField
    | ListField

  datatype RequestBody = RawMessage(topic: string, payload: Bytes) | Dynamic(value: Value)

  predicate IsMetadataField(f: Field) {
    f.kind.MessageKind? && f.kind.typeName == REQUEST_METADATA
  }

  /** Position of the first RequestMetadata field. */
  function FirstMetadata(fields: seq<Field>): (r: Option<nat>)
    ensures r.None? <==> forall i :: 0 <= i < |fields| ==> !IsMetadataField(fields[i])
    ensures r.Some? ==> r.value < |fields| && IsMetadataField(fields[r.value])
    ensures r.Some? ==> forall i :: 0 <= i < r.value ==> !IsMetadataField(fields[i])
  {
    if fields == [] then None
    else if IsMetadataField(fields[0]) then Some(0)
    else match FirstMetadata(fields[1..])
      case None => None
      case Some(i) => Some(i + 1)
  }

  predicate SameOneof(fields: seq<Field>, i: nat, j: nat) {
    i < |fields| && j < |fields| && fields[i].oneof.Some? && fields[i].oneof == fields[j].oneof
  }

  function RestAt(value: Value, i: nat): Bytes {
    if i in value && value[i].Metadata? then value[i].rest else []
  }

  /** Field `i` with its reply-to set; a oneof member displaces the other members of its group. */
  function WithReplyTo(fields: seq<Field>, value: Value, i: nat, dest: string): Value {
    (map j | j in value && !SameOneof(fields, i, j) :: value[j])[i := Metadata(dest, RestAt(value, i))]
  }

  function Injected(d: Descriptor, value: Value, dest: string): Result<Value, HandlerError> {
    match FirstMetadata(d.fields)
    case None => Err(NoRequestField)
    case Some(i) => if d.fields[i].kind.repeated then Err(ListField) else Ok(WithReplyTo(d.fields, value, i, dest))
  }

  function DecodeBody(codec: Codec, d: Descriptor, body: Body): Result<Value, HandlerError> {
    match body.encoding
    case Unspecified => Decoded(codec.protoDecode(d, body.value))
    case ProtoJson => Decoded(codec.protoJsonDecode(d, body.value))
    case J5Json => Decoded(codec.j5Decode(d, body.value))
    case _ => Err(UnknownEncoding)
  }

  function Decoded(v: Option<Value>): Result<Value, HandlerError> {
    match v
    case None => Err(Undecodable)
    case Some(value) => Ok(value)
  }

  /** The request a message carries, before any reply-to is injected. */
  function Content(codec: Codec, d: Descriptor, msg: Message): Result<RequestBody, HandlerError> {
    if msg.body.None? then Err(HandlerError.NilBody)
    else if msg.body.value.encoding == Raw then Ok(RawMessage(msg.destinationTopic, msg.body.value.value))
    else if msg.body.value.typeUrl != "" && msg.body.value.typeUrl != TYPE_URL_PREFIX + d.fullName then Err(UnexpectedTypeUrl)
    else match DecodeBody(codec, d, msg.body.value)
      case Err(e) => Err(e)
      case Ok(value) => Ok(Dynamic(value))
  }

  /** A request with `dest` as its reply address; raw payloads and errors are passed through. */
  function Inject(d: Descriptor, content: Result<RequestBody, HandlerError>, dest: string): Result<RequestBody, HandlerError> {
    if content.Err? || content.value.RawMessage? || dest == "" then content
    else match Injected(d, content.value.value, dest)
      case Err(e) => Err(e)
      case Ok(value) => Ok(Dynamic(value))
  }

  /** What parseMessageBody hands to the application. */
  function ParsedBody(codec: Codec, d: Descriptor, msg: Message): Result<RequestBody, HandlerError> {
    Inject(d, Content(codec, d, msg), if msg.extension.Request? then msg.extension.replyTo else "")
  }

  class DynamicMessage {
    const descriptor: Descriptor
    var value: Value

    constructor (descriptor: Descriptor, value: Value)
      ensures this.descriptor == descriptor && this.value == value
    {
      this.descriptor, this.value := descriptor, value;
    }

    /** Go's Message.Mutable followed by Set on the nested reply_to field. */
    method SetNestedReplyTo(i: nat, dest: string)
      modifies this
      ensures value == WithReplyTo(descriptor.fields, old(value), i, dest)
    {
      var rest := RestAt(value, i);
      value := map j | j in value && !SameOneof(descriptor.fields, i, j) :: value[j];
      value := value[i := Metadata(dest, rest)];
    }

    method SetReplyTo(dest: string) returns (err: Option<HandlerError>)
      modifies this
      ensures err == match Injected(descriptor, old(value), dest) { case Err(e) => Some(e) case Ok(_) => None }
      ensures value == match Injected(descriptor, old(value), dest) { case Err(_) => old(value) case Ok(v) => v }
    {
      var fields := descriptor.fields;
      for i := 0 to |fields|
        invariant forall j :: 0 <= j < i ==> !IsMetadataField(fields[j])
        invariant value == old(value)
      {
        if !fields[i].kind.MessageKind? {
          continue;
        }
        if fields[i].kind.typeName != REQUEST_METADATA {
          continue;
        }
        assert FirstMetadata(fields) == Some(i);
        if fields[i].kind.repeated {
          return Some(ListField);
        }
        SetNestedReplyTo(i, dest);
        return None;
      }
      return Some(NoRequestField);
    }
  }

  method ParseMessageBody(codec: Codec, d: Descriptor, message: Message) returns (r: Result<RequestBody, HandlerError>)
    ensures r == ParsedBody(codec, d, message)
  {
    if message.body == None {
      return Err(HandlerError.NilBody);
    }
    var body := message.body.value;
    if body.encoding == Raw {
      return Ok(RawMessage(message.destinationTopic, body.value));
    }
    if body.typeUrl != "" {
      var expected := TYPE_URL_PREFIX + d.fullName;
      if body.typeUrl != expected {
        return Err(UnexpectedTypeUrl);
      }
    }
    var decoded: Option<Value>;
    match body.encoding {
      case Unspecified => decoded := codec.protoDecode(d, body.value);
      case ProtoJson => decoded := codec.protoJsonDecode(d, body.value);
      case J5Json => decoded := codec.j5Decode(d, body.value);
      case _ => return Err(UnknownEncoding);
    }
    if decoded == None {
      return Err(Undecodable);
    }
    var msg := new DynamicMessage(d, decoded.value);
    match message.extension {
      case Request(replyTo) =>
        if replyTo != "" {
          var err := msg.SetReplyTo(replyTo);
          if err.Some? {
            return Err(err.value);
          }
        }
      case _ =>
    }
    return Ok(Dynamic(msg.value));
  }

  // ------------------------------------------------------------------
  // Re-encoding preserves meaning
  // ------------------------------------------------------------------

  /** A name resolves to the message of that name, and no message has an empty name. */
  ghost predicate ResolvesByName(r: Reflection) {
    forall name: string :: r.find(name).Some? ==> r.find(name).value.fullName == name != ""
  }

  /** The sender's schema for the handler's request type, where it has one, is the handler's own. */
  ghost predicate SharedSchema(reflection: Option<Reflection>, d: Descriptor) {
    reflection.Some? ==>
      ResolvesByName(reflection.value) && (reflection.value.find(d.fullName).Some? ==> reflection.value.find(d.fullName) == Some(d))
  }

  lemma ReencodingKeepsContent(codec: Codec, source: AppInfo, reflection: Option<Reflection>, d: Descriptor, msg: Message)
    requires BodyCodecInverts(codec)
    requires SharedSchema(reflection, d)
    requires Converted(codec, source, reflection, msg).Ok?
    ensures Content(codec, d, Converted(codec, source, reflection, msg).value) == Content(codec, d, msg)
  {
    if reflection.Some? && NeedsReencoding(msg.body.value.encoding) {
      var body := msg.body.value;
      if body.typeUrl == TYPE_URL_PREFIX + d.fullName {
        assert TrimPrefix(body.typeUrl, TYPE_URL_PREFIX) == d.fullName;
      }
    }
  }

  /**
   Delivering the converted message gives the handler what the stored message
   says, with the sender's address as its reply-to when it is a request.
   */
  lemma ConvertedMessageMeansTheSame(codec: Codec, source: AppInfo, reflection: Option<Reflection>, d: Descriptor, msg: Message)
    requires BodyCodecInverts(codec)
    requires SharedSchema(reflection, d)
    requires Converted(codec, source, reflection, msg).Ok?
    ensures var out := Converted(codec, source, reflection, msg).value;
            ParsedBody(codec, d, out)
            == if msg.extension.Request? then Inject(d, Content(codec, d, msg), Address(source))
               else ParsedBody(codec, d, msg)
  {
    ReencodingKeepsContent(codec, source, reflection, d, msg);
  }

  /** Conversion leaves the content of this message as it is, whenever it succeeds. */
  ghost predicate KeepsContent(codec: Codec, source: AppInfo, reflection: Option<Reflection>, d: Descriptor, msg: Message) {
    Converted(codec, source, reflection, msg).Ok? ==>
      Content(codec, d, Converted(codec, source, reflection, msg).value) == Content(codec, d, msg)
  }

  /**
   What `ReencodingKeepsContent` rests on is needed: whenever the sender resolves
   the handler's type name to another schema, some message changes its content.
   */
  lemma DifferentSchemasCanChangeContent(source: AppInfo, r: Reflection, d: Descriptor) returns (codec: Codec, msg: Message)
    requires ResolvesByName(r) && r.find(d.fullName).Some? && r.find(d.fullName) != Some(d)
    ensures BodyCodecInverts(codec)
    ensures Converted(codec, source, Some(r), msg).Ok? && Content(codec, d, msg).Ok?
    ensures !KeepsContent(codec, source, Some(r), d, msg)
  {
    // Only the handler's schema knows the field that the bytes hold.
    var protoDecode := (e: Descriptor, b: Bytes) => if e == d then Some(map[0 as nat := Opaque(b)]) else Some(map[]);
    var j5Encode := (e: Descriptor, v: Value) => if v == map[] then Some([]) else None;
    var j5Decode := (e: Descriptor, b: Bytes) => Some(map[]);
    codec := Codec(protoDecode, (e, b) => None, j5Encode, j5Decode, m => None, b => None);
    msg := Message("id", "s", "m", Some(Body(TYPE_URL_PREFIX + d.fullName, Unspecified, [])), "", "", "", map[], NoExtension);
    assert TrimPrefix(TYPE_URL_PREFIX + d.fullName, TYPE_URL_PREFIX) == d.fullName;
    var out := Converted(codec, source, Some(r), msg).value;
    assert Content(codec, d, msg) == Ok(Dynamic(map[0 := Opaque([])]));
    assert Content(codec, d, out) == Ok(Dynamic(map[]));
    assert 0 in map[0 as nat := Opaque([])];
  }

  /** Re-encoding keeps the content of every message, for every codec that inverts itself, exactly when the schema is shared. */
  lemma ContentIsKeptIffSharedSchema(source: AppInfo, reflection: Option<Reflection>, d: Descriptor)
    requires reflection.Some? ==> ResolvesByName(reflection.value)
    ensures (forall codec, msg :: BodyCodecInverts(codec) ==> KeepsContent(codec, source, reflection, d, msg))
            <==> SharedSchema(reflection, d)
  {
    if SharedSchema(reflection, d) {
      forall codec, msg | BodyCodecInverts(codec)
        ensures KeepsContent(codec, source, reflection, d, msg)
      {
        if Converted(codec, source, reflection, msg).Ok? {
          ReencodingKeepsContent(codec, source, reflection, d, msg);
        }
      }
    } else {
      var codec, msg := DifferentSchemasCanChangeContent(source, reflection.value, d);
    }
  }

  /** Converted requests are deliverable exactly when the content decodes and there is one singular field to inject into. */
  lemma RequestDeliverableIff(codec: Codec, source: AppInfo, reflection: Option<Reflection>, d: Descriptor, msg: Message)
    requires BodyCodecInverts(codec)
    requires SharedSchema(reflection, d)
    requires Converted(codec, source, reflection, msg).Ok? && msg.extension.Request?
    ensures var out := Converted(codec, source, reflection, msg).value;
            var target := FirstMetadata(d.fields);
            ParsedBody(codec, d, out).Ok?
            <==> (&& Content(codec, d, msg).Ok?
                  && (Content(codec, d, msg).value.Dynamic? ==> target.Some? && !d.fields[target.value].kind.repeated))
  {
    ConvertedMessageMeansTheSame(codec, source, reflection, d, msg);
    assert Address(source)[|source.sourceEnv|] == '/';
  }

  /**
   Injection writes reply_to of the first RequestMetadata field and keeps the
   rest of that field. Every other field keeps its value exactly when no set
   field shares a oneof group with it.
   */
  lemma InjectionChangesOnlyReplyTo(d: Descriptor, value: Value, dest: string)
    requires Injected(d, value, dest).Ok?
    ensures var after := Injected(d, value, dest).value;
            && FirstMetadata(d.fields).Some?
            && var i := FirstMetadata(d.fields).value;
            && i in after && after[i] == Metadata(dest, RestAt(value, i))
            && after[i].Metadata? && after[i].replyTo == dest
            && (i in value && value[i].Metadata? ==> after[i].rest == value[i].rest)
            && (i !in value ==> after[i].rest == [])
            && d.fields[i].kind.MessageKind? && d.fields[i].kind.typeName == "j5.messaging.v1.RequestMetadata"
            && !d.fields[i].kind.repeated
            && (forall k :: 0 <= k < i && d.fields[k].kind.MessageKind? ==> d.fields[k].kind.typeName != "j5.messaging.v1.RequestMetadata")
            && (forall j :: j in after && j != i ==> j in value && after[j] == value[j])
            && ((forall j :: j in value && j != i ==> j in after && after[j] == value[j])
                <==> (forall j :: j in value && j != i ==> !SameOneof(d.fields, i, j)))
  {
    var i := FirstMetadata(d.fields).value;
    var after := Injected(d, value, dest).value;
    if forall j :: j in value && j != i ==> j in after && after[j] == value[j] {
      forall j | j in value && j != i
        ensures !SameOneof(d.fields, i, j)
      {
        assert j in after;
      }
    }
  }

  /** Which messages a handler can read: raw ones, and those of its own type, or of none named, whose bytes decode in their encoding. */
  lemma ReadableIff(codec: Codec, d: Descriptor, msg: Message)
    ensures Content(codec, d, msg).Ok? <==>
              msg.body.Some? &&
              var body := msg.body.value;
              (|| body.encoding == Raw
               || (&& (body.typeUrl == "" || body.typeUrl == "type.googleapis.com/" + d.fullName)
                   && (|| (body.encoding == Unspecified && codec.protoDecode(d, body.value).Some?)
                       || (body.encoding == ProtoJson && codec.protoJsonDecode(d, body.value).Some?)
                       || (body.encoding == J5Json && codec.j5Decode(d, body.value).Some?))))
    ensures msg.body.Some? && msg.body.value.encoding == Raw ==>
              ParsedBody(codec, d, msg) == Ok(RawMessage(msg.destinationTopic, msg.body.value.value))
  {
  }

  /**
   When injection happens: only for a request that carries an address and has fields to
   put it into. Every other message is handed over as its bytes decode, and nothing is added.
   */
  lemma InjectsIntoRequestsOnly(codec: Codec, d: Descriptor, msg: Message, value: Value)
    requires msg.body.Some? && var body := msg.body.value;
             && (body.typeUrl == "" || body.typeUrl == "type.googleapis.com/" + d.fullName)
             && match body.encoding
                case Unspecified => codec.protoDecode(d, body.value) == Some(value)
                case ProtoJson => codec.protoJsonDecode(d, body.value) == Some(value)
                case J5Json => codec.j5Decode(d, body.value) == Some(value)
                case _ => false
    ensures !msg.extension.Request? || msg.extension.replyTo == "" ==> ParsedBody(codec, d, msg) == Ok(Dynamic(value))
    ensures msg.extension.Request? && msg.extension.replyTo != "" ==>
              && (ParsedBody(codec, d, msg).Ok? <==> Injected(d, value, msg.extension.replyTo).Ok?)
              && (ParsedBody(codec, d, msg).Ok? ==>
                    ParsedBody(codec, d, msg).value == Dynamic(Injected(d, value, msg.extension.replyTo).value))
  {
  }

  // ------------------------------------------------------------------
  // Reply routing
  // ------------------------------------------------------------------

  /** The `request` field of a decoded request, which the application copies into its reply. */
  function RequestMetadataOf(d: Descriptor, body: RequestBody): Option<FieldValue> {
    match FirstMetadata(d.fields)
    case None => None
    case Some(i) => if body.Dynamic? && i in body.value then Some(body.value[i]) else None
  }

  /** The generated header rule of a reply: the copied reply_to becomes the reply's address. */
  function ReplyHeader(request: Option<FieldValue>): Extension {
    if request.Some? && request.value.Metadata? then Reply(request.value.replyTo) else NoExtension
  }

  /**
   A reply to any request leaves the responder's sidecar addressed to exactly
   the sidecar that sent the request, whatever reply_to the request was stored with.
   */
  lemma ReplyReachesRequester(codec: Codec, requester: AppInfo, responder: AppInfo,
                              requesterReflection: Option<Reflection>, responderReflection: Option<Reflection>,
                              d: Descriptor, request: Message, reply: Message)
    requires BodyCodecInverts(codec) && SharedSchema(requesterReflection, d)
    requires request.extension.Request? && Converted(codec, requester, requesterReflection, request).Ok?
    requires var delivered := ParsedBody(codec, d, Converted(codec, requester, requesterReflection, request).value);
             && delivered.Ok? && delivered.value.Dynamic?
             && reply.extension == ReplyHeader(RequestMetadataOf(d, delivered.value))
    requires Converted(codec, responder, responderReflection, reply).Ok?
    ensures Converted(codec, responder, responderReflection, reply).value.extension == Reply(Address(requester))
  {
    RequestDeliverableIff(codec, requester, requesterReflection, d, request);
    ConvertedMessageMeansTheSame(codec, requester, requesterReflection, d, request);
    assert Address(requester)[|requester.sourceEnv|] == '/';
  }

  /** An address names one sidecar as long as environment names hold no slash. */
  lemma AddressIdentifiesSidecar(a: AppInfo, b: AppInfo)
    requires Address(a) == Address(b)
    requires '/' !in a.sourceEnv && '/' !in b.sourceEnv
    ensures a.sourceEnv == b.sourceEnv && a.sourceApp == b.sourceApp
  {
    assert Address(a)[|a.sourceEnv|] == '/' == Address(b)[|b.sourceEnv|];
    assert forall k :: 0 <= k < |a.sourceEnv| ==> Address(a)[k] == a.sourceEnv[k] != '/';
    assert forall k :: 0 <= k < |b.sourceEnv| ==> Address(b)[k] == b.sourceEnv[k] != '/';
    assert a.sourceEnv == Address(a)[..|a.sourceEnv|];
    assert b.sourceEnv == Address(b)[..|b.sourceEnv|];
    assert a.sourceApp == Address(a)[|a.sourceEnv| + 1..];
    assert b.sourceApp == Address(b)[|b.sourceEnv| + 1..];
  }
}
