/** The whole way of one message, from the stored row to the application's handler. */
module Pipeline {
  import opened Common
  import opened Messages
  import opened Converter
  import opened ServiceHandler
  import opened Publishers
  import opened SqsParsing
  import Router
  import Amqp = AmqpWorker

  /** What the sending sidecar has and knows. */
  datatype Sender = Sender(codec: Codec, source: AppInfo, reflection: Option<Reflection>)

  /** The row holds `stored`, and `m` is what was published for it. */
  predicate PublishedFor(s: Sender, id: string, data: Bytes, stored: Message, m: Message) {
    s.codec.messageDecode(data) == Some(stored) && ParsedRow(s.codec, s.source, s.reflection, id, data) == Ok(m)
  }

  /** The method is registered on the receiving side, from descriptors, and is not the generic fallback. */
  ghost predicate Served(history: seq<Router.Registration>, stored: Message) {
    && Router.ProperServices(history) && '/' !in stored.grpcService
    && Router.FullMethod(stored.grpcService, stored.grpcMethod) != Router.GENERIC_TOPIC
    && exists input, app :: Router.Registered(history, stored.grpcService, stored.grpcMethod, input, app)
  }

  /** The sender knows no other schema under the type name of a request the method was registered with. */
  ghost predicate SharesSchemas(s: Sender, history: seq<Router.Registration>, stored: Message) {
    forall input, app :: Router.Registered(history, stored.grpcService, stored.grpcMethod, input, app) ==>
      SharedSchema(s.reflection, input)
  }

  /** The stored request as its handler is to see it: a request carries the sender's address as its reply-to. */
  function Intended(s: Sender, d: Descriptor, stored: Message): Result<RequestBody, HandlerError> {
    if stored.extension.Request? then Inject(d, Content(s.codec, d, stored), Address(s.source))
    else Content(s.codec, d, stored)
  }

  /** The handler of the stored service and method gets the stored content, decoded by its own request descriptor. */
  ghost predicate Arrives(s: Sender, history: seq<Router.Registration>, stored: Message, m: Message) {
    && Router.Target(history, m.grpcService, m.grpcMethod).Some?
    && var h := Router.Target(history, m.grpcService, m.grpcMethod).value;
    && h.ServiceMethod? && h.service == stored.grpcService && h.rpc == stored.grpcMethod
    && Router.Registered(history, stored.grpcService, stored.grpcMethod, h.input, h.app)
    && ParsedBody(s.codec, h.input, m) == Intended(s, h.input, stored)
  }

  lemma PublishedMessageArrives(s: Sender, history: seq<Router.Registration>, id: string, data: Bytes, stored: Message, m: Message)
    requires BodyCodecInverts(s.codec) && SharesSchemas(s, history, stored)
    requires PublishedFor(s, id, data, stored, m) && Served(history, stored)
    ensures Arrives(s, history, stored, m)
  {
    hide BodyCodecInverts, SharedSchema, Inject, Router.Newest, Router.NewestFallback, ParsedBody, Content;
    RowIdBecomesMessageId(s.codec, s.source, s.reflection, id, data);
    Router.DispatchIsExact(history, stored.grpcService, stored.grpcMethod);
    var h := Router.Target(history, stored.grpcService, stored.grpcMethod).value;
    PublishedBodyIsIntended(s, h.input, id, data, stored, m);
  }

  /** What is decoded from the published message is what the row holds. */
  lemma PublishedBodyIsIntended(s: Sender, d: Descriptor, id: string, data: Bytes, stored: Message, m: Message)
    requires BodyCodecInverts(s.codec) && SharedSchema(s.reflection, d) && PublishedFor(s, id, data, stored, m)
    ensures ParsedBody(s.codec, d, m) == Intended(s, d, stored)
  {
    hide BodyCodecInverts, SharedSchema;
    var renamed := stored.(messageId := id);
    ConvertedMessageMeansTheSame(s.codec, s.source, s.reflection, d, renamed);
    assert Content(s.codec, d, renamed) == Content(s.codec, d, stored);
  }

  /**
   From the outbox over the event bus and a queue: the handler registered for the
   stored service and method is the one the router picks, and it is handed the stored
   content, with the sender's address in it when the row holds a request.
   */
  lemma StoredMessageReachesItsHandler(s: Sender, f: Formats, busArn: string, history: seq<Router.Registration>,
                                       id: string, data: Bytes, stored: Message, m: Message, msg: SqsMessage)
    requires BodyCodecInverts(s.codec) && MessageCodecInverts(s.codec) && EnvelopeCarries(f)
    requires SharesSchemas(s, history, stored) && PublishedFor(s, id, data, stored, m) && Served(history, stored)
    requires BuildPutEventEntry(s.codec, busArn, m).Some?
    requires msg.body == f.envelope(BuildPutEventEntry(s.codec, busArn, m).value) && Attribute(msg, SERVICE) == None
    ensures ParseSqsMessage(f, s.codec, msg) == Ok(m) && m.messageId == id
    ensures Arrives(s, history, stored, m)
  {
    EventBridgeRoundTrip(f, s.codec, busArn, m, msg);
    RowIdBecomesMessageId(s.codec, s.source, s.reflection, id, data);
    PublishedMessageArrives(s, history, id, data, stored, m);
  }

  /** The same over an AMQP exchange. */
  lemma StoredMessageReachesItsHandlerOverAmqp(s: Sender, cfg: Amqp.Settings, history: seq<Router.Registration>,
                                               id: string, data: Bytes, stored: Message, m: Message, delivery: Amqp.Incoming)
    requires BodyCodecInverts(s.codec) && MessageCodecInverts(s.codec) && cfg.codec == s.codec
    requires SharesSchemas(s, history, stored) && PublishedFor(s, id, data, stored, m) && Served(history, stored)
    requires s.codec.messageEncode(m) == Some(delivery.body) && delivery.contentType == Amqp.CONTENT_TYPE
    ensures Amqp.Readable(cfg, delivery) == Some(m) && m.messageId == id
    ensures Arrives(s, history, stored, m)
  {
    RowIdBecomesMessageId(s.codec, s.source, s.reflection, id, data);
    PublishedMessageArrives(s, history, id, data, stored, m);
  }
}
