/** The dispatch table of the queue worker. */
module Router {
  import opened Common
  import opened Messages

  /** `input` is the descriptor of the request message, by which the handler decodes. */
  datatype Handler = ServiceMethod(service: string, rpc: string, input: Descriptor, app: string) | Generic(app: string) | Custom(id: nat)

  datatype MethodDescriptor = MethodDescriptor(name: string, input: Descriptor)

  datatype Service = Service(fullName: string, methods: seq<MethodDescriptor>)

  /** One call that changes the table. */
  datatype Registration = Method(service: string, rpc: string, input: Descriptor, app: string) | Direct(fullMethod: string, handler: Handler)

  const GENERIC_SERVICE := "o5.messaging.v1.topic.GenericMessageTopic"

  const GENERIC_TOPIC := FullMethod(GENERIC_SERVICE, "Generic")

  function FullMethod(service: string, rpc: string): string {
    "/" + service + "/" + rpc
  }

  /** A text is the full method of at most one pair whose service has no slash. */
  lemma FullMethodIsInjective(s1: string, m1: string, s2: string, m2: string)
    requires '/' !in s1 && '/' !in s2
    requires FullMethod(s1, m1) == FullMethod(s2, m2)
    ensures s1 == s2 && m1 == m2
  {
    var a, b := FullMethod(s1, m1), FullMethod(s2, m2);
    assert a[1 + |s1|] == '/' && b[1 + |s2|] == '/';
    assert forall k :: 1 <= k < 1 + |s1| ==> a[k] == s1[k - 1] != '/';
    assert forall k :: 1 <= k < 1 + |s2| ==> b[k] == s2[k - 1] != '/';
    assert a[1..1 + |s1|] == s1 && b[1..1 + |s2|] == s2;
    assert a[2 + |s1|..] == m1 && b[2 + |s2|..] == m2;
  }

  /** What a registration says about a key of the table. */
  function Says(r: Registration, key: string): Option<Handler> {
    match r
    case Method(s, m, input, app) =>
      if FullMethod(s, m) == key && key != GENERIC_TOPIC then Some(ServiceMethod(s, m, input, app)) else None
    case Direct(fullMethod, handler) =>
      if fullMethod == key then Some(handler) else None
  }

  function SaysFallback(r: Registration): Option<Handler> {
    if r.Method? && FullMethod(r.service, r.rpc) == GENERIC_TOPIC then Some(Generic(r.app)) else None
  }

  /** The newest registration for a key. */
  function Newest(history: seq<Registration>, key: string): Option<Handler> {
    if history == [] then None
    else
      var last := Says(history[|history| - 1], key);
      if last.Some? then last else Newest(history[..|history| - 1], key)
  }

  function NewestFallback(history: seq<Registration>): Option<Handler> {
    if history == [] then None
    else
      var last := SaysFallback(history[|history| - 1]);
      if last.Some? then last else NewestFallback(history[..|history| - 1])
  }

  /** Who gets a message, by the history of registrations alone. */
  function Target(history: seq<Registration>, service: string, rpc: string): Option<Handler> {
    var h := Newest(history, FullMethod(service, rpc));
    if h.Some? then h else NewestFallback(history)
  }

  /** The registrations RegisterService makes. */
  function MethodsOf(service: Service, app: string): seq<Registration> {
    seq(|service.methods|, i requires 0 <= i < |service.methods| => Method(service.fullName, service.methods[i].name, service.methods[i].input, app))
  }

  lemma NewestNext(history: seq<Registration>, r: Registration, key: string)
    ensures Newest(history + [r], key) == (if Says(r, key).Some? then Says(r, key) else Newest(history, key))
    ensures NewestFallback(history + [r]) == (if SaysFallback(r).Some? then SaysFallback(r) else NewestFallback(history))
  {
    assert (history + [r])[..|history|] == history;
  }

  class Router {
    var handlers: map<string, Handler>
    var fallbackHandler: Option<Handler>
    ghost var history: seq<Registration>

    constructor ()
      ensures Valid() && history == []
    {
      handlers, fallbackHandler, history := map[], None, [];
    }

    /** The table answers every key as the newest registration does. */
    ghost predicate Valid()
      reads this
    {
      && (forall key :: (if key in handlers then Some(handlers[key]) else None) == Newest(history, key))
      && fallbackHandler == NewestFallback(history)
    }

    method RegisterMethod(service: string, rpc: string, input: Descriptor, app: string)
      requires Valid()
      modifies this
      ensures Valid() && history == old(history) + [Method(service, rpc, input, app)]
    {
      ghost var r := Method(service, rpc, input, app);
      forall key {
        NewestNext(history, r, key);
      }
      NewestNext(history, r, "");
      var fullName := FullMethod(service, rpc);
      if fullName == GENERIC_TOPIC {
        fallbackHandler := Some(Generic(app));
      } else {
        handlers := handlers[fullName := ServiceMethod(service, rpc, input, app)];
      }
      history := history + [r];
    }

    method RegisterService(service: Service, app: string)
      requires Valid()
      modifies this
      ensures Valid() && history == old(history) + MethodsOf(service, app)
    {
      for i := 0 to |service.methods|
        invariant Valid() && history == old(history) + MethodsOf(service, app)[..i]
      {
        RegisterMethod(service.fullName, service.methods[i].name, service.methods[i].input, app);
      }
    }

    method RegisterHandler(fullMethod: string, handler: Handler)
      requires Valid()
      modifies this
      ensures Valid() && history == old(history) + [Direct(fullMethod, handler)]
    {
      ghost var r := Direct(fullMethod, handler);
      forall key {
        NewestNext(history, r, key);
      }
      NewestNext(history, r, "");
      handlers := handlers[fullMethod := handler];
      history := history + [r];
    }

    /** The handler the message goes to; none is the no-handler error. */
    method HandleMessage(grpcService: string, grpcMethod: string) returns (handler: Option<Handler>)
      requires Valid()
      ensures handler == Target(history, grpcService, grpcMethod)
    {
      var fullServiceName := FullMethod(grpcService, grpcMethod);
      if fullServiceName in handlers {
        handler := Some(handlers[fullServiceName]);
      } else {
        handler := fallbackHandler;
      }
    }
  }

  /** Only service registrations, of services without a slash in their name. */
  ghost predicate ProperServices(history: seq<Registration>) {
    forall i :: 0 <= i < |history| ==> history[i].Method? && '/' !in history[i].service
  }

  ghost predicate Registered(history: seq<Registration>, service: string, rpc: string, input: Descriptor, app: string) {
    Method(service, rpc, input, app) in history
  }

  /**
   With services registered from descriptors, a message reaches a method handler
   exactly when its own service and method were registered, and then the handler
   of that very method; every other message goes to the fallback, if there is one.
   */
  lemma {:induction false} DispatchIsExact(history: seq<Registration>, service: string, rpc: string)
    requires ProperServices(history) && '/' !in service && FullMethod(service, rpc) != GENERIC_TOPIC
    ensures (exists input, app :: Registered(history, service, rpc, input, app)) <==> Newest(history, FullMethod(service, rpc)).Some?
    ensures forall h :: Target(history, service, rpc) == Some(h) && h.ServiceMethod? ==>
              h.service == service && h.rpc == rpc && Registered(history, service, rpc, h.input, h.app)
    ensures (exists input, app :: Registered(history, service, rpc, input, app)) ==>
              Target(history, service, rpc).Some? && Target(history, service, rpc).value.ServiceMethod?
    ensures !(exists input, app :: Registered(history, service, rpc, input, app)) ==> Target(history, service, rpc) == NewestFallback(history)
  {
    NewestIsExact(history, service, rpc);
    FallbackIsGeneric(history);
  }

  lemma {:induction false} NewestIsExact(history: seq<Registration>, service: string, rpc: string)
    requires ProperServices(history) && '/' !in service && FullMethod(service, rpc) != GENERIC_TOPIC
    ensures Newest(history, FullMethod(service, rpc)) == None ==> forall input, app :: !Registered(history, service, rpc, input, app)
    ensures Newest(history, FullMethod(service, rpc)).Some? ==>
              var h := Newest(history, FullMethod(service, rpc)).value;
              h.ServiceMethod? && h.service == service && h.rpc == rpc && Registered(history, service, rpc, h.input, h.app)
  {
    if history != [] {
      var init, last := history[..|history| - 1], history[|history| - 1];
      assert history == init + [last];
      NewestIsExact(init, service, rpc);
      if FullMethod(last.service, last.rpc) == FullMethod(service, rpc) {
        FullMethodIsInjective(last.service, last.rpc, service, rpc);
        assert last in history;
      } else {
        assert forall input, app :: Registered(history, service, rpc, input, app) ==> Registered(init, service, rpc, input, app);
      }
    }
  }

  lemma {:induction false} FallbackIsGeneric(history: seq<Registration>)
    ensures NewestFallback(history).Some? ==> NewestFallback(history).value.Generic?
  {
    if history != [] {
      FallbackIsGeneric(history[..|history| - 1]);
    }
  }

  /** Registering a service registers each of its methods under the service's name, with its request descriptor. */
  lemma EveryMethodIsRegistered(history: seq<Registration>, service: Service, app: string, i: nat)
    requires i < |service.methods|
    ensures Registered(history + MethodsOf(service, app), service.fullName, service.methods[i].name, service.methods[i].input, app)
  {
    assert (history + MethodsOf(service, app))[|history| + i] == MethodsOf(service, app)[i];
  }

  /** The last registration for a method, or for a full name, gets its messages. */
  lemma LastRegistrationWins(history: seq<Registration>, service: string, rpc: string, input: Descriptor, app: string, handler: Handler)
    requires '/' !in service
    ensures service != "o5.messaging.v1.topic.GenericMessageTopic" || rpc != "Generic" ==>
              Target(history + [Method(service, rpc, input, app)], service, rpc) == Some(ServiceMethod(service, rpc, input, app))
    ensures Target(history + [Direct("/" + service + "/" + rpc, handler)], service, rpc) == Some(handler)
  {
    NewestNext(history, Method(service, rpc, input, app), FullMethod(service, rpc));
    NewestNext(history, Direct(FullMethod(service, rpc), handler), FullMethod(service, rpc));
    if FullMethod(service, rpc) == GENERIC_TOPIC {
      GenericServiceHasNoSlash();
      FullMethodIsInjective(service, rpc, GENERIC_SERVICE, "Generic");
    }
  }

  /** The generic topic's method is the fallback, of its last registration's app, and only that is. */
  lemma {:induction false} FallbackIff(history: seq<Registration>)
    requires ProperServices(history)
    ensures NewestFallback(history).Some? <==>
              exists input, app :: Registered(history, "o5.messaging.v1.topic.GenericMessageTopic", "Generic", input, app)
    ensures forall input, app ::
              NewestFallback(history + [Method("o5.messaging.v1.topic.GenericMessageTopic", "Generic", input, app)]) == Some(Generic(app))
  {
    GenericServiceHasNoSlash();
    forall input, app
      ensures NewestFallback(history + [Method("o5.messaging.v1.topic.GenericMessageTopic", "Generic", input, app)]) == Some(Generic(app))
    {
      NewestNext(history, Method("o5.messaging.v1.topic.GenericMessageTopic", "Generic", input, app), "");
    }
    if history != [] {
      var init, last := history[..|history| - 1], history[|history| - 1];
      assert history == init + [last];
      FallbackIff(init);
      if FullMethod(last.service, last.rpc) == GENERIC_TOPIC {
        FullMethodIsInjective(last.service, last.rpc, "o5.messaging.v1.topic.GenericMessageTopic", "Generic");
        assert Registered(history, "o5.messaging.v1.topic.GenericMessageTopic", "Generic", last.input, last.app);
      } else {
        assert forall input, app :: Registered(history, "o5.messaging.v1.topic.GenericMessageTopic", "Generic", input, app) ==>
            Registered(init, "o5.messaging.v1.topic.GenericMessageTopic", "Generic", input, app);
        assert forall input, app :: Registered(init, "o5.messaging.v1.topic.GenericMessageTopic", "Generic", input, app) ==>
            Registered(history, "o5.messaging.v1.topic.GenericMessageTopic", "Generic", input, app);
      }
    }
  }

  lemma GenericServiceHasNoSlash()
    ensures '/' !in "o5.messaging.v1.topic.GenericMessageTopic"
  {
  }

  /** Whatever is registered from descriptors, messages for the generic topic itself go to the fallback. */
  lemma {:induction false} GenericTopicFallsBack(history: seq<Registration>)
    requires ProperServices(history)
    ensures Target(history, "o5.messaging.v1.topic.GenericMessageTopic", "Generic") == NewestFallback(history)
  {
    GenericServiceHasNoSlash();
    NoMethodForGenericTopic(history);
  }

  lemma {:induction false} NoMethodForGenericTopic(history: seq<Registration>)
    requires ProperServices(history)
    ensures Newest(history, GENERIC_TOPIC) == None
  {
    if history != [] {
      NoMethodForGenericTopic(history[..|history| - 1]);
    }
  }
}
