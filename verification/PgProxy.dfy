/** One client connection of the Postgres proxy, from start-up message to pass-through. */
module PgProxy {
  import opened Common
  import opened Passthrough

  datatype StartupData = StartupData(user: string, database: string, version: nat)

  datatype Startup =
    | StartupMessage(parameters: map<string, string>, version: nat)
    | SslRequest
    | CancelRequest
    | OtherRequest

  /** What the proxy writes to the client. */
  datatype ToClient = Fatal(text: string) | AuthenticationOk | ReadyForQuery(status: char) | Forwarded(message: Message)

  /** pgproto3.ProtocolVersionNumber: version 3.0. */
  const PROTOCOL_VERSION := 196608

  const TX_STATUS_IDLE := 'I'

  /** What logging in to the server ended with. */
  datatype Login = BadEndpoint | NoConnection | NotInSync | NotHijacked | LoggedIn(status: char)

  /** A data source: whether it gives out a DSN, what logging in with it leads to, and how the session then goes. */
  datatype Source = Source(dsn: Option<string>, login: Login, events: seq<Event>)

  /** As written, newConn only logs a failed handshake and goes on with no client; the other form returns. */
  datatype HandshakeForm = AsWritten | Returning

  datatype Ended = Crashed | HandshakeFailed | DatabaseUnknown | DsnFailed | DialFailed | ReadyFailed | Passed(session: Session)

  /** The start-up messages the proxy serves. */
  predicate Acceptable(startup: Option<Startup>) {
    && startup.Some? && startup.value.StartupMessage?
    && "user" in startup.value.parameters
    && "replication" !in startup.value.parameters
    && "options" !in startup.value.parameters
    && startup.value.version <= PROTOCOL_VERSION
  }

  /** Refusals the client is told about; the others are only logged. */
  predicate Announced(startup: Option<Startup>) {
    && startup.Some? && !startup.value.CancelRequest?
    && (startup.value.StartupMessage? ==>
          || "user" !in startup.value.parameters
          || "replication" in startup.value.parameters
          || "options" in startup.value.parameters)
  }

  /** The database asked for: by name, or else the one named like the user. */
  function Database(parameters: map<string, string>): string
    requires "user" in parameters
  {
    if "database" in parameters then parameters["database"] else parameters["user"]
  }

  /** The client named this database, or named none and is called so itself. */
  predicate Asked(startup: Option<Startup>, name: string) {
    && startup.Some? && startup.value.StartupMessage?
    && if "database" in startup.value.parameters then startup.value.parameters["database"] == name
       else "user" in startup.value.parameters && startup.value.parameters["user"] == name
  }

  function DialFrontend(login: Login): bool {
    login == LoggedIn(TX_STATUS_IDLE)
  }

  /** Whether dialling got as far as a connection, which a later failure of dialFrontend does not close. */
  predicate Connected(login: Login) {
    login.NotInSync? || login.NotHijacked? || login.LoggedIn?
  }

  function Forwards(messages: seq<Message>): seq<ToClient> {
    seq(|messages|, i requires 0 <= i < |messages| => Forwarded(messages[i]))
  }

  const READY := [AuthenticationOk, ReadyForQuery(TX_STATUS_IDLE)]

  /** At most one fatal error and nothing else. */
  ghost predicate OnlyFatal(t: seq<ToClient>) {
    t == [] || (|t| == 1 && t[0].Fatal?)
  }

  /** Start of the ready sequence, or all of it followed by messages of the server, in the server's order. */
  ghost predicate ReadyThenServer(t: seq<ToClient>, fromServer: seq<Message>) {
    t <= READY || exists n: nat :: n <= |fromServer| && t == READY + Forwards(fromServer[..n])
  }

  class Backend {
    var data: StartupData
    var buffer: seq<ToClient>
    /** Everything written to the client. */
    var written: seq<ToClient>
    /** Whether every write so far succeeded. */
    var intact: bool
    /** Whether a server connection was opened that nothing here has closed. */
    var serverOpen: bool
    var clientOpen: bool

    constructor ()
      ensures written == [] && buffer == [] && intact && !serverOpen && clientOpen
    {
      data, buffer, written, intact := StartupData("", "", 0), [], [], true;
      serverOpen, clientOpen := false, true;
    }

    /** An error may cut the output anywhere. */
    method Flush() returns (ok: bool)
      modifies this`buffer, this`written, this`intact
      ensures buffer == [] && old(written) <= written <= old(written) + old(buffer)
      ensures ok ==> written == old(written) + old(buffer)
      ensures intact <==> old(intact) && ok
    {
      ok := true;
      if * {
        var n: nat :| n <= |buffer|;
        ok, intact, written := false, false, written + buffer[..n];
      } else {
        written := written + buffer;
      }
      buffer := [];
    }

    /** A failed write of a fatal error is ignored. */
    method SendFatal(text: string)
      requires buffer == []
      modifies this`buffer, this`written, this`intact
      ensures buffer == []
      ensures written == old(written) || written == old(written) + [Fatal(text)]
      ensures intact ==> old(intact) && written == old(written) + [Fatal(text)]
    {
      buffer := buffer + [Fatal(text)];
      var _ := Flush();
    }

    method SendReady() returns (ok: bool)
      requires buffer == []
      modifies this`buffer, this`written, this`intact
      ensures buffer == [] && old(written) <= written <= old(written) + READY
      ensures ok ==> written == old(written) + READY
      ensures intact <==> old(intact) && ok
    {
      buffer := buffer + [AuthenticationOk];
      buffer := buffer + [ReadyForQuery(TX_STATUS_IDLE)];
      ok := Flush();
    }

    /** `startup` is the message received, or nothing when receiving failed. */
    method ClientHandshake(startup: Option<Startup>) returns (ok: bool)
      requires buffer == [] && written == [] && intact
      modifies this`buffer, this`written, this`intact, this`data
      ensures buffer == [] && OnlyFatal(written)
      ensures ok <==> startup.Some? && startup.value.StartupMessage? && !Announced(startup)
      ensures ok ==> written == [] && intact
      ensures ok ==> data == StartupData(startup.value.parameters["user"], Database(startup.value.parameters), startup.value.version)
      ensures ok && "database" in startup.value.parameters ==> data.database == startup.value.parameters["database"]
      ensures ok && "database" !in startup.value.parameters ==> data.database == startup.value.parameters["user"]
      ensures ok <==>
                && startup.Some? && startup.value.StartupMessage?
                && "user" in startup.value.parameters
                && "replication" !in startup.value.parameters && "options" !in startup.value.parameters
      ensures !ok && startup.Some? && intact ==>
                match startup.value
                case CancelRequest => written == []
                case SslRequest => written == [Fatal("ssl connections are not supported")]
                case OtherRequest => written == [Fatal("unknown message type")]
                case StartupMessage(p, _) =>
                  if "user" !in p then written == [Fatal("no user in startup message")]
                  else if "replication" in p then written == [Fatal("replication is not supported")]
                  else written == [Fatal("options is not supported")]
      ensures !ok ==> data == old(data)
      ensures !Announced(startup) ==> written == [] && intact
      ensures Announced(startup) && intact ==> |written| == 1
    {
      ok := false;
      if startup == None {
        return;
      }
      match startup.value
      case StartupMessage(parameters, version) =>
        if "user" !in parameters {
          SendFatal("no user in startup message");
          return;
        }
        var db := if "database" in parameters then parameters["database"] else parameters["user"];
        if "replication" in parameters {
          SendFatal("replication is not supported");
          return;
        }
        if "options" in parameters {
          SendFatal("options is not supported");
          return;
        }
        data := StartupData(parameters["user"], db, version);
        ok := true;
      case SslRequest =>
        SendFatal("ssl connections are not supported");
      case CancelRequest =>
      case OtherRequest =>
        SendFatal("unknown message type");
    }

    /** Handshake and version check; an older protocol is let through, a newer one is not. */
    method Open(startup: Option<Startup>) returns (ok: bool)
      requires buffer == [] && written == [] && intact
      modifies this`buffer, this`written, this`intact, this`data
      ensures buffer == [] && OnlyFatal(written)
      ensures ok <==> Acceptable(startup)
      ensures ok ==> written == [] && intact && data.database == Database(startup.value.parameters)
      ensures ok && "database" in startup.value.parameters ==> data.database == startup.value.parameters["database"]
      ensures ok && "database" !in startup.value.parameters ==> data.database == startup.value.parameters["user"]
      ensures ok <==>
                && startup.Some? && startup.value.StartupMessage?
                && "user" in startup.value.parameters
                && "replication" !in startup.value.parameters && "options" !in startup.value.parameters
                && startup.value.version <= 196608
      ensures !Announced(startup) ==> written == [] && intact
      ensures Announced(startup) && intact ==> |written| == 1
    {
      ok := ClientHandshake(startup);
      if ok && data.version > PROTOCOL_VERSION {
        ok := false;
      }
    }

    /** Copies until both directions have ended; the client gets what the server's direction sent. */
    method Pass(events: seq<Event>) returns (s: Session)
      requires AdvanceAll(OPENED, events).Some?
      modifies this`written
      ensures s == AdvanceAll(OPENED, events).value
      ensures written == old(written) + Forwards(s.fromServer.sent)
    {
      s := AdvanceAll(OPENED, events).value;
      written := written + Forwards(s.fromServer.sent);
    }

    /** `sources` are the databases the proxy serves. */
    method NewConn(form: HandshakeForm, startup: Option<Startup>, sources: map<string, Source>) returns (r: Ended)
      requires buffer == [] && written == [] && intact && clientOpen && !serverOpen
      requires forall name :: name in sources ==> AdvanceAll(OPENED, sources[name].events).Some?
      modifies this
      ensures !clientOpen
      ensures r == Crashed <==> form == AsWritten && !Acceptable(startup)
      ensures r == HandshakeFailed <==> form == Returning && !Acceptable(startup)
      ensures r == DatabaseUnknown <==> Acceptable(startup) && Database(startup.value.parameters) !in sources
      ensures r.DsnFailed? || r.DialFailed? || r.ReadyFailed? || r.Passed? ==>
                Acceptable(startup) && Database(startup.value.parameters) in sources
      ensures Acceptable(startup) && Database(startup.value.parameters) in sources ==>
                var source := sources[Database(startup.value.parameters)];
                && (r.DsnFailed? <==> source.dsn == None)
                && (r.DialFailed? <==> source.dsn.Some? && !DialFrontend(source.login))
                && (r.ReadyFailed? || r.Passed? <==> source.dsn.Some? && DialFrontend(source.login))
                && (intact && source.dsn.Some? && DialFrontend(source.login) ==> r.Passed?)
      ensures serverOpen <==> r.DialFailed? && Connected(sources[Database(startup.value.parameters)].login)
      ensures r.Passed? ==>
                var source := sources[Database(startup.value.parameters)];
                source.dsn.Some? && DialFrontend(source.login) && Some(r.session) == AdvanceAll(OPENED, source.events)
      ensures r.Passed? ==> written == READY + Forwards(r.session.fromServer.sent)
      ensures r.Passed? ==>
                && |written| == 2 + |r.session.fromServer.sent|
                && written[0] == AuthenticationOk && written[1] == ReadyForQuery('I')
                && forall i :: 0 <= i < |r.session.fromServer.sent| ==> written[i + 2] == Forwarded(r.session.fromServer.sent[i])
      ensures r.Crashed? || r.HandshakeFailed? <==>
                !(&& startup.Some? && startup.value.StartupMessage?
                  && "user" in startup.value.parameters
                  && "replication" !in startup.value.parameters && "options" !in startup.value.parameters
                  && startup.value.version <= 196608)
      ensures forall name :: !r.Crashed? && !r.HandshakeFailed? && Asked(startup, name) ==>
                (r.DatabaseUnknown? <==> name !in sources)
                && (r.DatabaseUnknown? && intact ==> written == [Fatal("database " + name + " not found")])
                && (name in sources ==>
                      && (r.DsnFailed? <==> sources[name].dsn == None)
                      && (r.DialFailed? <==> sources[name].dsn.Some? && sources[name].login != LoggedIn('I'))
                      && (serverOpen <==> r.DialFailed? && sources[name].login != BadEndpoint && sources[name].login != NoConnection)
                      && (r.Passed? ==> Some(r.session) == AdvanceAll(OPENED, sources[name].events)))
      ensures r.DsnFailed? && intact ==> written == [Fatal("failed to get DSN")]
      ensures r.DialFailed? && intact ==> written == [Fatal("failed to connect to server")]
      ensures r.ReadyFailed? ==> written <= READY
      ensures !r.Passed? && !r.ReadyFailed? ==> OnlyFatal(written)
      ensures r.Crashed? || r.HandshakeFailed? ==>
                if Announced(startup) then intact ==> |written| == 1 else written == []
      ensures (r.DatabaseUnknown? || r.DsnFailed? || r.DialFailed?) && intact ==> |written| == 1
    {
      var accepted := Open(startup);
      if !accepted {
        r := match form case AsWritten => Crashed case Returning => HandshakeFailed;
      } else if data.database !in sources {
        SendFatal("database " + data.database + " not found");
        r := DatabaseUnknown;
      } else {
        r := Serve(sources[data.database]);
      }
      clientOpen := false;
    }

    /** The rest of newConn, once the data source is known. */
    method Serve(source: Source) returns (r: Ended)
      requires buffer == [] && written == [] && intact && clientOpen && !serverOpen
      requires AdvanceAll(OPENED, source.events).Some?
      modifies this`buffer, this`written, this`intact, this`serverOpen
      ensures serverOpen <==> r.DialFailed? && Connected(source.login)
      ensures r.DsnFailed? || r.DialFailed? || r.ReadyFailed? || r.Passed?
      ensures r.DsnFailed? <==> source.dsn == None
      ensures r.DialFailed? <==> source.dsn.Some? && !DialFrontend(source.login)
      ensures r.DsnFailed? || r.DialFailed? ==> OnlyFatal(written) && (intact ==> |written| == 1)
      ensures r.DsnFailed? && intact ==> written == [Fatal("failed to get DSN")]
      ensures r.DialFailed? && intact ==> written == [Fatal("failed to connect to server")]
      ensures r.ReadyFailed? ==> written <= READY && !intact
      ensures r.Passed? ==> Some(r.session) == AdvanceAll(OPENED, source.events)
      ensures r.Passed? ==> written == READY + Forwards(r.session.fromServer.sent)
    {
      if source.dsn == None {
        SendFatal("failed to get DSN");
        return DsnFailed;
      }
      serverOpen := Connected(source.login);
      if !DialFrontend(source.login) {
        SendFatal("failed to connect to server");
        return DialFailed;
      }
      var ready := SendReady();
      if ready {
        var s := Pass(source.events);
        r := Passed(s);
      } else {
        r := ReadyFailed;
      }
      serverOpen := false;
    }
  }

  /**
   What the client reads is one fatal error or the ready sequence followed by what
   the server sent, in order; the two never mix.
   */
  lemma TranscriptIsOneOfTwo(t: seq<ToClient>, r: Ended)
    requires r.Passed? ==> Reachable(r.session) && t == READY + Forwards(r.session.fromServer.sent)
    requires r.ReadyFailed? ==> t <= READY
    requires !r.Passed? && !r.ReadyFailed? ==> OnlyFatal(t)
    ensures OnlyFatal(t) || (r.Passed? && ReadyThenServer(t, r.session.fromServer.received)) || t <= READY
    ensures forall i :: 0 <= i < |t| && t[i].Fatal? ==> |t| == 1
    ensures forall i :: 0 <= i < |t| && t[i].Forwarded? ==> i >= 2 && t[..2] == READY
    ensures forall i :: 0 <= i < |t| && t[i].Forwarded? ==>
              r.Passed? && i - 2 < |r.session.fromServer.received| && t[i].message == r.session.fromServer.received[i - 2]
  {
    if r.Passed? {
      StreamsAreFaithful(r.session);
      var d := r.session.fromServer;
      assert d.received[..|d.sent|] == d.sent;
    }
  }
}
