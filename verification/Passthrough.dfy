/** The Postgres proxy's two copiers, one per direction, under one cancellable group. */
module Passthrough {
  import opened Common

  datatype Message = Terminate | Data(body: Bytes)

  /** What copyFrom returns; `Cancelled` is its nil return. */
  datatype Ending = ReceiveFailed | FlushFailed | Terminated | Cancelled

  datatype Phase = Receiving | Holding(message: Message) | Checking | Done(ending: Ending)

  /** One direction: what came in, what was flushed out, and where the loop stands. */
  datatype Direction = Direction(received: seq<Message>, sent: seq<Message>, phase: Phase)

  /** A failed flush may or may not have written the message. */
  datatype Action = Got(message: Message) | NothingCame | FlushOk | FlushBroke(written: bool) | Look(cancelled: bool)

  const START := Direction([], [], Receiving)

  function Act(d: Direction, a: Action): Option<Direction> {
    match a
    case Got(m) =>
      if d.phase.Receiving? then Some(Direction(d.received + [m], d.sent, Holding(m))) else None
    case NothingCame =>
      if d.phase.Receiving? then Some(d.(phase := Done(ReceiveFailed))) else None
    case FlushOk =>
      if d.phase.Holding? then
        Some(Direction(d.received, d.sent + [d.phase.message], if d.phase.message.Terminate? then Done(Terminated) else Checking))
      else None
    case FlushBroke(written) =>
      if d.phase.Holding? then
        Some(Direction(d.received, d.sent + if written then [d.phase.message] else [], Done(FlushFailed)))
      else None
    case Look(cancelled) =>
      if d.phase.Checking? then Some(d.(phase := if cancelled then Done(Cancelled) else Receiving)) else None
  }

  function ActAll(d: Direction, actions: seq<Action>): Option<Direction> {
    if actions == [] then Some(d)
    else
      var before := ActAll(d, actions[..|actions| - 1]);
      if before.Some? then Act(before.value, actions[|actions| - 1]) else None
  }

  lemma ActNone(d: Direction)
    ensures ActAll(d, []) == Some(d)
  {
  }

  lemma ActNext(d: Direction, actions: seq<Action>, a: Action)
    ensures ActAll(d, actions + [a]) ==
      if ActAll(d, actions).Some? then Act(ActAll(d, actions).value, a) else None
  {
    assert (actions + [a])[..|actions|] == actions;
  }

  /** The connection pair one copier works on. */
  class Pipe {
    /** On a sound connection reading fails only at the end of the input, writing never, and nobody cancels. */
    const sound: bool
    /** What the source will ever deliver. */
    var incoming: seq<Message>
    var received: seq<Message>
    var buffer: seq<Message>
    var sent: seq<Message>

    constructor (incoming: seq<Message>, sound: bool)
      ensures this.incoming == incoming && this.sound == sound && received == [] && buffer == [] && sent == []
    {
      this.incoming, this.sound, received, buffer, sent := incoming, sound, [], [], [];
    }

    method Receive() returns (m: Option<Message>)
      modifies this`incoming, this`received
      ensures m.Some? ==> old(incoming) == [m.value] + incoming && received == old(received) + [m.value]
      ensures m == None ==> incoming == old(incoming) && received == old(received)
      ensures sound && m == None ==> incoming == []
    {
      m := None;
      var arrived := *;
      if incoming != [] {
        if sound || arrived {
          m, received, incoming := Some(incoming[0]), received + [incoming[0]], incoming[1..];
        }
      }
    }

    method Send(m: Message)
      modifies this`buffer
      ensures buffer == old(buffer) + [m]
    {
      buffer := buffer + [m];
    }

    /** Writes the buffer out; on an error some first part of it was written. */
    method Flush() returns (ok: bool, ghost written: nat)
      modifies this`buffer, this`sent
      ensures buffer == [] && written <= |old(buffer)|
      ensures sent == old(sent) + old(buffer)[..written]
      ensures ok ==> written == |old(buffer)|
      ensures sound ==> ok
    {
      ok, written := true, |buffer|;
      var broken := *;
      if !sound && broken {
        var n: nat :| n <= |buffer|;
        ok, written, sent := false, n, sent + buffer[..n];
      } else {
        sent := sent + buffer;
        assert buffer[..|buffer|] == buffer;
      }
      buffer := [];
    }

    method ContextDone() returns (done: bool)
      ensures sound ==> !done
    {
      done := *;
      done := done && !sound;
    }

    /** `actions` is the run of the direction that the loop went through. */
    method CopyFrom() returns (r: Ending, ghost actions: seq<Action>)
      requires received == [] && sent == [] && buffer == []
      modifies this
      ensures ActAll(START, actions) == Some(Direction(received, sent, Done(r)))
      ensures old(incoming) == received + incoming
      ensures sound ==> sent == received && (r == Terminated || (r == ReceiveFailed && sent == old(incoming)))
      ensures sound ==> (r == Terminated <==> Terminate in old(incoming))
    {
      hide ActAll;
      var terminate := false;
      actions := [];
      ActNone(START);
      while true
        invariant buffer == []
        invariant ActAll(START, actions) == Some(Direction(received, sent, Receiving))
        invariant old(incoming) == received + incoming && sent == received && Terminate !in received
        decreases |incoming|
      {
        var msg := Receive();
        if msg == None {
          ActNext(START, actions, NothingCame);
          actions := actions + [NothingCame];
          return ReceiveFailed, actions;
        }
        ActNext(START, actions, Got(msg.value));
        actions := actions + [Got(msg.value)];
        terminate := msg.value.Terminate?;
        Send(msg.value);
        assert buffer == [msg.value];
        ghost var before := sent;
        var ok, written := Flush();
        if !ok {
          assert sent == before + if written == 1 then [msg.value] else [];
          ActNext(START, actions, FlushBroke(written == 1));
          actions := actions + [FlushBroke(written == 1)];
          return FlushFailed, actions;
        }
        assert sent == before + [msg.value];
        ActNext(START, actions, FlushOk);
        actions := actions + [FlushOk];
        if terminate {
          return Terminated, actions;
        }
        var done := ContextDone();
        ActNext(START, actions, Look(done));
        actions := actions + [Look(done)];
        if done {
          return Cancelled, actions;
        }
      }
    }
  }

  /** Both directions, the shared context, and the first error the group saw. */
  datatype Session = Session(fromServer: Direction, fromClient: Direction, cancelled: bool, first: Option<Ending>)

  datatype Event = Server(action: Action) | Client(action: Action) | OuterCancel

  const OPENED := Session(START, START, false, None)

  /** The group records the first error and cancels the shared context; a nil return does neither. */
  function Noted(s: Session, d: Direction): Session {
    if d.phase.Done? && d.phase.ending != Cancelled && s.first == None
    then s.(cancelled := true, first := Some(d.phase.ending))
    else s
  }

  /** A copier that looks at the context sees whether it is cancelled. */
  predicate SeesContext(s: Session, a: Action) {
    a.Look? ==> a.cancelled == s.cancelled
  }

  function Advance(s: Session, e: Event): Option<Session> {
    match e
    case OuterCancel => Some(s.(cancelled := true))
    case Server(a) =>
      var d := Act(s.fromServer, a);
      if d.Some? && SeesContext(s, a) then Some(Noted(s.(fromServer := d.value), d.value)) else None
    case Client(a) =>
      var d := Act(s.fromClient, a);
      if d.Some? && SeesContext(s, a) then Some(Noted(s.(fromClient := d.value), d.value)) else None
  }

  function AdvanceAll(s: Session, events: seq<Event>): Option<Session> {
    if events == [] then Some(s)
    else
      var before := AdvanceAll(s, events[..|events| - 1]);
      if before.Some? then Advance(before.value, events[|events| - 1]) else None
  }

  ghost predicate Reachable(s: Session) {
    exists events :: AdvanceAll(OPENED, events) == Some(s)
  }

  /** What passthrough returns once both copiers have: no error, or the first one. */
  function Outcome(s: Session): Option<Ending>
    requires s.fromServer.phase.Done? && s.fromClient.phase.Done?
  {
    if s.first == None || s.first == Some(Terminated) then None else s.first
  }

  /** Everything received was sent, except possibly the last message; Terminate can only be the last. */
  ghost predicate Faithful(d: Direction) {
    && d.sent <= d.received
    && |d.received| <= |d.sent| + 1
    && forall i :: 0 <= i < |d.received| && d.received[i] == Terminate ==> i == |d.received| - 1
  }

  ghost predicate DirectionInv(d: Direction) {
    && Faithful(d)
    && match d.phase
       case Receiving => d.sent == d.received && Terminate !in d.received
       case Checking => d.sent == d.received && Terminate !in d.received
       case Holding(m) => d.received == d.sent + [m]
       case Done(Terminated) => d.sent == d.received && d.sent != [] && d.sent[|d.sent| - 1] == Terminate
       case Done(FlushFailed) => d.received != []
       case Done(ReceiveFailed) => d.sent == d.received && Terminate !in d.received
       case Done(Cancelled) => d.sent == d.received && Terminate !in d.received
  }

  ghost predicate SessionInv(s: Session) {
    && DirectionInv(s.fromServer) && DirectionInv(s.fromClient)
    && (s.first == None ==> Quiet(s.fromServer) && Quiet(s.fromClient))
    && (s.first.Some? ==> s.cancelled && (s.fromServer.phase == Done(s.first.value) || s.fromClient.phase == Done(s.first.value)))
    && s.first != Some(Cancelled)
    && (s.fromServer.phase == Done(Cancelled) || s.fromClient.phase == Done(Cancelled) ==> s.cancelled)
  }

  /** Not ended with an error. */
  predicate Quiet(d: Direction) {
    d.phase.Done? ==> d.phase.ending == Cancelled
  }

  lemma ActKeeps(d: Direction, a: Action)
    requires DirectionInv(d) && Act(d, a).Some?
    ensures DirectionInv(Act(d, a).value)
  {
  }

  lemma AdvanceKeeps(s: Session, e: Event)
    requires SessionInv(s) && Advance(s, e).Some?
    ensures SessionInv(Advance(s, e).value)
  {
    match e
    case OuterCancel =>
    case Server(a) => ActKeeps(s.fromServer, a);
    case Client(a) => ActKeeps(s.fromClient, a);
  }

  lemma {:induction false} InvAlways(events: seq<Event>)
    requires AdvanceAll(OPENED, events).Some?
    ensures SessionInv(AdvanceAll(OPENED, events).value)
  {
    if events != [] {
      var init := events[..|events| - 1];
      InvAlways(init);
      AdvanceKeeps(AdvanceAll(OPENED, init).value, events[|events| - 1]);
    }
  }

  /**
   In every interleaving each direction has sent a prefix of what it received, at
   most one message behind, and received nothing after a Terminate.
   */
  lemma StreamsAreFaithful(s: Session)
    requires Reachable(s)
    ensures Faithful(s.fromServer) && Faithful(s.fromClient)
  {
    var events :| AdvanceAll(OPENED, events) == Some(s);
    InvAlways(events);
  }

  /** A direction has ended with Terminate exactly when the last message it forwarded without a write error is Terminate. */
  lemma TerminatedMeansForwarded(s: Session, d: Direction)
    requires Reachable(s) && (d == s.fromServer || d == s.fromClient)
    ensures d.phase == Done(Terminated) <==> Terminate in d.sent && d.phase != Done(FlushFailed)
    ensures d.phase == Done(Terminated) ==> d.sent == d.received && d.sent[|d.sent| - 1] == Terminate
  {
    var events :| AdvanceAll(OPENED, events) == Some(s);
    InvAlways(events);
  }

  /**
   passthrough returns no error exactly when Terminate ended it, or when only
   cancellation from outside did; then no message was lost in the direction that ended it.
   */
  lemma CleanEndIff(s: Session)
    requires Reachable(s) && s.fromServer.phase.Done? && s.fromClient.phase.Done?
    ensures Outcome(s) == None <==>
      || s.first == Some(Terminated)
      || (s.fromServer.phase == Done(Cancelled) && s.fromClient.phase == Done(Cancelled))
    ensures Outcome(s) == None && s.first.Some? ==>
      || (s.fromServer.phase == Done(Terminated) && s.fromServer.sent == s.fromServer.received)
      || (s.fromClient.phase == Done(Terminated) && s.fromClient.sent == s.fromClient.received)
    ensures Outcome(s) == None && s.first == None ==>
      s.cancelled && s.fromServer.sent == s.fromServer.received && s.fromClient.sent == s.fromClient.received
  {
    var events :| AdvanceAll(OPENED, events) == Some(s);
    InvAlways(events);
  }

  /** How many more messages a direction can take once the context is cancelled. */
  function Allowance(d: Direction): nat {
    if d.phase.Receiving? then 1 else 0
  }

  /** Once one direction has failed or terminated, the other takes at most one more message, even if it was waiting. */
  lemma {:induction false} CancelledTakesOneMore(s: Session, events: seq<Event>)
    requires s.cancelled && AdvanceAll(s, events).Some?
    ensures var t := AdvanceAll(s, events).value;
      && t.cancelled
      && |t.fromServer.received| + Allowance(t.fromServer) <= |s.fromServer.received| + Allowance(s.fromServer)
      && |t.fromClient.received| + Allowance(t.fromClient) <= |s.fromClient.received| + Allowance(s.fromClient)
  {
    if events != [] {
      CancelledTakesOneMore(s, events[..|events| - 1]);
    }
  }

  /** The first error is final: what passthrough will return is settled by the first direction to fail. */
  lemma {:induction false} FirstErrorIsFinal(s: Session, events: seq<Event>)
    requires s.first.Some? && AdvanceAll(s, events).Some?
    ensures AdvanceAll(s, events).value.first == s.first
  {
    if events != [] {
      FirstErrorIsFinal(s, events[..|events| - 1]);
    }
  }

  /** A single copier, whatever its context does, is faithful to its source. */
  lemma {:induction false} RunIsFaithful(actions: seq<Action>)
    requires ActAll(START, actions).Some?
    ensures DirectionInv(ActAll(START, actions).value)
  {
    if actions != [] {
      var init := actions[..|actions| - 1];
      RunIsFaithful(init);
      ActKeeps(ActAll(START, init).value, actions[|actions| - 1]);
    }
  }

  function ActionsOf(events: seq<Event>, server: bool): seq<Action> {
    if events == [] then []
    else
      var last := events[|events| - 1];
      ActionsOf(events[..|events| - 1], server) +
      if server && last.Server? then [last.action] else if !server && last.Client? then [last.action] else []
  }

  lemma ActionsNext(events: seq<Event>, e: Event)
    ensures ActionsOf(events + [e], true) == if e.Server? then ActionsOf(events, true) + [e.action] else ActionsOf(events, true)
    ensures ActionsOf(events + [e], false) == if e.Client? then ActionsOf(events, false) + [e.action] else ActionsOf(events, false)
  {
    assert (events + [e])[..|events|] == events;
  }

  /** A step of the session is a step of at most one direction. */
  lemma AdvanceIsAct(s: Session, e: Event, t: Session)
    requires Advance(s, e) == Some(t)
    ensures if e.Server? then Act(s.fromServer, e.action) == Some(t.fromServer) else t.fromServer == s.fromServer
    ensures if e.Client? then Act(s.fromClient, e.action) == Some(t.fromClient) else t.fromClient == s.fromClient
  {
  }

  /** In a session each direction goes through a run of the copier. */
  lemma {:induction false} DirectionsAreCopiers(events: seq<Event>, s: Session)
    requires AdvanceAll(OPENED, events) == Some(s)
    ensures ActAll(START, ActionsOf(events, true)) == Some(s.fromServer)
    ensures ActAll(START, ActionsOf(events, false)) == Some(s.fromClient)
  {
    if events != [] {
      var init, last := events[..|events| - 1], events[|events| - 1];
      var before := AdvanceAll(OPENED, init).value;
      DirectionsAreCopiers(init, before);
      hide ActAll, ActionsOf, Act, Advance, AdvanceAll;
      assert events == init + [last];
      ActionsNext(init, last);
      AdvanceIsAct(before, last, s);
      match last
      case OuterCancel =>
      case Server(a) => ActNext(START, ActionsOf(init, true), a);
      case Client(a) => ActNext(START, ActionsOf(init, false), a);
    }
  }

  /**
   What passthrough returns is what the first direction to fail failed with: up to
   event `k` neither had, with it one has, and unless that was Terminate it is the result.
   */
  lemma {:induction false} OutcomeIsFirstFailure(events: seq<Event>, s: Session) returns (k: nat, before: Session, after: Session)
    requires AdvanceAll(OPENED, events) == Some(s) && s.first.Some?
    ensures k < |events| && AdvanceAll(OPENED, events[..k]) == Some(before) && AdvanceAll(OPENED, events[..k + 1]) == Some(after)
    ensures Quiet(before.fromServer) && Quiet(before.fromClient)
    ensures if events[k].Server? then after.fromServer.phase == Done(s.first.value) && !Quiet(after.fromServer)
            else events[k].Client? && after.fromClient.phase == Done(s.first.value) && !Quiet(after.fromClient)
    ensures s.fromServer.phase.Done? && s.fromClient.phase.Done? ==>
              Outcome(s) == if s.first == Some(Terminated) then None else s.first
  {
    var n := |events| - 1;
    var init := events[..n];
    var mid := AdvanceAll(OPENED, init).value;
    InvAlways(init);
    if mid.first == None {
      k, before, after := n, mid, s;
      assert events[..n + 1] == events;
    } else {
      FirstErrorIsFinal(mid, [events[n]]);
      OneAdvance(mid, events[n]);
      k, before, after := OutcomeIsFirstFailure(init, mid);
      assert init[..k] == events[..k] && init[..k + 1] == events[..k + 1];
    }
  }

  lemma OneAdvance(s: Session, e: Event)
    ensures AdvanceAll(s, [e]) == Advance(s, e)
  {
    assert [e][..0] == [];
  }
}
