/** The AMQP worker: handle a delivery, then ack, requeue or dead-letter it. */
module AmqpWorker {
  import opened Common
  import opened Messages
  import opened Converter
  import opened DeadLetters

  const CONTENT_TYPE := "application/o5-message"

  /** `count` is the x-delivery-count header, where the broker sets one. */
  datatype Incoming = Incoming(tag: string, messageId: string, contentType: string, count: Option<int>, body: Bytes)

  datatype Settings = Settings(codec: Codec, queueName: string, source: Option<AppInfo>)

  function DeliveryCount(d: Incoming): int {
    match d.count
    case None => 0
    case Some(n) => n
  }

  /** The message a delivery carries, if the worker can read it at all. */
  function Readable(cfg: Settings, d: Incoming): Option<Message> {
    if d.contentType != CONTENT_TYPE then None else cfg.codec.messageDecode(d.body)
  }

  function Death(cfg: Settings, d: Incoming, m: Message): DeadLetter {
    DeadLetter(m, "", "", "SQS", map["messageId" := d.messageId, "queueName" := cfg.queueName])
  }

  /**
   Everything one delivery can lead to, and whether it ends the consume loop.
   `Removed` is an ack, `Requeued` a nack.
   */
  ghost predicate Delivery(cfg: Settings, d: Incoming, effects: seq<Effect>, stops: bool) {
    match Readable(cfg, d)
    case None => effects == [] && stops
    case Some(m) =>
      && effects != [] && effects[0].Handled? && effects[0].message == m
      && if effects[0].ok then |effects| == 2 && effects[1] == Removed(d.tag, !stops)
         else if cfg.source.None? || DeliveryCount(d) < 3 then |effects| == 2 && effects[1] == Requeued(d.tag, !stops)
         else
           && |effects| >= 2 && effects[1].Died? && effects[1].death == Stamped(cfg.source.value, Death(cfg, d, m))
           && if effects[1].ok then |effects| == 3 && effects[2] == Removed(d.tag, !stops)
              else |effects| == 2 && stops
  }

  class Worker {
    const cfg: Settings
    var log: seq<Effect>

    constructor (cfg: Settings)
      ensures this.cfg == cfg && log == []
    {
      this.cfg := cfg;
      log := [];
    }

    method CallHandler(m: Message) returns (ok: bool)
      modifies this
      ensures log == old(log) + [Handled(m, ok)]
    {
      ok := *;
      log := log + [Handled(m, ok)];
    }

    method DeadMessage(death: DeadLetter) returns (ok: bool)
      requires cfg.source.Some?
      modifies this
      ensures log == old(log) + [Died(Stamped(cfg.source.value, death), ok)]
    {
      var stamped := death.(handlerApp := cfg.source.value.sourceApp, handlerEnv := cfg.source.value.sourceEnv);
      ok := *;
      log := log + [Died(stamped, ok)];
    }

    method Ack(d: Incoming) returns (ok: bool)
      modifies this
      ensures log == old(log) + [Removed(d.tag, ok)]
    {
      ok := *;
      log := log + [Removed(d.tag, ok)];
    }

    method NackRequeue(d: Incoming) returns (ok: bool)
      modifies this
      ensures log == old(log) + [Requeued(d.tag, ok)]
    {
      ok := *;
      log := log + [Requeued(d.tag, ok)];
    }

    method KillMessage(d: Incoming, m: Message) returns (err: bool, ghost effects: seq<Effect>)
      requires cfg.source.Some?
      modifies this
      ensures log == old(log) + effects
      ensures effects != [] && effects[0].Died? && effects[0].death == Stamped(cfg.source.value, Death(cfg, d, m))
      ensures if effects[0].ok then |effects| == 2 && effects[1] == Removed(d.tag, !err) else |effects| == 1 && err
    {
      var ok := DeadMessage(Death(cfg, d, m));
      effects := [Died(Stamped(cfg.source.value, Death(cfg, d, m)), ok)];
      if !ok {
        return true, effects;
      }
      ok := Ack(d);
      effects := effects + [Removed(d.tag, ok)];
      err := !ok;
    }

    method HandleDelivery(d: Incoming) returns (err: bool, ghost effects: seq<Effect>)
      modifies this
      ensures log == old(log) + effects && Delivery(cfg, d, effects, err)
    {
      effects := [];
      var count := match d.count case None => 0 case Some(n) => n;
      if d.contentType != CONTENT_TYPE {
        return true, [];
      }
      var msg := cfg.codec.messageDecode(d.body);
      if msg == None {
        return true, [];
      }
      var ok := CallHandler(msg.value);
      effects := [Handled(msg.value, ok)];
      if ok {
        ok := Ack(d);
        effects := effects + [Removed(d.tag, ok)];
        return !ok, effects;
      }
      if count >= 3 && cfg.source.Some? {
        ghost var killing;
        err, killing := KillMessage(d, msg.value);
        effects := effects + killing;
      } else {
        ok := NackRequeue(d);
        effects := effects + [Requeued(d.tag, ok)];
        err := !ok;
      }
    }

    /** Consumes until the channel closes or a delivery ends the loop; later deliveries stay unsettled. */
    method RunLoopOnce(deliveries: seq<Incoming>) returns (err: bool, ghost done: seq<seq<Effect>>)
      modifies this
      ensures |done| <= |deliveries| && (!err ==> |done| == |deliveries|)
      ensures err ==> done != []
      ensures forall i :: 0 <= i < |done| ==> Delivery(cfg, deliveries[i], done[i], err && i == |done| - 1)
      ensures log == old(log) + Flatten(done)
    {
      err, done := false, [];
      for i := 0 to |deliveries|
        invariant |done| == i && !err
        invariant forall j :: 0 <= j < i ==> Delivery(cfg, deliveries[j], done[j], false)
        invariant log == old(log) + Flatten(done)
      {
        ghost var effects;
        err, effects := HandleDelivery(deliveries[i]);
        ghost var prev := done;
        ConcatAssociative(old(log), Flatten(prev), effects);
        done := done + [effects];
        assert done[..i] == prev;
        if err {
          return;
        }
      }
    }
  }

  // ------------------------------------------------------------------
  // Settlement discipline and the attempt bound
  // ------------------------------------------------------------------

  predicate Settles(e: Effect) {
    e.Removed? || e.Requeued?
  }

  /** A delivery is settled at most once, as the last thing done, and acked only after its message was disposed of. */
  lemma {:induction false} SettledOnceAndJustified(cfg: Settings, d: Incoming, effects: seq<Effect>, stops: bool, i: nat)
    requires Delivery(cfg, d, effects, stops) && i < |effects| && Settles(effects[i])
    ensures i == |effects| - 1 && effects[i].tag == d.tag
    ensures Readable(cfg, d).Some?
    ensures effects[i].Removed? ==> Disposed(effects[..i], Readable(cfg, d).value)
    ensures effects[i].Requeued? ==> forall m :: Handled(m, true) !in effects
  {
    var m := Readable(cfg, d).value;
    if effects[i].Removed? {
      if effects[0].ok {
        assert Handled(m, true) in effects[..i];
      } else {
        var death := effects[1].death;
        assert effects[..i][1] == Died(death, true) && death.message == m;
      }
    }
  }

  /** A delivery is left unsettled exactly when it cannot be read or its dead letter is refused; and either ends the loop. */
  lemma {:induction false} UnsettledIff(cfg: Settings, d: Incoming, effects: seq<Effect>, stops: bool)
    requires Delivery(cfg, d, effects, stops)
    ensures (forall i :: 0 <= i < |effects| ==> !Settles(effects[i]))
            <==> (Readable(cfg, d).None? || (|effects| == 2 && effects[1].Died? && !effects[1].ok))
    ensures (forall i :: 0 <= i < |effects| ==> !Settles(effects[i])) ==> stops
  {
    if |effects| > 0 {
      assert Settles(effects[|effects| - 1]) || (effects[|effects| - 1].Died? && !effects[|effects| - 1].ok);
    }
  }

  /** One delivery of a message and what it led to. */
  datatype Attempt = Attempt(delivery: Incoming, effects: seq<Effect>, stops: bool)

  predicate Reached(a: Attempt) {
    a.effects != [] && a.effects[0].Handled?
  }

  predicate Acked(a: Attempt) {
    a.effects != [] && a.effects[|a.effects| - 1].Removed? && a.effects[|a.effects| - 1].ok
  }

  /** A dead letter or an ack that failed. */
  predicate KillFailed(a: Attempt) {
    && a.effects != []
    && var last := a.effects[|a.effects| - 1];
    (last.Died? || last.Removed?) && !last.ok
  }

  function CountReached(history: seq<Attempt>): nat {
    if history == [] then 0 else (if Reached(history[0]) then 1 else 0) + CountReached(history[1..])
  }

  function CountKillFailed(history: seq<Attempt>): nat {
    if history == [] then 0 else (if KillFailed(history[0]) then 1 else 0) + CountKillFailed(history[1..])
  }

  /** The successive deliveries of one message: the count rises each time, and an acked message does not come back. */
  ghost predicate Redeliveries(cfg: Settings, history: seq<Attempt>) {
    && (forall i :: 0 <= i < |history| ==> Delivery(cfg, history[i].delivery, history[i].effects, history[i].stops))
    && (forall i :: 0 <= i < |history| - 1 ==>
          !Acked(history[i]) && DeliveryCount(history[i].delivery) < DeliveryCount(history[i + 1].delivery))
  }

  ghost predicate AlwaysFails(history: seq<Attempt>) {
    forall i :: 0 <= i < |history| ==> forall m :: Handled(m, true) !in history[i].effects
  }

  /** How an attempt that fails ends once the count has reached three. */
  lemma {:induction false} LateAttempt(cfg: Settings, a: Attempt)
    requires cfg.source.Some? && DeliveryCount(a.delivery) >= 3
    requires Delivery(cfg, a.delivery, a.effects, a.stops) && Reached(a)
    requires forall m :: Handled(m, true) !in a.effects
    ensures Acked(a) || KillFailed(a)
  {
    assert a.effects[0] in a.effects;
  }

  lemma {:induction false} AttemptsFrom(cfg: Settings, history: seq<Attempt>)
    requires cfg.source.Some? && Redeliveries(cfg, history) && AlwaysFails(history) && history != []
    ensures var n := DeliveryCount(history[0].delivery);
            CountReached(history) <= (if n < 3 then 3 - n else 0) + 1 + CountKillFailed(history)
  {
    var a, rest := history[0], history[1..];
    assert forall i :: 0 <= i < |rest| ==> rest[i] == history[i + 1];
    if rest != [] {
      assert !Acked(history[0]) && DeliveryCount(history[0].delivery) < DeliveryCount(history[0 + 1].delivery);
      AttemptsFrom(cfg, rest);
    }
    if DeliveryCount(a.delivery) >= 3 && Reached(a) && rest != [] {
      LateAttempt(cfg, a);
    }
  }

  /**
   With a dead-letter handler and counts that start at zero or above, a message
   that always fails reaches the application at most four times, plus once for
   every dead letter or ack that failed.
   */
  lemma {:induction false} AttemptsAreBounded(cfg: Settings, history: seq<Attempt>)
    requires cfg.source.Some? && Redeliveries(cfg, history) && AlwaysFails(history)
    requires history != [] ==> DeliveryCount(history[0].delivery) >= 0
    ensures CountReached(history) <= 4 + CountKillFailed(history)
  {
    if history != [] {
      AttemptsFrom(cfg, history);
    }
  }

  /**
   Where the broker sends no count, no number bounds the attempts: for every `n` a readable delivery can come back `n` times, reach the application each time and never be acked, without
   a single failure on the worker's side.
   */
  lemma {:induction false} WithoutCountIsUnbounded(cfg: Settings, d: Incoming, n: nat) returns (history: seq<Attempt>)
    requires d.count == None && Readable(cfg, d).Some?
    ensures |history| == n && AlwaysFails(history)
    ensures forall i :: 0 <= i < n ==>
              history[i].delivery == d && Delivery(cfg, d, history[i].effects, history[i].stops) && !Acked(history[i])
    ensures CountReached(history) == n && CountKillFailed(history) == 0
  {
    if n == 0 {
      history := [];
    } else {
      var rest := WithoutCountIsUnbounded(cfg, d, n - 1);
      var again := Attempt(d, [Handled(Readable(cfg, d).value, false), Requeued(d.tag, true)], false);
      history := [again] + rest;
      assert history[1..] == rest;
    }
  }

  /** Which deliveries are handled: those of the o5 content type whose body decodes. */
  lemma HandledIff(cfg: Settings, d: Incoming, effects: seq<Effect>, stops: bool)
    requires Delivery(cfg, d, effects, stops)
    ensures effects != [] <==> d.contentType == "application/o5-message" && cfg.codec.messageDecode(d.body).Some?
    ensures effects != [] ==> effects[0].Handled? && Some(effects[0].message) == cfg.codec.messageDecode(d.body)
  {
  }

  /**
   What becomes of a failure: it is requeued exactly when there is no dead-letter
   handler, no delivery count, or a count below three, and dead-lettered otherwise.
   */
  lemma FailureIsRequeuedIff(cfg: Settings, d: Incoming, effects: seq<Effect>, stops: bool)
    requires Delivery(cfg, d, effects, stops) && effects != [] && !effects[0].ok
    ensures |effects| >= 2
    ensures effects[1].Requeued? <==> cfg.source == None || d.count == None || d.count.value < 3
    ensures effects[1].Died? <==> cfg.source.Some? && d.count.Some? && d.count.value >= 3
    ensures effects[1].Requeued? ==> |effects| == 2
  {
  }

  /** A success is acked and nothing else, and only a failed ack then ends the loop. */
  lemma SuccessIsAcked(cfg: Settings, d: Incoming, effects: seq<Effect>, stops: bool)
    requires Delivery(cfg, d, effects, stops) && effects != [] && effects[0].ok
    ensures |effects| == 2 && effects[1].Removed? && effects[1].tag == d.tag && (stops <==> !effects[1].ok)
  {
  }

  /** What a dead letter says: who gave up, which delivery of which queue, and the message itself. */
  lemma DeadLetterHoldsDelivery(cfg: Settings, d: Incoming, effects: seq<Effect>, stops: bool, i: nat)
    requires Delivery(cfg, d, effects, stops) && i < |effects| && effects[i].Died?
    ensures var death := effects[i].death;
            && cfg.source.Some?
            && death.handlerApp == cfg.source.value.sourceApp && death.handlerEnv == cfg.source.value.sourceEnv
            && death.infraType == "SQS"
            && cfg.codec.messageDecode(d.body) == Some(death.message)
            && "messageId" in death.metadata && death.metadata["messageId"] == d.messageId
            && "queueName" in death.metadata && death.metadata["queueName"] == cfg.queueName
  {
  }

  /** A failure with a count below three, requeued. */
  function Again(cfg: Settings, d: Incoming, count: nat): Attempt
    requires Readable(cfg, d).Some?
  {
    Attempt(d.(count := Some(count)), [Handled(Readable(cfg, d).value, false), Requeued(d.tag, true)], false)
  }

  lemma AgainFails(cfg: Settings, d: Incoming, count: nat)
    requires Readable(cfg, d).Some? && count < 3
    ensures var a := Again(cfg, d, count);
            && Delivery(cfg, a.delivery, a.effects, a.stops) && Reached(a) && !Acked(a) && !KillFailed(a)
            && (forall m :: Handled(m, true) !in a.effects)
  {
  }

  /** A failure with a count of three, dead-lettered and acked. */
  function Killed(cfg: Settings, d: Incoming): Attempt
    requires Readable(cfg, d).Some? && cfg.source.Some?
  {
    var m, last := Readable(cfg, d).value, d.(count := Some(3));
    Attempt(last, [Handled(m, false), Died(Stamped(cfg.source.value, Death(cfg, last, m)), true), Removed(d.tag, true)], false)
  }

  lemma KilledEnds(cfg: Settings, d: Incoming)
    requires Readable(cfg, d).Some? && cfg.source.Some?
    ensures var a := Killed(cfg, d);
            && Delivery(cfg, a.delivery, a.effects, a.stops) && Reached(a) && Acked(a) && !KillFailed(a)
            && (forall m :: Handled(m, true) !in a.effects)
  {
  }

  /** The bound of `AttemptsAreBounded` is reached: counts of zero to three, and the fourth failure is dead-lettered and acked. */
  lemma FourAttemptsAreReached(cfg: Settings, d: Incoming) returns (history: seq<Attempt>)
    requires cfg.source.Some? && Readable(cfg, d).Some?
    ensures Redeliveries(cfg, history) && AlwaysFails(history)
    ensures |history| == 4 && forall i :: 0 <= i < 4 ==> history[i].delivery == d.(count := Some(i))
    ensures CountReached(history) == 4 && CountKillFailed(history) == 0 && Acked(history[3])
  {
    AgainFails(cfg, d, 0);
    AgainFails(cfg, d, 1);
    AgainFails(cfg, d, 2);
    KilledEnds(cfg, d);
    history := [Again(cfg, d, 0), Again(cfg, d, 1), Again(cfg, d, 2), Killed(cfg, d)];
    hide Delivery, Reached, Acked, KillFailed, CountReached, CountKillFailed;
    AllCount(history);
  }

  lemma {:induction false} AllCount(history: seq<Attempt>)
    requires forall i :: 0 <= i < |history| ==> Reached(history[i]) && !KillFailed(history[i])
    ensures CountReached(history) == |history| && CountKillFailed(history) == 0
  {
    if history != [] {
      hide Reached, KillFailed;
      AllCount(history[1..]);
    }
  }
}
