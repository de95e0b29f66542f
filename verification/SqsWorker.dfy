/** The SQS worker: parse, handle, and either delete or dead-letter. */
module SqsWorker {
  import opened Common
  import opened Text
  import opened Messages
  import opened Converter
  import opened SqsParsing
  import opened DeadLetters

  /** `source` is present when a dead-letter handler is configured, and is what it stamps. */
  datatype Settings = Settings(f: Formats, codec: Codec, queueUrl: string, source: Option<AppInfo>)

  function ReceiveCount(msg: SqsMessage): int {
    match msg.receiveCount
    case None => 0
    case Some(s) => match Atoi(s) case None => 0 case Some(n) => n
  }

  function Parsed(cfg: Settings, msg: SqsMessage): Result<Message, ParseError> {
    ParseSqsMessage(cfg.f, cfg.codec, msg)
  }

  /** What a dead letter for this delivery has to hold: the parsed message, or the raw body. */
  function Carried(cfg: Settings, msg: SqsMessage): Message {
    match Parsed(cfg, msg)
    case Ok(m) => m
    case Err(_) => RawDeath(msg.messageId, msg.body)
  }

  /** Attributes without a string value crash the worker when it builds a dead letter. */
  predicate Crashes(msg: SqsMessage) {
    exists name :: name in msg.attributes && msg.attributes[name] == None
  }

  function DeathMetadata(cfg: Settings, msg: SqsMessage): map<string, string> {
    map["messageId" := msg.messageId, "queueUrl" := cfg.queueUrl]
    + (map key | key in (set name | name in msg.attributes && msg.attributes[name].Some? :: "attr:" + name)
         :: AttributeFor(msg, key))
  }

  function AttributeFor(msg: SqsMessage, key: string): string {
    if |key| >= 5 && key[5..] in msg.attributes && msg.attributes[key[5..]].Some? then msg.attributes[key[5..]].value else ""
  }

  /** How killing a message ends: with no handler at all, with a refused dead letter, or with the delete. */
  ghost predicate Killing(cfg: Settings, msg: SqsMessage, effects: seq<Effect>) {
    if cfg.source.None? || Crashes(msg) then effects == []
    else
      && effects != [] && effects[0].Died?
      && effects[0].death == Stamped(cfg.source.value, DeadLetter(Carried(cfg, msg), "", "", "SQS", DeathMetadata(cfg, msg)))
      && if effects[0].ok then |effects| == 2 && effects[1].Removed? && effects[1].tag == msg.receiptHandle
         else |effects| == 1
  }

  /** Everything one delivery can lead to. The receive count plays no part in it. */
  ghost predicate Delivery(cfg: Settings, msg: SqsMessage, effects: seq<Effect>) {
    match Parsed(cfg, msg)
    case Err(_) => Killing(cfg, msg, effects)
    case Ok(m) =>
      && effects != [] && effects[0].Handled? && effects[0].message == m
      && if effects[0].ok then |effects| == 2 && effects[1].Removed? && effects[1].tag == msg.receiptHandle
         else Killing(cfg, msg, effects[1..])
  }

  /** A failed delivery whose dead letter cannot be built. */
  ghost predicate Panics(cfg: Settings, msg: SqsMessage, effects: seq<Effect>) {
    cfg.source.Some? && Crashes(msg) && (Parsed(cfg, msg).Err? || effects == [Handled(Parsed(cfg, msg).value, false)])
  }

  /** The first messages of a batch, each with what its delivery led to. */
  ghost predicate Deliveries(cfg: Settings, batch: seq<SqsMessage>, deliveries: seq<seq<Effect>>) {
    |deliveries| <= |batch| && forall i :: 0 <= i < |deliveries| ==> Delivery(cfg, batch[i], deliveries[i])
  }

  lemma NextDelivery(cfg: Settings, batch: seq<SqsMessage>, deliveries: seq<seq<Effect>>, effects: seq<Effect>)
    requires Deliveries(cfg, batch, deliveries) && |deliveries| < |batch|
    requires Delivery(cfg, batch[|deliveries|], effects)
    ensures Deliveries(cfg, batch, deliveries + [effects])
  {
  }

  class Worker {
    const cfg: Settings
    var log: seq<Effect>

    constructor (cfg: Settings)
      ensures this.cfg == cfg && log == []
    {
      this.cfg := cfg;
      log := [];
    }

    method CallHandler(m: Message) returns (ok: bool)
      modifies this
      ensures log == old(log) + [Handled(m, ok)]
    {
      ok := *;
      log := log + [Handled(m, ok)];
    }

    method DeadMessage(death: DeadLetter) returns (ok: bool)
      requires cfg.source.Some?
      modifies this
      ensures log == old(log) + [Died(Stamped(cfg.source.value, death), ok)]
    {
      var stamped := death.(handlerApp := cfg.source.value.sourceApp, handlerEnv := cfg.source.value.sourceEnv);
      ok := *;
      log := log + [Died(stamped, ok)];
    }

    method DeleteMessage(msg: SqsMessage) returns (ok: bool)
      modifies this
      ensures log == old(log) + [Removed(msg.receiptHandle, ok)]
    {
      ok := *;
      log := log + [Removed(msg.receiptHandle, ok)];
    }

    /** `parsed` is None for a message that did not parse; `panic` is a run-time panic. */
    method KillMessage(msg: SqsMessage, parsed: Option<Message>) returns (err: bool, panic: bool, ghost effects: seq<Effect>)
      requires parsed == match Parsed(cfg, msg) { case Ok(m) => Some(m) case Err(_) => None }
      modifies this
      ensures log == old(log) + effects && Killing(cfg, msg, effects)
      ensures panic <==> cfg.source.Some? && Crashes(msg)
      ensures !err ==> effects != [] && effects[|effects| - 1] == Removed(msg.receiptHandle, true)
    {
      panic, effects := false, [];
      if cfg.source == None {
        return true, false, [];
      }
      var message := if parsed.Some? then parsed.value else RawDeath(msg.messageId, msg.body);
      if Crashes(msg) {
        return true, true, [];
      }
      var death := DeadLetter(message, "", "", "SQS", DeathMetadata(cfg, msg));
      var ok := DeadMessage(death);
      effects := [Died(Stamped(cfg.source.value, death), ok)];
      if !ok {
        return true, false, effects;
      }
      ok := DeleteMessage(msg);
      effects := effects + [Removed(msg.receiptHandle, ok)];
      err := !ok;
    }

    /** Both failures, of parsing and of handling, end the same way. */
    method GiveUp(msg: SqsMessage, parsed: Option<Message>) returns (panic: bool, ghost effects: seq<Effect>)
      requires parsed == match Parsed(cfg, msg) { case Ok(m) => Some(m) case Err(_) => None }
      modifies this
      ensures log == old(log) + effects && Killing(cfg, msg, effects)
      ensures panic <==> cfg.source.Some? && Crashes(msg)
      ensures panic ==> effects == []
    {
      panic, effects := false, [];
      if cfg.source == None && ReceiveCount(msg) <= 3 {
        return;
      }
      var killError;
      killError, panic, effects := KillMessage(msg, parsed);
    }

    method HandleMessage(msg: SqsMessage) returns (panic: bool, ghost effects: seq<Effect>)
      modifies this
      ensures log == old(log) + effects && Delivery(cfg, msg, effects)
      ensures panic <==> Panics(cfg, msg, effects)
    {
      panic, effects := false, [];
      var parsed := Parsed(cfg, msg);
      if parsed.Err? {
        panic, effects := GiveUp(msg, None);
        return;
      }
      var ok := CallHandler(parsed.value);
      ghost var rest;
      if ok {
        ok := DeleteMessage(msg);
        rest := [Removed(msg.receiptHandle, ok)];
        effects := [Handled(parsed.value, true)] + rest;
      } else {
        panic, rest := GiveUp(msg, Some(parsed.value));
        effects := [Handled(parsed.value, false)] + rest;
        assert effects[1..] == rest;
      }
      ConcatAssociative(old(log), effects[..1], rest);
    }

    /** One batch; a panic ends the process and with it the batch. */
    method FetchOnce(batch: seq<SqsMessage>) returns (panic: bool, ghost deliveries: seq<seq<Effect>>)
      modifies this
      ensures log == old(log) + Flatten(deliveries)
      ensures Deliveries(cfg, batch, deliveries) && (!panic ==> |deliveries| == |batch|)
      ensures forall i :: 0 <= i < |deliveries| ==> (Panics(cfg, batch[i], deliveries[i]) <==> panic && i == |deliveries| - 1)
      ensures panic ==> deliveries != []
    {
      hide Delivery, Panics;
      panic, deliveries := false, [];
      for i := 0 to |batch|
        invariant |deliveries| == i && !panic && Deliveries(cfg, batch, deliveries)
        invariant forall j :: 0 <= j < i ==> !Panics(cfg, batch[j], deliveries[j])
        invariant log == old(log) + Flatten(deliveries)
      {
        ghost var effects;
        panic, effects := HandleMessage(batch[i]);
        FlattenAppend(deliveries, effects);
        ConcatAssociative(old(log), Flatten(deliveries), effects);
        NextDelivery(cfg, batch, deliveries, effects);
        deliveries := deliveries + [effects];
        if panic {
          return;
        }
      }
    }
  }

  // ------------------------------------------------------------------
  // Delete discipline
  // ------------------------------------------------------------------

  /** A delete ends the delivery and comes only after the message was disposed of. */
  lemma DeleteIsJustified(cfg: Settings, msg: SqsMessage, effects: seq<Effect>, i: nat)
    requires Delivery(cfg, msg, effects) && i < |effects| && effects[i].Removed?
    ensures i == |effects| - 1 && effects[i].tag == msg.receiptHandle
    ensures Disposed(effects[..i], Carried(cfg, msg))
    ensures Parsed(cfg, msg).Err? ==> cfg.source.Some?
  {
    var m := Carried(cfg, msg);
    if Parsed(cfg, msg).Err? {
      var d := effects[0].death;
      assert Died(d, true) in effects[..i] && d.message == m;
    } else if effects[0].ok {
      assert Handled(m, true) in effects[..i];
    } else {
      var d := effects[1].death;
      assert effects[..i][1] == Died(d, true) && d.message == m;
    }
  }

  /** Without a dead-letter handler only a success is deleted; with one, every failure takes the kill path at once. */
  lemma FailuresAndDeadLetters(cfg: Settings, msg: SqsMessage, effects: seq<Effect>)
    requires Delivery(cfg, msg, effects)
    requires forall m :: Handled(m, true) !in effects
    ensures cfg.source.None? ==> forall i :: 0 <= i < |effects| ==> effects[i].Handled?
    ensures cfg.source.Some? && !Crashes(msg) ==>
              exists i :: 0 <= i < |effects| && effects[i].Died? && effects[i].death.message == Carried(cfg, msg)
  {
    if Parsed(cfg, msg).Ok? {
      assert effects[0] in effects;
      if cfg.source.Some? && !Crashes(msg) {
        assert effects[1].Died?;
      } else {
        assert |effects[1..]| == 0;
      }
    } else if cfg.source.Some? && !Crashes(msg) {
      assert effects[0].Died?;
    }
  }

  /**
   What a dead letter says: who gave up, which delivery of which queue, every attribute,
   and the message, parsed or, when it did not parse, as the raw body it came with.
   */
  lemma DeadLetterHoldsDelivery(cfg: Settings, msg: SqsMessage, effects: seq<Effect>, i: nat)
    requires Delivery(cfg, msg, effects) && i < |effects| && effects[i].Died?
    ensures var death := effects[i].death;
            && cfg.source.Some?
            && death.handlerApp == cfg.source.value.sourceApp && death.handlerEnv == cfg.source.value.sourceEnv
            && death.infraType == "SQS"
            && "messageId" in death.metadata && death.metadata["messageId"] == msg.messageId
            && "queueUrl" in death.metadata && death.metadata["queueUrl"] == cfg.queueUrl
            && (forall name :: name in msg.attributes ==>
                  "attr:" + name in death.metadata && Some(death.metadata["attr:" + name]) == msg.attributes[name])
            && (Parsed(cfg, msg).Ok? ==> death.message == Parsed(cfg, msg).value)
            && (Parsed(cfg, msg).Err? ==>
                  && death.message.messageId == msg.messageId && death.message.body.Some?
                  && death.message.body.value.encoding == Raw && death.message.body.value.value == msg.body
                  && death.message.body.value.typeUrl == "/o5.messaging.v1.topic.RawMessageTopic/Raw")
  {
    hide DeathMetadata, Parsed;
    DeathOfDelivery(cfg, msg, effects, i);
    AttributesAreKept(cfg, msg);
  }

  lemma DeathOfDelivery(cfg: Settings, msg: SqsMessage, effects: seq<Effect>, i: nat)
    requires Delivery(cfg, msg, effects) && i < |effects| && effects[i].Died?
    ensures cfg.source.Some? && !Crashes(msg)
    ensures effects[i].death == Stamped(cfg.source.value, DeadLetter(Carried(cfg, msg), "", "", "SQS", DeathMetadata(cfg, msg)))
  {
    hide DeathMetadata, Parsed, Carried, Crashes;
  }

  lemma AttributesAreKept(cfg: Settings, msg: SqsMessage)
    requires !Crashes(msg)
    ensures forall name :: name in msg.attributes ==>
              "attr:" + name in DeathMetadata(cfg, msg) && Some(DeathMetadata(cfg, msg)["attr:" + name]) == msg.attributes[name]
    ensures "messageId" in DeathMetadata(cfg, msg) && DeathMetadata(cfg, msg)["messageId"] == msg.messageId
    ensures "queueUrl" in DeathMetadata(cfg, msg) && DeathMetadata(cfg, msg)["queueUrl"] == cfg.queueUrl
  {
    var keys := set name | name in msg.attributes && msg.attributes[name].Some? :: "attr:" + name;
    forall name | name in msg.attributes
      ensures "attr:" + name in keys && Some(AttributeFor(msg, "attr:" + name)) == msg.attributes[name]
    {
      assert ("attr:" + name)[5..] == name;
    }
    assert "messageId"[0] == 'm' && "queueUrl"[0] == 'q';
    assert forall key :: key in keys ==> key[0] == 'a';
  }

  /** The application sees a delivery once, as the message it parses to, or not at all; a success is then deleted and nothing else. */
  lemma HandledOnceIff(cfg: Settings, msg: SqsMessage, effects: seq<Effect>)
    requires Delivery(cfg, msg, effects)
    ensures forall i :: 0 <= i < |effects| && effects[i].Handled? ==> i == 0 && Ok(effects[0].message) == ParseSqsMessage(cfg.f, cfg.codec, msg)
    ensures ParseSqsMessage(cfg.f, cfg.codec, msg).Ok? <==> effects != [] && effects[0].Handled?
    ensures effects != [] && effects[0].Handled? && effects[0].ok ==> |effects| == 2 && effects[1].Removed? && effects[1].tag == msg.receiptHandle
  {
    hide ParseSqsMessage, DeathMetadata, Crashes;
    if Parsed(cfg, msg).Ok? && !effects[0].ok {
      assert forall i :: 1 <= i < |effects| ==> effects[i] == effects[1..][i - 1];
    }
  }

  /** What is deleted unhandled left its message behind: the parsed one, or the raw body, in a dead letter just published. */
  lemma DeletedUnhandledIsInDeadLetter(cfg: Settings, msg: SqsMessage, effects: seq<Effect>, i: nat)
    requires Delivery(cfg, msg, effects) && i < |effects| && effects[i].Removed?
    requires forall m :: Handled(m, true) !in effects
    ensures i > 0 && effects[i - 1].Died? && effects[i - 1].ok
    ensures Parsed(cfg, msg).Ok? ==> effects[i - 1].death.message == Parsed(cfg, msg).value
    ensures Parsed(cfg, msg).Err? ==>
              var m := effects[i - 1].death.message;
              m.messageId == msg.messageId && m.body.Some? && m.body.value.encoding == Raw && m.body.value.value == msg.body
  {
    assert effects[0].Handled? ==> effects[0] in effects;
  }

  /** Over a whole run: every delete in the log belongs to a delivery that disposed of its message first. */
  lemma {:induction false} RunDeletesAreJustified(cfg: Settings, batch: seq<SqsMessage>, deliveries: seq<seq<Effect>>, k: nat)
    requires Deliveries(cfg, batch, deliveries)
    requires k < |Flatten(deliveries)| && Flatten(deliveries)[k].Removed?
    ensures exists i :: 0 <= i < |batch| && Flatten(deliveries)[k].tag == batch[i].receiptHandle
                        && Disposed(Flatten(deliveries)[..k], Carried(cfg, batch[i]))
  {
    var n := |deliveries| - 1;
    var before, last := Flatten(deliveries[..n]), deliveries[n];
    assert Flatten(deliveries) == before + last;
    if k < |before| {
      RunDeletesAreJustified(cfg, batch, deliveries[..n], k);
      assert Flatten(deliveries)[..k] == before[..k];
    } else {
      DeleteIsJustified(cfg, batch[n], last, k - |before|);
      assert Flatten(deliveries)[..k] == before + last[..k - |before|];
      DisposedGrows(before, last[..k - |before|], Carried(cfg, batch[n]));
    }
  }
}
