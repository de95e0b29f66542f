/** Dead letters, and what a worker does to a message, as both workers see them. */
module DeadLetters {
  import opened Common
  import opened Messages
  import opened Converter

  datatype DeadLetter = DeadLetter(
    message: Message,
    handlerApp: string,
    handlerEnv: string,
    infraType: string,
    metadata: map<string, string>
  )

  /** The dead-letter handler names the sidecar that gave up on the message. */
  function Stamped(source: AppInfo, death: DeadLetter): DeadLetter {
    death.(handlerApp := source.sourceApp, handlerEnv := source.sourceEnv)
  }

  /** A message nobody could parse, as it is put into its dead letter. */
  function RawDeath(id: string, body: Bytes): Message {
    Message(id, "", "", Some(Body("/o5.messaging.v1.topic.RawMessageTopic/Raw", Raw, body)), "", "", "", map[], NoExtension)
  }

  /**
   What happens to a delivery, in order. `ok` is what the worker was told: a
   failed call may still have had its effect.
   */
  datatype Effect =
    | Handled(message: Message, ok: bool)
    | Died(death: DeadLetter, ok: bool)
    | Removed(tag: string, ok: bool)
    | Requeued(tag: string, ok: bool)

  /** Some effect hands the message over for good: the application took it or a dead letter with it was published. */
  ghost predicate Disposed(effects: seq<Effect>, message: Message) {
    || Handled(message, true) in effects
    || exists d: DeadLetter :: Died(d, true) in effects && d.message == message
  }

  lemma DisposedGrows(a: seq<Effect>, b: seq<Effect>, message: Message)
    requires Disposed(a, message) || Disposed(b, message)
    ensures Disposed(a + b, message)
  {
    if Handled(message, true) !in a + b {
      var d: DeadLetter :| (Died(d, true) in a || Died(d, true) in b) && d.message == message;
      assert Died(d, true) in a + b;
    }
  }
}
