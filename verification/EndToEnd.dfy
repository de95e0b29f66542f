/**
 The outbox on one side, a worker on the other, and between them a bus that
 keeps what it accepted until a worker removes it. Assumed of the bus: a message
 it accepted stays until it is removed, and may be delivered any number of times.
 */
module EndToEnd {
  import opened Common
  import opened Messages
  import opened OutboxProtocol
  import opened Publishers
  import opened DeadLetters
  import Sqs = SqsWorker
  import opened SqsParsing
  import Amqp = AmqpWorker

  /** `removed` are the positions of the bus log that a worker has removed; `effects` is what workers have done. */
  datatype System = System(outbox: State, removed: set<nat>, effects: seq<Effect>)

  /** On the bus or on a queue, to be delivered again. */
  predicate Pending(sys: System, k: nat) {
    k < |sys.outbox.bus| && k !in sys.removed
  }

  /**
   One delivery of bus position `k`. `done` is what the worker got through of
   `whole` before it finished or crashed; `gone` is whether the queue dropped it.
   */
  datatype Move =
    | OutboxMove(step: Step)
    | SqsMove(k: nat, sqs: Sqs.Settings, busArn: string, msg: SqsMessage, whole: seq<Effect>, done: seq<Effect>, gone: bool)
    | AmqpMove(k: nat, amqp: Amqp.Settings, d: Amqp.Incoming, stops: bool, whole: seq<Effect>, done: seq<Effect>, gone: bool)

  predicate HasRemoval(effects: seq<Effect>) {
    exists i :: 0 <= i < |effects| && effects[i].Removed?
  }

  ghost predicate Allowed(c: Config, sys: System, move: Move) {
    match move
    case OutboxMove(step) => Enabled(c, sys.outbox, step)
    case SqsMove(k, cfg, busArn, msg, whole, done, gone) =>
      && Pending(sys, k) && cfg.codec == c.codec && EnvelopeCarries(cfg.f)
      && BuildPutEventEntry(c.codec, busArn, sys.outbox.bus[k]).Some?
      && msg.body == cfg.f.envelope(BuildPutEventEntry(c.codec, busArn, sys.outbox.bus[k]).value)
      && Attribute(msg, SERVICE) == None
      && Sqs.Delivery(cfg, msg, whole) && done <= whole
      && (gone ==> HasRemoval(done))
    case AmqpMove(k, cfg, d, stops, whole, done, gone) =>
      && Pending(sys, k) && cfg.codec == c.codec
      && c.codec.messageEncode(sys.outbox.bus[k]) == Some(d.body) && d.contentType == Amqp.CONTENT_TYPE
      && Amqp.Delivery(cfg, d, whole, stops) && done <= whole
      && (gone ==> HasRemoval(done))
  }

  ghost function After(c: Config, sys: System, move: Move): System
    requires Allowed(c, sys, move)
  {
    match move
    case OutboxMove(step) =>
      sys.(outbox := Apply(c, sys.outbox, step))
    case SqsMove(k, _, _, _, _, done, gone) =>
      sys.(removed := if gone then sys.removed + {k} else sys.removed, effects := sys.effects + done)
    case AmqpMove(k, _, _, _, _, done, gone) =>
      sys.(removed := if gone then sys.removed + {k} else sys.removed, effects := sys.effects + done)
  }

  ghost function Unfold(c: Config, sys: System, moves: seq<Move>): Option<System> {
    if moves == [] then Some(sys)
    else match Unfold(c, sys, moves[..|moves| - 1])
      case None => None
      case Some(mid) =>
        if Allowed(c, mid, moves[|moves| - 1]) then Some(After(c, mid, moves[|moves| - 1])) else None
  }

  function Empty(now: int): System {
    System(Init(now), {}, [])
  }

  /** Every accepted message is still on its way or has been handed over. */
  ghost predicate Delivered(sys: System) {
    && (forall k :: k in sys.removed ==> k < |sys.outbox.bus|)
    && (forall k :: 0 <= k < |sys.outbox.bus| ==> Pending(sys, k) || Disposed(sys.effects, sys.outbox.bus[k]))
  }

  lemma SqsRemovalMeansDisposed(c: Config, sys: System, move: Move, i: nat)
    requires MessageCodecInverts(c.codec) && move.SqsMove? && Allowed(c, sys, move)
    requires i < |move.done| && move.done[i].Removed?
    ensures Disposed(move.whole[..i], sys.outbox.bus[move.k])
  {
    EventBridgeRoundTrip(move.sqs.f, c.codec, move.busArn, sys.outbox.bus[move.k], move.msg);
    Sqs.DeleteIsJustified(move.sqs, move.msg, move.whole, i);
  }

  lemma AmqpRemovalMeansDisposed(c: Config, sys: System, move: Move, i: nat)
    requires MessageCodecInverts(c.codec) && move.AmqpMove? && Allowed(c, sys, move)
    requires i < |move.done| && move.done[i].Removed?
    ensures Disposed(move.whole[..i], sys.outbox.bus[move.k])
  {
    Amqp.SettledOnceAndJustified(move.amqp, move.d, move.whole, move.stops, i);
  }

  /** A worker lets go of a delivery only once it has disposed of the message the bus had accepted. */
  lemma RemovalMeansDisposed(c: Config, sys: System, move: Move)
    requires MessageCodecInverts(c.codec) && Allowed(c, sys, move) && !move.OutboxMove? && move.gone
    ensures Disposed(move.done, sys.outbox.bus[move.k])
  {
    hide Disposed;
    assert move.done <= move.whole && HasRemoval(move.done);
    var i :| 0 <= i < |move.done| && move.done[i].Removed?;
    if move.SqsMove? {
      SqsRemovalMeansDisposed(c, sys, move, i);
    } else {
      AmqpRemovalMeansDisposed(c, sys, move, i);
    }
    assert move.whole[..i] == move.done[..i];
    DisposedGrows(move.done[..i], move.done[i..], sys.outbox.bus[move.k]);
    assert move.done == move.done[..i] + move.done[i..];
  }

  lemma DeliveredKept(c: Config, sys: System, move: Move)
    requires MessageCodecInverts(c.codec) && Delivered(sys) && Allowed(c, sys, move)
    ensures Delivered(After(c, sys, move))
  {
    var next := After(c, sys, move);
    forall k | 0 <= k < |next.outbox.bus|
      ensures Pending(next, k) || Disposed(next.effects, next.outbox.bus[k])
    {
      if !move.OutboxMove? {
        if move.gone {
          RemovalMeansDisposed(c, sys, move);
        }
        if Disposed(sys.effects, sys.outbox.bus[k]) || (k == move.k && move.gone) {
          DisposedGrows(sys.effects, move.done, sys.outbox.bus[k]);
        }
      } else {
        BusOnlyGrows(c, sys.outbox, move.step);
      }
    }
  }

  lemma BusOnlyGrows(c: Config, s: State, step: Step)
    requires Enabled(c, s, step)
    ensures s.bus <= Apply(c, s, step).bus
  {
  }

  lemma {:induction false} AlwaysDelivered(c: Config, now: int, moves: seq<Move>, sys: System)
    requires MessageCodecInverts(c.codec) && Unfold(c, Empty(now), moves) == Some(sys)
    ensures Inv(c, sys.outbox) && Delivered(sys)
  {
    if moves == [] {
      InitInv(c, now);
    } else {
      var init, last := moves[..|moves| - 1], moves[|moves| - 1];
      var mid := Unfold(c, Empty(now), init).value;
      AlwaysDelivered(c, now, init, mid);
      DeliveredKept(c, mid, last);
      if last.OutboxMove? {
        InvKept(c, mid.outbox, last.step);
      }
    }
  }

  /**
   Conservation from row to handler: in every state that outbox workers, crashes,
   deliveries and worker crashes can lead to, a row that was ever committed is
   still in the table, or its message is on the bus and is either still pending or
   was handled by the application or published inside a dead letter.
   */
  lemma RowsAreConserved(c: Config, now: int, moves: seq<Move>, sys: System, id: Id, row: Row)
    requires MessageCodecInverts(c.codec)
    requires Unfold(c, Empty(now), moves) == Some(sys)
    requires (id, row) in sys.outbox.committed
    ensures (id in sys.outbox.table && sys.outbox.table[id] == row)
            || exists k :: 0 <= k < |sys.outbox.bus|
                 && IsParseOf(c, id, row.data, sys.outbox.bus[k]) && sys.outbox.bus[k].messageId == id
                 && (Pending(sys, k) || Disposed(sys.effects, sys.outbox.bus[k]))
  {
    AlwaysDelivered(c, now, moves, sys);
    if !(id in sys.outbox.table && sys.outbox.table[id] == row) {
      var m :| m in sys.outbox.bus && IsParseOf(c, id, row.data, m);
      var k :| 0 <= k < |sys.outbox.bus| && sys.outbox.bus[k] == m;
      RowIdBecomesId(c, id, row.data, m);
      assert IsParseOf(c, id, row.data, sys.outbox.bus[k]);
    }
  }
}
