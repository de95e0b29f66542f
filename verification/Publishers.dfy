/** The two bus adapters the outbox publishes through. */
module Publishers {
  import opened Common
  import opened Messages
  import opened Converter
  import opened OutboxProtocol
  import opened World
  import RoutingKey

  datatype PublishError = Unencodable | CallFailed | EntryFailed(id: Id) | SendErrors(count: nat)

  const DETAIL_TYPE := "o5-message/v1"

  datatype PutEventEntry = PutEventEntry(detail: Bytes, detailType: string, source: string, busArn: string)

  datatype EntryResult = EntryResult(errorCode: Option<string>)

  function BuildPutEventEntry(codec: Codec, busArn: string, msg: Message): Option<PutEventEntry> {
    match codec.messageEncode(msg)
    case None => None
    case Some(detail) => Some(PutEventEntry(detail, DETAIL_TYPE, "o5/" + msg.sourceEnv + "/" + msg.sourceApp, busArn))
  }

  /** What every batcher promises: an ordered part of the ids, each of them accepted, and all of them without an error. */
  ghost predicate BatchOutcome(messages: seq<Message>, accepted: set<Id>, ids: seq<Id>, err: Option<PublishError>) {
    && Subsequence(ids, Ids(messages))
    && (forall id :: id in ids ==> id in accepted)
    && (err.None? ==> ids == Ids(messages))
  }

  // ------------------------------------------------------------------
  // What the clients were asked and what they answered
  // ------------------------------------------------------------------

  /** The ids of the messages whose result is a success, in order. */
  function Picked(messages: seq<Message>, results: seq<bool>): seq<Id> {
    if |messages| != |results| || messages == [] then []
    else
      var k := |messages| - 1;
      Picked(messages[..k], results[..k]) + if results[k] then [messages[k].messageId] else []
  }

  function SentBy(call: BusCall): seq<Id> {
    match call
    case PutEventsCall(_, None) => []
    case PutEventsCall(messages, Some(results)) => Picked(messages, results)
    case PublishCall(message, ok) => if ok then [message.messageId] else []
  }

  /** The ids the clients reported as sent, call after call. */
  function ReportedSent(calls: seq<BusCall>): seq<Id> {
    if calls == [] then [] else ReportedSent(calls[..|calls| - 1]) + SentBy(calls[|calls| - 1])
  }

  /** The messages a series of single publishes offered. */
  function Published(calls: seq<BusCall>): seq<Message> {
    if calls == [] then []
    else
      var last := calls[|calls| - 1];
      Published(calls[..|calls| - 1]) + if last.PublishCall? then [last.message] else []
  }

  function Encodable(codec: Codec, messages: seq<Message>): seq<Message> {
    if messages == [] then []
    else
      var last := messages[|messages| - 1];
      Encodable(codec, messages[..|messages| - 1]) + if codec.messageEncode(last).Some? then [last] else []
  }

  predicate AllEncodable(codec: Codec, messages: seq<Message>) {
    forall i :: 0 <= i < |messages| ==> codec.messageEncode(messages[i]).Some?
  }

  function FirstFailure(messages: seq<Message>, results: seq<bool>): Option<PublishError> {
    if |messages| != |results| || messages == [] then None
    else
      var k := |messages| - 1;
      var before := FirstFailure(messages[..k], results[..k]);
      if before.Some? || results[k] then before else Some(EntryFailed(messages[k].messageId))
  }

  /** EventBridge: one call for the whole batch, or none if a message has no encoding; every entry reported as a success is returned. */
  ghost predicate EventBridgeBatch(codec: Codec, messages: seq<Message>, calls: seq<BusCall>, ids: seq<Id>, err: Option<PublishError>) {
    && ids == ReportedSent(calls)
    && if !AllEncodable(codec, messages) then calls == [] && err == Some(Unencodable)
       else
         && |calls| == 1 && calls[0].PutEventsCall? && calls[0].messages == messages
         && match calls[0].results
            case None => err == Some(CallFailed)
            case Some(results) => |results| == |messages| && err == FirstFailure(messages, results)
  }

  /** AMQP: every message that has an encoding is offered, in order, whatever became of the others; the error counts the rest. */
  ghost predicate AmqpBatch(codec: Codec, messages: seq<Message>, calls: seq<BusCall>, ids: seq<Id>, err: Option<PublishError>) {
    && ids == ReportedSent(calls)
    && (forall i :: 0 <= i < |calls| ==> calls[i].PublishCall?)
    && Published(calls) == Encodable(codec, messages)
    && |ids| <= |messages|
    && err == if |ids| == |messages| then None else Some(SendErrors(|messages| - |ids|))
  }

  lemma CallsNext(calls: seq<BusCall>, call: BusCall)
    ensures ReportedSent(calls + [call]) == ReportedSent(calls) + SentBy(call)
    ensures Published(calls + [call]) == Published(calls) + if call.PublishCall? then [call.message] else []
  {
    assert (calls + [call])[..|calls|] == calls;
  }

  lemma OneCall(call: BusCall)
    ensures ReportedSent([call]) == SentBy(call)
  {
    assert [call][..0] == [];
  }

  lemma EncodableNext(codec: Codec, messages: seq<Message>, i: nat)
    requires i < |messages|
    ensures Encodable(codec, messages[..i + 1]) ==
      Encodable(codec, messages[..i]) + if codec.messageEncode(messages[i]).Some? then [messages[i]] else []
  {
    assert messages[..i + 1][..i] == messages[..i];
  }

  lemma ResultsNext(messages: seq<Message>, results: seq<bool>, i: nat)
    requires |messages| == |results| && i < |messages|
    ensures Picked(messages[..i + 1], results[..i + 1]) ==
      Picked(messages[..i], results[..i]) + if results[i] then [messages[i].messageId] else []
    ensures FirstFailure(messages[..i + 1], results[..i + 1]) ==
      var before := FirstFailure(messages[..i], results[..i]);
      if before.Some? || results[i] then before else Some(EntryFailed(messages[i].messageId))
  {
    assert messages[..i + 1][..i] == messages[..i] && results[..i + 1][..i] == results[..i];
  }

  /** The outcome over the first `i` ids; `clean` as long as none has failed. */
  ghost predicate OutcomeSoFar(all: seq<Id>, i: nat, accepted: set<Id>, ids: seq<Id>, clean: bool) {
    && i <= |all| && Subsequence(ids, all[..i])
    && (forall id :: id in ids ==> id in accepted)
    && (clean ==> ids == all[..i])
  }

  lemma OutcomeNext(all: seq<Id>, i: nat, accepted: set<Id>, accepted': set<Id>, ids: seq<Id>, clean: bool)
    requires i < |all| && OutcomeSoFar(all, i, accepted, ids, clean) && accepted <= accepted'
    ensures OutcomeSoFar(all, i + 1, accepted', ids, false)
    ensures all[i] in accepted' ==> OutcomeSoFar(all, i + 1, accepted', ids + [all[i]], clean)
  {
    SubsequenceExtend(ids, all[..i], all[i]);
    assert all[..i + 1] == all[..i] + [all[i]];
  }

  lemma OutcomeComplete(messages: seq<Message>, accepted: set<Id>, ids: seq<Id>, err: Option<PublishError>)
    requires OutcomeSoFar(Ids(messages), |messages|, accepted, ids, err.None?)
    ensures BatchOutcome(messages, accepted, ids, err)
  {
    assert Ids(messages)[..|messages|] == Ids(messages);
  }

  /** The messages of an open transaction are for distinct rows. */
  lemma BatchIdsAreRows(world: SharedWorld, w: Worker)
    requires world.Valid() && w in world.s.open && world.s.open[w].phase == Parsed
    ensures Ids(world.s.open[w].msgs) == world.s.open[w].rows
    ensures NoDup(Ids(world.s.open[w].msgs))
  {
    world.Sound();
    assert TxConsistent(world.c, world.s, world.s.open[w]);
  }

  /** Nothing but transactions and the bus have changed since `before`. */
  predicate SameTable(s: State, before: State) {
    SameRows(s, before) && s.locks == before.locks
  }

  /** A worker has offered the first `i` messages of its transaction, and `taken` records what that did. */
  ghost predicate Offered(world: SharedWorld, w: Worker, before: State, trace: seq<Step>, i: nat, taken: seq<Step>)
    requires w in before.open
    reads world
  {
    && world.Valid() && trace <= world.trace && AcceptsOf(taken, w)
    && Own(world.trace, w) == Own(trace, w) + taken
    && w in world.s.open && world.s.open[w] == before.open[w].(accepted := world.s.open[w].accepted)
    && i <= |before.open[w].msgs|
    && world.s.open[w].accepted <= SetOf(Ids(before.open[w].msgs)[..i])
    && (world.quiet ==> SameTable(world.s, before))
  }

  /** Offers the next message; `err` is what the bus client reports. */
  method OfferNext(world: SharedWorld, w: Worker, ghost before: State, ghost trace: seq<Step>, i: nat, ghost taken: seq<Step>)
    returns (err: bool, ghost taken': seq<Step>)
    requires w in before.open && before.open[w].phase == Parsed && i < |before.open[w].msgs| && NoDup(Ids(before.open[w].msgs))
    requires Offered(world, w, before, trace, i, taken)
    modifies world`s, world`trace
    ensures Offered(world, w, before, trace, i + 1, taken')
    ensures old(world.s).open[w].accepted <= world.s.open[w].accepted
    ensures !err ==> before.open[w].msgs[i].messageId in world.s.open[w].accepted
    ensures world.reliable ==> !err
  {
    ghost var ids := Ids(before.open[w].msgs);
    assert ids[i] !in ids[..i];
    assert ids[..i + 1] == ids[..i] + [ids[i]];
    ghost var step;
    err, step := world.Send(w, i);
    taken' := taken + step;
  }

  lemma SkippedOffer(world: SharedWorld, w: Worker, before: State, trace: seq<Step>, i: nat, taken: seq<Step>)
    requires w in before.open && i < |before.open[w].msgs|
    requires Offered(world, w, before, trace, i, taken)
    ensures Offered(world, w, before, trace, i + 1, taken)
  {
    var ids := Ids(before.open[w].msgs);
    assert ids[..i + 1] == ids[..i] + [ids[i]];
  }

  /** The success of each entry, as the caller reads it off. */
  function Oks(results: seq<EntryResult>): seq<bool> {
    seq(|results|, i requires 0 <= i < |results| => results[i].errorCode == None)
  }

  function AnswerOf(res: Option<seq<EntryResult>>): Option<seq<bool>> {
    match res
    case None => None
    case Some(results) => Some(Oks(results))
  }

  /** One PutEvents call: a result per entry and in their order, or an error that says nothing about what was taken. */
  method PutEvents(world: SharedWorld, w: Worker, codec: Codec, busArn: string, entries: seq<PutEventEntry>)
    returns (res: Option<seq<EntryResult>>, ghost taken: seq<Step>)
    requires world.Valid() && w in world.s.open
    requires world.s.open[w].phase == Parsed && world.s.open[w].accepted == {} && |entries| == |world.s.open[w].msgs|
    requires forall i :: 0 <= i < |entries| ==> BuildPutEventEntry(codec, busArn, world.s.open[w].msgs[i]) == Some(entries[i])
    modifies world`s, world`trace, world`calls
    ensures world.Valid() && old(world.trace) <= world.trace && AcceptsOf(taken, w)
    ensures Own(world.trace, w) == Own(old(world.trace), w) + taken
    ensures w in world.s.open && world.s.open[w] == old(world.s).open[w].(accepted := world.s.open[w].accepted)
    ensures res.Some? ==> |res.value| == |entries|
    ensures world.calls == old(world.calls) + [PutEventsCall(world.s.open[w].msgs, AnswerOf(res))]
    ensures res.Some? ==> forall i :: 0 <= i < |entries| && res.value[i].errorCode == None ==>
                            world.s.open[w].msgs[i].messageId in world.s.open[w].accepted
    ensures world.reliable ==> res.Some? && forall i :: 0 <= i < |entries| ==> res.value[i].errorCode == None
    ensures world.quiet ==> SameTable(world.s, old(world.s))
  {
    BatchIdsAreRows(world, w);
    ghost var msgs := world.s.open[w].msgs;
    taken := [];
    var results: seq<EntryResult> := [];
    for i := 0 to |entries|
      invariant Offered(world, w, old(world.s), old(world.trace), i, taken)
      invariant world.calls == old(world.calls)
      invariant |results| == i
      invariant forall j :: 0 <= j < i && results[j].errorCode == None ==> msgs[j].messageId in world.s.open[w].accepted
      invariant world.reliable ==> forall j :: 0 <= j < i ==> results[j].errorCode == None
    {
      var err;
      err, taken := OfferNext(world, w, old(world.s), old(world.trace), i, taken);
      results := results + [EntryResult(if err then Some("InternalFailure") else None)];
    }
    res := Some(results);
    if !world.reliable {
      if * {
        res := None;
      }
    }
    world.calls := world.calls + [PutEventsCall(msgs, AnswerOf(res))];
  }

  /** One publish on an AMQP channel, of the encoded message under its routing key. */
  method PublishWithContext(world: SharedWorld, w: Worker, codec: Codec, ghost before: State, ghost trace: seq<Step>, i: nat,
      routingKey: string, body: Bytes, ghost taken: seq<Step>)
    returns (err: bool, ghost taken': seq<Step>)
    requires w in before.open && before.open[w].phase == Parsed && i < |before.open[w].msgs| && NoDup(Ids(before.open[w].msgs))
    requires Offered(world, w, before, trace, i, taken)
    requires codec.messageEncode(before.open[w].msgs[i]) == Some(body)
    requires routingKey == RoutingKey.MessageToRoutingKey(before.open[w].msgs[i].grpcService, before.open[w].msgs[i].grpcMethod)
    modifies world`s, world`trace, world`calls
    ensures Offered(world, w, before, trace, i + 1, taken')
    ensures world.calls == old(world.calls) + [PublishCall(before.open[w].msgs[i], !err)]
    ensures old(world.s).open[w].accepted <= world.s.open[w].accepted
    ensures !err ==> before.open[w].msgs[i].messageId in world.s.open[w].accepted
    ensures world.reliable ==> !err
  {
    err, taken' := OfferNext(world, w, before, trace, i, taken);
    world.calls := world.calls + [PublishCall(before.open[w].msgs[i], !err)];
  }

  class EventBridgePublisher {
    const codec: Codec
    const busArn: string

    constructor (codec: Codec, busArn: string)
      ensures this.codec == codec && this.busArn == busArn
    {
      this.codec, this.busArn := codec, busArn;
    }

    method PublishBatch(world: SharedWorld, w: Worker, messages: seq<Message>)
      returns (ids: seq<Id>, err: Option<PublishError>, ghost taken: seq<Step>, ghost calls: seq<BusCall>)
      requires world.Valid() && w in world.s.open && messages == world.s.open[w].msgs
      requires world.s.open[w].phase == Parsed && world.s.open[w].accepted == {}
      modifies world`s, world`trace, world`calls
      ensures world.Valid() && old(world.trace) <= world.trace && AcceptsOf(taken, w)
      ensures Own(world.trace, w) == Own(old(world.trace), w) + taken
      ensures w in world.s.open && world.s.open[w] == old(world.s).open[w].(accepted := world.s.open[w].accepted)
      ensures BatchOutcome(messages, world.s.open[w].accepted, ids, err)
      ensures world.calls == old(world.calls) + calls && EventBridgeBatch(codec, messages, calls, ids, err)
      ensures world.reliable && AllEncodable(codec, messages) ==> err == None
      ensures world.quiet ==> SameTable(world.s, old(world.s))
    {
      hide Execute, Own, Picked, FirstFailure, ReportedSent, Published, Encodable, Subsequence;
      NothingCalled(codec);
      ids, err, taken, calls := [], None, [], [];
      SubsequenceOfNothing(Ids(messages));
      var entries: seq<PutEventEntry> := [];
      for i := 0 to |messages|
        invariant |entries| == i
        invariant forall j :: 0 <= j < i ==> BuildPutEventEntry(codec, busArn, messages[j]) == Some(entries[j])
      {
        var entry := BuildPutEventEntry(codec, busArn, messages[i]);
        if entry == None {
          assert codec.messageEncode(messages[i]) == None;
          return [], Some(Unencodable), [], [];
        }
        entries := entries + [entry.value];
      }
      var res;
      res, taken := PutEvents(world, w, codec, busArn, entries);
      calls := [PutEventsCall(messages, AnswerOf(res))];
      OneCall(calls[0]);
      if res == None {
        return [], Some(CallFailed), taken, calls;
      }
      ids, err := ReadResults(messages, res.value, world.s.open[w].accepted);
    }

    /** The loop over the answer: successes are collected, the first failure is kept. */
    method ReadResults(messages: seq<Message>, results: seq<EntryResult>, ghost accepted: set<Id>)
      returns (ids: seq<Id>, err: Option<PublishError>)
      requires |results| == |messages|
      requires forall i :: 0 <= i < |results| && results[i].errorCode == None ==> messages[i].messageId in accepted
      ensures ids == Picked(messages, Oks(results)) && err == FirstFailure(messages, Oks(results))
      ensures BatchOutcome(messages, accepted, ids, err)
      ensures (forall i :: 0 <= i < |results| ==> results[i].errorCode == None) ==> err == None
    {
      ids, err := [], None;
      ghost var all, oks := Ids(messages), Oks(results);
      SubsequenceOfNothing(all);
      for i := 0 to |results|
        invariant OutcomeSoFar(all, i, accepted, ids, err.None?)
        invariant ids == Picked(messages[..i], oks[..i]) && err == FirstFailure(messages[..i], oks[..i])
        invariant (forall j :: 0 <= j < i ==> results[j].errorCode == None) ==> err == None
      {
        var request := messages[i];
        OutcomeNext(all, i, accepted, accepted, ids, err.None?);
        ResultsNext(messages, oks, i);
        if results[i].errorCode.Some? {
          if err == None {
            err := Some(EntryFailed(request.messageId));
          }
        } else {
          ids := ids + [request.messageId];
        }
      }
      assert messages[..|messages|] == messages && oks[..|oks|] == oks;
      OutcomeComplete(messages, accepted, ids, err);
    }
  }

  class AmqpPublisher {
    const codec: Codec

    constructor (codec: Codec)
      ensures this.codec == codec
    {
      this.codec := codec;
    }

    /** Encodes and sends one message of the batch. */
    method Publish(world: SharedWorld, w: Worker, ghost before: State, ghost trace: seq<Step>, i: nat, msg: Message, ghost taken: seq<Step>)
      returns (err: bool, ghost taken': seq<Step>)
      requires w in before.open && before.open[w].phase == Parsed && NoDup(Ids(before.open[w].msgs))
      requires i < |before.open[w].msgs| && msg == before.open[w].msgs[i]
      requires Offered(world, w, before, trace, i, taken)
      modifies world`s, world`trace, world`calls
      ensures Offered(world, w, before, trace, i + 1, taken')
      ensures old(world.s).open[w].accepted <= world.s.open[w].accepted
      ensures !err ==> msg.messageId in world.s.open[w].accepted
      ensures codec.messageEncode(msg) == None ==> err && world.calls == old(world.calls)
      ensures codec.messageEncode(msg).Some? ==> world.calls == old(world.calls) + [PublishCall(msg, !err)]
      ensures world.reliable && codec.messageEncode(msg).Some? ==> !err
    {
      var routingKey := RoutingKey.MessageToRoutingKey(msg.grpcService, msg.grpcMethod);
      var body := codec.messageEncode(msg);
      if body == None {
        SkippedOffer(world, w, before, trace, i, taken);
        return true, taken;
      }
      err, taken' := PublishWithContext(world, w, codec, before, trace, i, routingKey, body.value, taken);
    }

    method PublishBatch(world: SharedWorld, w: Worker, messages: seq<Message>)
      returns (ids: seq<Id>, err: Option<PublishError>, ghost taken: seq<Step>, ghost calls: seq<BusCall>)
      requires world.Valid() && w in world.s.open && messages == world.s.open[w].msgs
      requires world.s.open[w].phase == Parsed && world.s.open[w].accepted == {}
      modifies world`s, world`trace, world`calls
      ensures world.Valid() && old(world.trace) <= world.trace && AcceptsOf(taken, w)
      ensures Own(world.trace, w) == Own(old(world.trace), w) + taken
      ensures w in world.s.open && world.s.open[w] == old(world.s).open[w].(accepted := world.s.open[w].accepted)
      ensures BatchOutcome(messages, world.s.open[w].accepted, ids, err)
      ensures world.calls == old(world.calls) + calls && AmqpBatch(codec, messages, calls, ids, err)
      ensures world.reliable && AllEncodable(codec, messages) ==> err == None
      ensures world.quiet ==> SameTable(world.s, old(world.s))
    {
      hide ReportedSent, Published, Encodable, Execute, Own;
      BatchIdsAreRows(world, w);
      ids, taken, calls := [], [], [];
      NothingCalled(codec);
      ghost var all := Ids(messages);
      var errs := 0;
      for i := 0 to |messages|
        invariant Offered(world, w, old(world.s), old(world.trace), i, taken)
        invariant OutcomeSoFar(all, i, world.s.open[w].accepted, ids, errs == 0)
        invariant world.calls == old(world.calls) + calls && CallsSoFar(codec, messages, i, calls, ids, errs)
        invariant world.reliable && AllEncodable(codec, messages) ==> errs == 0
      {
        var msg := messages[i];
        ghost var accepted, made := world.s.open[w].accepted, calls;
        var failed;
        failed, taken := Publish(world, w, old(world.s), old(world.trace), i, msg, taken);
        if codec.messageEncode(msg).Some? {
          calls := calls + [PublishCall(msg, !failed)];
        }
        CallsContinue(codec, messages, i, made, ids, errs, failed);
        OutcomeNext(all, i, accepted, world.s.open[w].accepted, ids, errs == 0);
        if failed {
          errs := errs + 1;
        } else {
          ids := ids + [msg.messageId];
        }
      }
      assert messages[..|messages|] == messages;
      err := if errs > 0 then Some(SendErrors(errs)) else None;
      OutcomeComplete(messages, world.s.open[w].accepted, ids, err);
    }
  }

  /** The AMQP loop after `i` messages. */
  ghost predicate CallsSoFar(codec: Codec, messages: seq<Message>, i: nat, calls: seq<BusCall>, ids: seq<Id>, errs: nat) {
    && i <= |messages| && |ids| + errs == i
    && ids == ReportedSent(calls)
    && (forall k :: 0 <= k < |calls| ==> calls[k].PublishCall?)
    && Published(calls) == Encodable(codec, messages[..i])
  }

  lemma NothingCalled(codec: Codec)
    ensures ReportedSent([]) == [] && Published([]) == [] && Encodable(codec, []) == []
  {
  }

  lemma CallsContinue(codec: Codec, messages: seq<Message>, i: nat, calls: seq<BusCall>, ids: seq<Id>, errs: nat, failed: bool)
    requires i < |messages| && CallsSoFar(codec, messages, i, calls, ids, errs)
    requires codec.messageEncode(messages[i]) == None ==> failed
    ensures var made := if codec.messageEncode(messages[i]).Some? then calls + [PublishCall(messages[i], !failed)] else calls;
            if failed then CallsSoFar(codec, messages, i + 1, made, ids, errs + 1)
            else CallsSoFar(codec, messages, i + 1, made, ids + [messages[i].messageId], errs)
  {
    CallsNext(calls, PublishCall(messages[i], !failed));
    EncodableNext(codec, messages, i);
  }

  lemma SubsequenceOfNothing<T>(b: seq<T>)
    ensures Subsequence([], b)
  {
  }

  /** A batcher's ids pass the row-count check: for a transaction's own rows they are distinct, held and accepted. */
  lemma BatchIdsPassRowCount(c: Config, s: State, w: Worker, ids: seq<Id>)
    requires Inv(c, s) && w in s.open && s.open[w].phase == Parsed
    requires Subsequence(ids, Ids(s.open[w].msgs))
    ensures NoDup(ids) && RowsAffected(s, ids) == |ids|
  {
    var tx := s.open[w];
    assert TxConsistent(c, s, tx);
    assert Ids(tx.msgs) == tx.rows;
    SubsequenceNoDup(ids, tx.rows);
    SubsequenceElements(ids, tx.rows);
    NoDupCardinality(ids);
    assert SetOf(ids) == set id | id in s.table && id in ids;
  }

  /** What an entry says: the o5 detail type, the sidecar's own environment and app as its source, and the message as its detail. */
  lemma EntryNamesTheSender(codec: Codec, busArn: string, source: AppInfo, reflection: Option<Reflection>, id: Id, data: Bytes, m: Message)
    requires MessageCodecInverts(codec) && ParsedRow(codec, source, reflection, id, data) == Ok(m)
    ensures BuildPutEventEntry(codec, busArn, m).Some? <==> codec.messageEncode(m).Some?
    ensures BuildPutEventEntry(codec, busArn, m).Some? ==>
              var entry := BuildPutEventEntry(codec, busArn, m).value;
              && entry.source == "o5/" + source.sourceEnv + "/" + source.sourceApp
              && entry.detailType == "o5-message/v1" && entry.busArn == busArn
              && codec.messageDecode(entry.detail) == Some(m)
  {
  }

  /** Which ids are reported: in their order, and of messages with distinct ids exactly those whose result is a success. */
  lemma {:induction false} PickedIff(messages: seq<Message>, results: seq<bool>, i: nat)
    requires |messages| == |results| && i < |messages|
    requires forall j :: 0 <= j < |messages| && j != i ==> messages[j].messageId != messages[i].messageId
    ensures messages[i].messageId in Picked(messages, results) <==> results[i]
  {
    var k := |messages| - 1;
    if i < k {
      PickedIff(messages[..k], results[..k], i);
    } else {
      PickedIsPart(messages[..k], results[..k]);
    }
  }

  lemma {:induction false} PickedIsPart(messages: seq<Message>, results: seq<bool>)
    requires |messages| == |results|
    ensures Subsequence(Picked(messages, results), Ids(messages))
    ensures forall id :: id in Picked(messages, results) ==> exists j :: 0 <= j < |messages| && messages[j].messageId == id
  {
    hide Subsequence;
    if messages == [] {
      SubsequenceOfNothing(Ids(messages));
    } else {
      var k := |messages| - 1;
      assert Ids(messages) == Ids(messages[..k]) + [messages[k].messageId];
      PickedIsPart(messages[..k], results[..k]);
      SubsequenceExtend(Picked(messages[..k], results[..k]), Ids(messages[..k]), messages[k].messageId);
      assert Picked(messages[..k], results[..k]) + [] == Picked(messages[..k], results[..k]);
    }
  }

  /** Which failure is reported: that of the first entry that failed. */
  lemma {:induction false} FirstFailureIsFirst(messages: seq<Message>, results: seq<bool>, k: nat)
    requires |messages| == |results| && k < |results| && !results[k] && forall i :: 0 <= i < k ==> results[i]
    ensures FirstFailure(messages, results) == Some(EntryFailed(messages[k].messageId))
  {
    var n := |messages| - 1;
    if k < n {
      FirstFailureIsFirst(messages[..n], results[..n], k);
    } else {
      NoFailure(messages[..n], results[..n]);
    }
  }

  lemma {:induction false} NoFailure(messages: seq<Message>, results: seq<bool>)
    requires |messages| == |results| && forall i :: 0 <= i < |results| ==> results[i]
    ensures FirstFailure(messages, results) == None
  {
    if messages != [] {
      NoFailure(messages[..|messages| - 1], results[..|results| - 1]);
    }
  }

  /** Which messages are offered over AMQP: those with an encoding, each in its place. */
  lemma {:induction false} EncodableIff(codec: Codec, messages: seq<Message>)
    ensures forall m :: m in Encodable(codec, messages) <==> m in messages && codec.messageEncode(m).Some?
    ensures Subsequence(Encodable(codec, messages), messages)
  {
    if messages == [] {
      SubsequenceOfNothing(messages);
    } else {
      var init, last := messages[..|messages| - 1], messages[|messages| - 1];
      hide Subsequence, Encodable;
      assert messages == init + [last];
      EncodableIff(codec, init);
      EncodableNext(codec, messages, |messages| - 1);
      assert messages[..|messages| - 1 + 1] == messages;
      SubsequenceExtend(Encodable(codec, init), init, last);
      assert Encodable(codec, init) + [] == Encodable(codec, init);
    }
  }
}
