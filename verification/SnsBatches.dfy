/** The batch publisher for SNS topics: grouping by destination, chunks of ten, partial results. */
module SnsBatches {
  datatype Outgoing = Outgoing(id: string, topic: string, content: string)

  /** One PublishBatch request. */
  datatype Request = Request(topicArn: string, topic: string, entries: seq<Outgoing>)

  const LIMIT := 10

  /** The messages for one topic, in order. */
  function ForTopic(msgs: seq<Outgoing>, topic: string): seq<Outgoing> {
    if msgs == [] then []
    else
      var last := msgs[|msgs| - 1];
      ForTopic(msgs[..|msgs| - 1], topic) + if last.topic == topic then [last] else []
  }

  lemma ForTopicNext(msgs: seq<Outgoing>, m: Outgoing, topic: string)
    ensures ForTopic(msgs + [m], topic) == ForTopic(msgs, topic) + if m.topic == topic then [m] else []
  {
    assert (msgs + [m])[..|msgs|] == msgs;
  }

  /** The entries of the requests for one topic, request after request. */
  function SentTo(requests: seq<Request>, topic: string): seq<Outgoing> {
    if requests == [] then []
    else
      var last := requests[|requests| - 1];
      SentTo(requests[..|requests| - 1], topic) + if last.topic == topic then last.entries else []
  }

  lemma SentToNext(requests: seq<Request>, r: Request, topic: string)
    ensures SentTo(requests + [r], topic) == SentTo(requests, topic) + if r.topic == topic then r.entries else []
  {
    assert (requests + [r])[..|requests|] == requests;
  }

  ghost predicate GoodRequest(prefix: string, r: Request) {
    && 0 < |r.entries| <= LIMIT
    && r.topicArn == prefix + r.topic
    && forall m :: m in r.entries ==> m.topic == r.topic
  }

  ghost predicate AllGood(prefix: string, requests: seq<Request>) {
    forall r :: r in requests ==> GoodRequest(prefix, r)
  }

  lemma {:induction false} ForTopicMembers(msgs: seq<Outgoing>, topic: string)
    ensures forall m :: m in ForTopic(msgs, topic) ==> m.topic == topic && m in msgs
  {
    if msgs != [] {
      ForTopicMembers(msgs[..|msgs| - 1], topic);
    }
  }

  method Group(msgs: seq<Outgoing>) returns (byDestination: map<string, seq<Outgoing>>)
    ensures forall t :: t in byDestination ==> byDestination[t] == ForTopic(msgs, t)
    ensures forall t :: t !in byDestination ==> ForTopic(msgs, t) == []
  {
    byDestination := map[];
    for i := 0 to |msgs|
      invariant forall t :: t in byDestination ==> byDestination[t] == ForTopic(msgs[..i], t)
      invariant forall t :: t !in byDestination ==> ForTopic(msgs[..i], t) == []
    {
      var topic := msgs[i].topic;
      assert msgs[..i + 1] == msgs[..i] + [msgs[i]];
      forall t {
        ForTopicNext(msgs[..i], msgs[i], t);
      }
      var soFar := if topic in byDestination then byDestination[topic] else [];
      byDestination := byDestination[topic := soFar + [msgs[i]]];
    }
    assert msgs[..|msgs|] == msgs;
  }

  lemma OneMoreRequest(before: seq<Request>, requests: seq<Request>, r: Request, done: seq<Outgoing>)
    requires forall t :: SentTo(requests, t) == SentTo(before, t) + if t == r.topic then done else []
    ensures forall t :: SentTo(requests + [r], t) == SentTo(before, t) + if t == r.topic then done + r.entries else []
  {
    forall t
      ensures SentTo(requests + [r], t) == SentTo(before, t) + if t == r.topic then done + r.entries else []
    {
      SentToNext(requests, r, t);
    }
  }

  /** After `before`, `n` messages have been cut into requests to one topic: all of ten but the last, which has the rest. */
  ghost predicate Cut(topicArn: string, before: seq<Request>, requests: seq<Request>, n: nat) {
    && before <= requests && |requests| == |before| + (n + 9) / 10
    && forall i :: |before| <= i < |requests| ==>
         |requests[i].entries| == (if i < |requests| - 1 then 10 else n - 10 * (|requests| - 1 - |before|))
         && requests[i].topicArn == topicArn
  }

  lemma CutNext(topicArn: string, before: seq<Request>, requests: seq<Request>, n: nat, r: Request)
    requires Cut(topicArn, before, requests, n) && n % 10 == 0 && 0 < |r.entries| <= 10 && r.topicArn == topicArn
    ensures Cut(topicArn, before, requests + [r], n + |r.entries|)
  {
  }

  lemma GoodNext(prefix: string, requests: seq<Request>, r: Request, done: seq<Outgoing>, messages: seq<Outgoing>, all: seq<Outgoing>)
    requires AllGood(prefix, requests) && all == done + r.entries + messages && forall m :: m in all ==> m.topic == r.topic
    requires 0 < |r.entries| <= LIMIT && r.topicArn == prefix + r.topic
    ensures AllGood(prefix, requests + [r])
  {
    assert forall m :: m in r.entries ==> m in all;
  }

  /** Cuts the messages of one topic into requests of at most ten. */
  method Chunk(prefix: string, topic: string, all: seq<Outgoing>, before: seq<Request>) returns (requests: seq<Request>)
    requires AllGood(prefix, before) && forall m :: m in all ==> m.topic == topic
    ensures AllGood(prefix, requests)
    ensures forall t :: SentTo(requests, t) == SentTo(before, t) + if t == topic then all else []
    ensures before <= requests && |requests| == |before| + (|all| + 9) / 10
    ensures forall i :: |before| <= i < |requests| ==>
              |requests[i].entries| == (if i < |requests| - 1 then 10 else |all| - 10 * (|requests| - 1 - |before|))
              && requests[i].topicArn == prefix + topic
  {
    hide SentTo, GoodRequest, AllGood;
    requests := before;
    var messages := all;
    ghost var done: seq<Outgoing> := [];
    while |messages| > 0
      invariant AllGood(prefix, requests) && all == done + messages
      invariant Cut(prefix + topic, before, requests, |done|) && (messages != [] ==> |done| % 10 == 0)
      invariant forall t :: SentTo(requests, t) == SentTo(before, t) + if t == topic then done else []
    {
      var batch;
      if |messages| > LIMIT {
        batch, messages := messages[..LIMIT], messages[LIMIT..];
      } else {
        batch, messages := messages, [];
      }
      var r := Request(prefix + topic, topic, batch);
      GoodNext(prefix, requests, r, done, messages, all);
      CutNext(prefix + topic, before, requests, |done|, r);
      OneMoreRequest(before, requests, r, done);
      requests, done := requests + [r], done + batch;
    }
  }

  /** The requests made so far carry all messages of the topics dealt with, and no others. */
  ghost predicate CarriesAllBut(requests: seq<Request>, msgs: seq<Outgoing>, left: set<string>) {
    forall t :: SentTo(requests, t) == if t in left then [] else ForTopic(msgs, t)
  }

  /** Nothing is sent yet, and topics without messages need no request. */
  lemma NothingCarried(msgs: seq<Outgoing>, left: set<string>)
    requires forall t :: t !in left ==> ForTopic(msgs, t) == []
    ensures CarriesAllBut([], msgs, left)
  {
  }

  lemma TopicCarried(before: seq<Request>, after: seq<Request>, msgs: seq<Outgoing>, left: set<string>, topic: string)
    requires CarriesAllBut(before, msgs, left) && topic in left
    requires forall t :: SentTo(after, t) == SentTo(before, t) + if t == topic then ForTopic(msgs, topic) else []
    ensures CarriesAllBut(after, msgs, left - {topic})
  {
  }

  /** Requests for every topic, topics in any order. */
  method Prepare(prefix: string, msgs: seq<Outgoing>) returns (requests: seq<Request>)
    ensures AllGood(prefix, requests) && CarriesAllBut(requests, msgs, {})
  {
    hide CarriesAllBut, ForTopic, SentTo, GoodRequest;
    var byDestination := Group(msgs);
    requests := [];
    var left := byDestination.Keys;
    NothingCarried(msgs, left);
    while left != {}
      invariant left <= byDestination.Keys && AllGood(prefix, requests)
      invariant CarriesAllBut(requests, msgs, left)
    {
      var topic :| topic in left;
      ForTopicMembers(msgs, topic);
      ghost var before := requests;
      requests := Chunk(prefix, topic, byDestination[topic], requests);
      TopicCarried(before, requests, msgs, left, topic);
      left := left - {topic};
    }
  }

  function EntriesOf(requests: seq<Request>): seq<Outgoing> {
    if requests == [] then [] else EntriesOf(requests[..|requests| - 1]) + requests[|requests| - 1].entries
  }

  lemma {:induction false} ForTopicCounts(msgs: seq<Outgoing>, m: Outgoing)
    ensures multiset(ForTopic(msgs, m.topic))[m] == multiset(msgs)[m]
  {
    if msgs != [] {
      ForTopicCounts(msgs[..|msgs| - 1], m);
      assert msgs == msgs[..|msgs| - 1] + [msgs[|msgs| - 1]];
    }
  }

  lemma {:induction false} SentToCounts(prefix: string, requests: seq<Request>, m: Outgoing)
    requires AllGood(prefix, requests)
    ensures multiset(SentTo(requests, m.topic))[m] == multiset(EntriesOf(requests))[m]
  {
    if requests != [] {
      var init, last := requests[..|requests| - 1], requests[|requests| - 1];
      assert last in requests && forall r :: r in init ==> r in requests;
      SentToCounts(prefix, init, m);
      if m in last.entries {
        assert m.topic == last.topic;
      }
    }
  }

  /** Grouping and chunking neither drop nor repeat a message. */
  lemma BatchesConserve(prefix: string, msgs: seq<Outgoing>, requests: seq<Request>)
    requires AllGood(prefix, requests) && CarriesAllBut(requests, msgs, {})
    ensures multiset(EntriesOf(requests)) == multiset(msgs)
  {
    forall m: Outgoing
      ensures multiset(EntriesOf(requests))[m] == multiset(msgs)[m]
    {
      ForTopicCounts(msgs, m);
      SentToCounts(prefix, requests, m);
    }
  }

  function Ids(entries: seq<Outgoing>): seq<string> {
    seq(|entries|, i requires 0 <= i < |entries| => entries[i].id)
  }

  /** What came of a request: no answer, or the ids that succeeded, in order, and how many entries failed. */
  datatype Answer = NoAnswer | Answered(successful: seq<string>, failed: nat)

  datatype Exchange = Exchange(request: Request, answer: Answer)

  predicate Clean(x: Exchange) {
    x.answer.Answered? && x.answer.failed == 0
  }

  function RequestsOf(exchanges: seq<Exchange>): seq<Request> {
    seq(|exchanges|, i requires 0 <= i < |exchanges| => exchanges[i].request)
  }

  /** The ids reported as successful, answer after answer. */
  function ReportedIds(exchanges: seq<Exchange>): seq<string> {
    if exchanges == [] then []
    else
      var last := exchanges[|exchanges| - 1].answer;
      ReportedIds(exchanges[..|exchanges| - 1]) + if last.Answered? then last.successful else []
  }

  /** What a further request adds stays within the messages, and makes up the request when all of it succeeded. */
  lemma StaysWithin(accepted: seq<Outgoing>, successful: seq<Outgoing>, before: seq<Outgoing>, entries: seq<Outgoing>, msgs: seq<Outgoing>)
    requires multiset(accepted) == multiset(before) && multiset(successful) <= multiset(entries)
    requires multiset(before + entries) <= multiset(msgs)
    ensures multiset(accepted + successful) <= multiset(msgs)
    ensures |successful| == |entries| ==> multiset(accepted + successful) == multiset(before + entries)
  {
    var rest := multiset(entries) - multiset(successful);
    assert multiset(entries) == multiset(successful) + rest;
    assert |successful| == |entries| ==> |rest| == 0;
    assert multiset(accepted + successful) == multiset(before) + multiset(successful);
    assert multiset(before + entries) == multiset(before) + multiset(entries);
  }

  lemma ExchangesNext(exchanges: seq<Exchange>, x: Exchange)
    ensures ReportedIds(exchanges + [x]) == ReportedIds(exchanges) + if x.answer.Answered? then x.answer.successful else []
    ensures RequestsOf(exchanges + [x]) == RequestsOf(exchanges) + [x.request]
  {
    assert (exchanges + [x])[..|exchanges|] == exchanges;
  }

  /** The send loop after `i` requests. */
  ghost predicate SentSoFar(requests: seq<Request>, msgs: seq<Outgoing>, i: nat, made: seq<Exchange>, took: seq<Outgoing>, ids: seq<string>, failed: bool) {
    && |made| == i <= |requests| && RequestsOf(made) == requests[..i]
    && (forall j :: 0 <= j < i - 1 ==> Clean(made[j]))
    && (failed <==> i > 0 && !Clean(made[i - 1]))
    && ids == ReportedIds(made)
    && multiset(took) <= multiset(msgs) && multiset(ids) <= multiset(Ids(took))
    && (!failed ==> ids == Ids(took) && multiset(took) == multiset(EntriesOf(requests[..i])))
  }

  lemma NothingSent(requests: seq<Request>, msgs: seq<Outgoing>)
    ensures SentSoFar(requests, msgs, 0, [], [], [], false)
  {
    assert requests[..0] == [];
  }

  lemma MadeNext(requests: seq<Request>, i: nat, made: seq<Exchange>, x: Exchange)
    requires |made| == i < |requests| && RequestsOf(made) == requests[..i] && x.request == requests[i]
    requires forall j :: 0 <= j < i ==> Clean(made[j])
    ensures RequestsOf(made + [x]) == requests[..i + 1]
    ensures forall j :: 0 <= j < i ==> Clean((made + [x])[j])
  {
    hide ReportedIds;
    ExchangesNext(made, x);
    assert requests[..i + 1] == requests[..i] + [requests[i]];
  }

  lemma SentNext(requests: seq<Request>, msgs: seq<Outgoing>, i: nat, made: seq<Exchange>, took: seq<Outgoing>, ids: seq<string>,
      answer: Answer, part: seq<Outgoing>)
    requires i < |requests| && SentSoFar(requests, msgs, i, made, took, ids, false)
    requires multiset(EntriesOf(requests)) == multiset(msgs) && multiset(part) <= multiset(requests[i].entries)
    requires answer.Answered? ==> answer.successful == Ids(part) && |part| + answer.failed == |requests[i].entries|
    ensures SentSoFar(requests, msgs, i + 1, made + [Exchange(requests[i], answer)], took + part,
                      if answer.Answered? then ids + answer.successful else ids, !Clean(Exchange(requests[i], answer)))
  {
    hide EntriesOf, Ids, ReportedIds, RequestsOf;
    EntriesSplit(requests, i);
    IdsConcat(took, part);
    MadeNext(requests, i, made, Exchange(requests[i], answer));
    ExchangesNext(made, Exchange(requests[i], answer));
    StaysWithin(took, part, EntriesOf(requests[..i]), requests[i].entries, msgs);
  }

  class SnsPublisher {
    const topicArn: string
    /** The requests made, with their answers. */
    ghost var exchanges: seq<Exchange>
    /** The entries SNS has taken, whatever it answered. */
    ghost var taken: seq<Outgoing>

    constructor (topicArn: string)
      ensures this.topicArn == topicArn && exchanges == [] && taken == []
    {
      this.topicArn := topicArn;
      exchanges, taken := [], [];
    }

    /** One PublishBatch call. An answer names the entries taken; without one any part of the request may have been. */
    method Send(r: Request) returns (answer: Answer, ghost part: seq<Outgoing>)
      modifies `exchanges, `taken
      ensures exchanges == old(exchanges) + [Exchange(r, answer)]
      ensures taken == old(taken) + part && multiset(part) <= multiset(r.entries)
      ensures answer.Answered? ==> answer.successful == Ids(part) && |part| + answer.failed == |r.entries|
    {
      var n: nat :| n <= |r.entries|;
      assert r.entries == r.entries[..n] + r.entries[n..];
      part := r.entries[..n];
      answer := Answered(Ids(r.entries[..n]), |r.entries| - n);
      if * {
        answer := NoAnswer;
      }
      exchanges, taken := exchanges + [Exchange(r, answer)], taken + part;
    }

    /**
     `made` are the exchanges of this call and `took` what SNS took in them. Requests
     go out in the order prepared until one is not answered or reports a failure.
     */
    method PublishBatch(msgs: seq<Outgoing>)
      returns (successIds: seq<string>, failed: bool, ghost prepared: seq<Request>, ghost made: seq<Exchange>, ghost took: seq<Outgoing>)
      modifies `exchanges, `taken
      ensures AllGood(topicArn, prepared) && CarriesAllBut(prepared, msgs, {})
      ensures exchanges == old(exchanges) + made && taken == old(taken) + took
      ensures |made| <= |prepared| && RequestsOf(made) == prepared[..|made|]
      ensures forall i :: 0 <= i < |made| - 1 ==> Clean(made[i])
      ensures failed <==> made != [] && !Clean(made[|made| - 1])
      ensures !failed ==> |made| == |prepared|
      ensures successIds == ReportedIds(made)
      ensures multiset(took) <= multiset(msgs) && multiset(successIds) <= multiset(Ids(took))
      ensures !failed ==> successIds == Ids(took) && multiset(took) == multiset(msgs)
    {
      hide CarriesAllBut, AllGood, EntriesOf, SentSoFar;
      var requests := Prepare(topicArn, msgs);
      prepared := requests;
      BatchesConserve(topicArn, msgs, requests);
      successIds, failed, made, took := [], false, [], [];
      NothingSent(requests, msgs);
      var i := 0;
      while i < |requests| && !failed
        invariant SentSoFar(requests, msgs, i, made, took, successIds, failed)
        invariant exchanges == old(exchanges) + made && taken == old(taken) + took
      {
        var answer, part := Send(requests[i]);
        SentNext(requests, msgs, i, made, took, successIds, answer, part);
        made, took := made + [Exchange(requests[i], answer)], took + part;
        if answer.NoAnswer? {
          failed := true;
        } else {
          successIds := successIds + answer.successful;
          failed := answer.failed > 0;
        }
        i := i + 1;
      }
      SendingEnds(requests, msgs, i, made, took, successIds, failed);
    }
  }

  lemma SendingEnds(requests: seq<Request>, msgs: seq<Outgoing>, i: nat, made: seq<Exchange>, took: seq<Outgoing>, ids: seq<string>, failed: bool)
    requires SentSoFar(requests, msgs, i, made, took, ids, failed) && (!failed ==> i >= |requests|)
    requires multiset(EntriesOf(requests)) == multiset(msgs)
    ensures |made| <= |requests| && RequestsOf(made) == requests[..|made|] && ids == ReportedIds(made)
    ensures forall j :: 0 <= j < |made| - 1 ==> Clean(made[j])
    ensures failed <==> made != [] && !Clean(made[|made| - 1])
    ensures !failed ==> |made| == |requests|
    ensures multiset(took) <= multiset(msgs) && multiset(ids) <= multiset(Ids(took))
    ensures !failed ==> ids == Ids(took) && multiset(took) == multiset(msgs)
  {
    assert requests[..|requests|] == requests;
  }

  lemma IdsConcat(a: seq<Outgoing>, b: seq<Outgoing>)
    ensures Ids(a + b) == Ids(a) + Ids(b)
  {
  }

  lemma {:induction false} EntriesSplit(requests: seq<Request>, i: nat)
    requires i < |requests|
    ensures EntriesOf(requests[..i + 1]) == EntriesOf(requests[..i]) + requests[i].entries
    ensures multiset(EntriesOf(requests[..i + 1])) <= multiset(EntriesOf(requests))
    decreases |requests| - i
  {
    assert requests[..i + 1][..i] == requests[..i];
    if i + 1 < |requests| {
      EntriesSplit(requests, i + 1);
    } else {
      assert requests[..i + 1] == requests;
    }
  }
}
