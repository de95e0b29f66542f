/** The outbox worker itself: one page of rows per transaction, page after page until the table is drained. */
module OutboxWorker {
  import opened Common
  import opened Messages
  import opened Converter
  import opened OutboxProtocol
  import opened World
  import opened Publishers

  datatype Publisher = EventBridge(eventBridge: EventBridgePublisher) | Amqp(amqp: AmqpPublisher)

  datatype PageError =
    | BeginFailed
    | SelectFailed
    | ParseFailed
    | SendFailed
    | DeleteFailed
    | CountMismatch
    | CommitFailed

  /** A batch that went through, or went through but for messages the publisher refused. */
  predicate Commits(err: Option<PageError>) {
    err == None || err == Some(SendFailed)
  }

  /**
   doPage declares the number of rows it returns but never assigns it
   (`AsWritten`); the loop around it is meant to see the number of rows selected (`Counted`).
   */
  datatype CountForm = AsWritten | Counted

  datatype LoopResult = Drained | Failed(error: PageError) | StillRunning

  /** Full or partial pages needed for `n` rows. */
  function PagesFor(n: nat): nat {
    (n + 9) / 10
  }

  /** Rows left of `n` after `k` undisturbed pages. */
  function Left(n: nat, k: nat): nat {
    if 10 * k <= n then n - 10 * k else 0
  }

  predicate EndsWithEmptyPage(w: Worker, own: seq<Step>) {
    |own| >= 3 && own[|own| - 3..] == [Begin(w), Select(w, []), Commit(w)]
  }

  /**
   What one page did, for the record: the rows selected, what was parsed and offered,
   the calls made on the bus client, the publisher's error, the ids it returned, and
   in `batch` what doBatch did between begin and the end of the transaction.
   */
  datatype Page = Page(rows: seq<Id>, msgs: seq<Message>, taken: seq<Step>, calls: seq<BusCall>,
                       refused: Option<PublishError>, sent: seq<Id>, batch: seq<Step>)

  const BLANK := Page([], [], [], [], None, [], [])

  /** The publisher's own account of a batch. */
  ghost predicate Batched(publisher: Publisher, codec: Codec, msgs: seq<Message>, calls: seq<BusCall>, ids: seq<Id>, err: Option<PublishError>) {
    match publisher
    case EventBridge(_) => EventBridgeBatch(codec, msgs, calls, ids, err)
    case Amqp(_) => AmqpBatch(codec, msgs, calls, ids, err)
  }

  /** What a page sent is what the client reported as sent, of all that could be offered; without messages nothing was asked. */
  ghost predicate PageCalls(publisher: Publisher, codec: Codec, page: Page) {
    if page.msgs == [] then page.calls == [] && page.sent == [] && page.refused == None
    else Ids(page.msgs) == page.rows && Batched(publisher, codec, page.msgs, page.calls, page.sent, page.refused)
  }

  function ReportSteps(w: Worker, page: Page, failed: bool): seq<Step> {
    [Parse(w, page.msgs)] + page.taken + [Report(w, page.sent, failed)]
  }

  /** What doBatch gets through once it has read some rows, depending on how it ends. */
  ghost predicate SendSteps(w: Worker, page: Page, err: Option<PageError>, steps: seq<Step>) {
    && AcceptsOf(page.taken, w)
    && match err
       case None => steps == ReportSteps(w, page, false) + [Delete(w)]
       case Some(SendFailed) => steps == ReportSteps(w, page, true) + [Delete(w)]
       case Some(ParseFailed) => steps == []
       case Some(DeleteFailed) => steps == ReportSteps(w, page, false) || steps == ReportSteps(w, page, true)
       case _ => false
  }

  /** The statements doBatch gets through. */
  ghost predicate BatchSteps(w: Worker, page: Page, err: Option<PageError>) {
    var select := Select(w, page.rows);
    if err == None && page.rows == [] then page.batch == [select]
    else if err == Some(SelectFailed) then page.batch == [] || page.batch == [select]
    else page.batch != [] && page.batch[0] == select && SendSteps(w, page, err, page.batch[1..])
  }

  /** How the transaction ends: a send error is committed, any other error is rolled back. */
  ghost predicate PageEnd(w: Worker, page: Page, err: Option<PageError>, last: Step) {
    match err
    case None => BatchSteps(w, page, None) && last == Commit(w)
    case Some(SendFailed) => BatchSteps(w, page, err) && last == Commit(w)
    case Some(CommitFailed) =>
      (BatchSteps(w, page, None) || BatchSteps(w, page, Some(SendFailed))) && (last == Commit(w) || last == Lost(w))
    case Some(BeginFailed) => false
    case _ => BatchSteps(w, page, err) && last == Rollback(w)
  }

  class Outbox {
    const world: SharedWorld
    const publisher: Publisher
    const converter: MessageConverter

    constructor (world: SharedWorld, publisher: Publisher, converter: MessageConverter)
      ensures this.world == world && this.publisher == publisher && this.converter == converter
    {
      this.world, this.publisher, this.converter := world, publisher, converter;
    }

    ghost predicate Valid()
      reads this, world, converter
    {
      && world.Valid()
      && converter.codec == world.c.codec && converter.source == world.c.source
      && (converter.reflection == None || converter.reflection == world.c.reflection)
      && (match publisher
          case EventBridge(p) => p.codec == world.c.codec
          case Amqp(p) => p.codec == world.c.codec)
    }

    /** Every stored row can be parsed and encoded for the bus. */
    ghost predicate Healthy()
      reads this, world, converter
    {
      forall id :: id in world.s.table ==>
        var parsed := ParsedRow(world.c.codec, world.c.source, converter.reflection, id, world.s.table[id].data);
        parsed.Ok? && world.c.codec.messageEncode(parsed.value).Some?
    }

    ghost predicate Unparsable(id: Id)
      reads this, world, converter
    {
      && id in world.s.table
      && ParsedRow(world.c.codec, world.c.source, converter.reflection, id, world.s.table[id].data).Err?
    }

    /** The only errors of a page when no call fails: a selected row that does not parse, a parsed one without an encoding. */
    ghost predicate Excused(page: Page, err: Option<PageError>)
      reads this, world, converter
    {
      match err
      case None => true
      case Some(ParseFailed) => exists id :: id in page.rows && Unparsable(id)
      case Some(SendFailed) => !AllEncodable(world.c.codec, page.msgs)
      case _ => false
    }

    method PublishBatch(w: Worker, msgs: seq<Message>)
      returns (ids: seq<Id>, err: Option<PublishError>, ghost taken: seq<Step>, ghost calls: seq<BusCall>)
      requires Valid() && w in world.s.open && msgs == world.s.open[w].msgs
      requires world.s.open[w].phase == Parsed && world.s.open[w].accepted == {}
      modifies world`s, world`trace, world`calls
      ensures Valid() && old(world.trace) <= world.trace && AcceptsOf(taken, w)
      ensures Own(world.trace, w) == Own(old(world.trace), w) + taken
      ensures w in world.s.open && world.s.open[w] == old(world.s).open[w].(accepted := world.s.open[w].accepted)
      ensures BatchOutcome(msgs, world.s.open[w].accepted, ids, err)
      ensures world.calls == old(world.calls) + calls && Batched(publisher, world.c.codec, msgs, calls, ids, err)
      ensures world.reliable && AllEncodable(world.c.codec, msgs) ==> err == None
      ensures world.quiet ==> SameTable(world.s, old(world.s))
    {
      match publisher {
        case EventBridge(p) => ids, err, taken, calls := p.PublishBatch(world, w, msgs);
        case Amqp(p) => ids, err, taken, calls := p.PublishBatch(world, w, msgs);
      }
    }

    /** Parses the selected rows in order; stops at the first that does not parse. */
    method ParseRows(rows: seq<OutboxRow>) returns (msgs: seq<Message>, err: bool)
      requires Valid()
      ensures !err ==> |msgs| == |rows| && forall i :: 0 <= i < |rows| ==>
                         ParsedRow(world.c.codec, world.c.source, converter.reflection, rows[i].id, rows[i].data) == Ok(msgs[i])
      ensures err ==> exists i :: 0 <= i < |rows|
                         && ParsedRow(world.c.codec, world.c.source, converter.reflection, rows[i].id, rows[i].data).Err?
    {
      msgs := [];
      for i := 0 to |rows|
        invariant |msgs| == i
        invariant forall j :: 0 <= j < i ==>
                    ParsedRow(world.c.codec, world.c.source, converter.reflection, rows[j].id, rows[j].data) == Ok(msgs[j])
      {
        var msg := converter.ParseMessage(rows[i].id, rows[i].data);
        if msg.Err? {
          return msgs, true;
        }
        msgs := msgs + [msg.value];
      }
      err := false;
    }

    /** Parses the selected rows and puts the messages on the record of the transaction. */
    method ParsePage(w: Worker, rows: seq<OutboxRow>) returns (msgs: seq<Message>, bad: bool)
      requires Valid() && w in world.s.open && rows != []
      requires world.s.open[w] == Tx(Selected, RowIds(rows), [], {}, [], false)
      requires forall i :: 0 <= i < |rows| ==> rows[i].id in world.s.table && world.s.table[rows[i].id].data == rows[i].data
      modifies world`s, world`trace
      ensures Valid() && old(world.trace) <= world.trace && w in world.s.open
      ensures bad ==> Own(world.trace, w) == Own(old(world.trace), w) && world.s.open[w] == old(world.s).open[w]
      ensures !bad ==> Own(world.trace, w) == Own(old(world.trace), w) + [Parse(w, msgs)]
                       && world.s.open[w] == old(world.s).open[w].(phase := Parsed, msgs := msgs)
      ensures bad ==> exists id :: id in RowIds(rows) && Unparsable(id)
      ensures SameTable(world.s, old(world.s))
      ensures old(Healthy()) ==> !bad && AllEncodable(world.c.codec, msgs)
    {
      msgs, bad := ParseRows(rows);
      if bad {
        ghost var i :| 0 <= i < |rows|
              && ParsedRow(world.c.codec, world.c.source, converter.reflection, rows[i].id, rows[i].data).Err?;
        assert RowIds(rows)[i] in RowIds(rows) && Unparsable(rows[i].id);
      } else {
        world.NoteParsed(w, msgs);
      }
    }

    /** Publishes the parsed rows; the ids reported back are on the record of the transaction. */
    method Publish(w: Worker, msgs: seq<Message>)
      returns (delayedErr: Option<PublishError>, ghost taken: seq<Step>, ghost sent: seq<Id>, ghost calls: seq<BusCall>)
      requires Valid() && w in world.s.open && msgs == world.s.open[w].msgs
      requires world.s.open[w].phase == Parsed && world.s.open[w].accepted == {}
      modifies world`s, world`trace, world`calls
      ensures Valid() && old(world.trace) <= world.trace && AcceptsOf(taken, w) && w in world.s.open
      ensures Own(world.trace, w) == Own(old(world.trace), w) + (taken + [Report(w, sent, delayedErr.Some?)])
      ensures world.s.open[w].phase == Reported && world.s.open[w].sent == sent
      ensures world.s.open[w].rows == old(world.s).open[w].rows == Ids(msgs)
      ensures Subsequence(sent, old(world.s).open[w].rows)
      ensures world.calls == old(world.calls) + calls && Batched(publisher, world.c.codec, msgs, calls, sent, delayedErr)
      ensures delayedErr == None ==> sent == old(world.s).open[w].rows
      ensures delayedErr.Some? ==> sent != old(world.s).open[w].rows
      ensures world.reliable && AllEncodable(world.c.codec, msgs) ==> delayedErr == None
      ensures world.quiet ==> SameTable(world.s, old(world.s))
    {
      hide Batched, Execute;
      BatchIdsAreRows(world, w);
      SomeRows(world, w);
      var ids;
      ids, delayedErr, taken, calls := PublishBatch(w, msgs);
      sent := ids;
      RefusedIffIncomplete(publisher, world.c.codec, msgs, calls, ids, delayedErr);
      ReportIsEnabled(world, w, ids, delayedErr);
      world.NoteSent(w, ids, delayedErr.Some?);
    }

    /** The delete and its row-count check. */
    method DeleteSent(w: Worker) returns (err: Option<PageError>)
      requires Valid() && w in world.s.open && world.s.open[w].phase == Reported
      modifies world`s, world`trace
      ensures Valid() && old(world.trace) <= world.trace && w in world.s.open
      ensures err == None ==> Own(world.trace, w) == Own(old(world.trace), w) + [Delete(w)]
                              && world.s.open[w] == old(world.s).open[w].(phase := Deleted)
      ensures err != None ==> err == Some(DeleteFailed) && Own(world.trace, w) == Own(old(world.trace), w)
                              && world.s.open[w] == old(world.s).open[w]
      ensures world.reliable ==> err == None
      ensures world.quiet ==> SameTable(world.s, old(world.s))
    {
      var affected, failed := world.ExecDelete(w);
      if failed {
        return Some(DeleteFailed);
      }
      SentPassRowCount(world, w);
      if affected != |world.s.open[w].sent| {
        return Some(CountMismatch);
      }
      return None;
    }

    /** The second half of doBatch: everything after the rows have been read. */
    method SendRows(w: Worker, rows: seq<OutboxRow>) returns (err: Option<PageError>, ghost page: Page, ghost steps: seq<Step>)
      requires Valid() && w in world.s.open && rows != []
      requires world.s.open[w] == Tx(Selected, RowIds(rows), [], {}, [], false)
      requires forall i :: 0 <= i < |rows| ==> rows[i].id in world.s.table && world.s.table[rows[i].id].data == rows[i].data
      modifies world`s, world`trace, world`calls
      ensures Valid() && old(world.trace) <= world.trace && w in world.s.open
      ensures page.rows == RowIds(rows) == world.s.open[w].rows
      ensures SendSteps(w, page, err, steps) && Own(world.trace, w) == Own(old(world.trace), w) + steps
      ensures world.calls == old(world.calls) + page.calls && PageCalls(publisher, world.c.codec, page)
      ensures Commits(err) ==> world.s.open[w].phase == Deleted && world.s.open[w].sent == page.sent
      ensures Commits(err) ==> Subsequence(page.sent, page.rows)
      ensures err == None ==> page.sent == page.rows
      ensures err == Some(SendFailed) ==> page.sent != page.rows && page.msgs != []
      ensures !Commits(err) ==> world.s.open[w].phase != Deleted && world.s.open[w].rows == page.rows
      ensures world.reliable ==> Excused(page, err)
      ensures world.quiet && old(Healthy()) ==> err == None && SameTable(world.s, old(world.s))
    {
      hide Batched, Execute;
      page, steps := BLANK.(rows := RowIds(rows)), [];
      ghost var own := Own(world.trace, w);
      var msgs, bad := ParsePage(w, rows);
      if bad {
        err := Some(ParseFailed);
      } else {
        var delayedErr;
        ghost var taken, sent, calls;
        delayedErr, taken, sent, calls := Publish(w, msgs);
        page := page.(msgs := msgs, taken := taken, calls := calls, refused := delayedErr, sent := sent);
        steps := ReportSteps(w, page, delayedErr.Some?);
        ConcatAssociative([Parse(w, msgs)], taken, [Report(w, sent, delayedErr.Some?)]);
        ConcatAssociative(own, [Parse(w, msgs)], taken + [Report(w, sent, delayedErr.Some?)]);
        err := DeleteSent(w);
        if err.None? {
          ConcatAssociative(own, steps, [Delete(w)]);
          steps := steps + [Delete(w)];
          err := if delayedErr.Some? then Some(SendFailed) else None;
        }
      }
    }

    method DoBatch(w: Worker) returns (count: nat, err: Option<PageError>, ghost page: Page)
      requires Valid() && w in world.s.open && world.s.open[w] == Tx(Begun, [], [], {}, [], false)
      modifies world`s, world`trace, world`calls
      ensures Valid() && old(world.trace) <= world.trace && w in world.s.open
      ensures BatchSteps(w, page, err) && Own(world.trace, w) == Own(old(world.trace), w) + page.batch
      ensures world.calls == old(world.calls) + page.calls && PageCalls(publisher, world.c.codec, page)
      ensures Commits(err) ==>
                && (world.s.open[w].phase == Deleted || (world.s.open[w].phase == Selected && page.rows == []))
                && world.s.open[w].rows == page.rows && world.s.open[w].sent == page.sent
                && Subsequence(page.sent, page.rows)
      ensures err == None ==> page.sent == page.rows && count == |page.rows|
      ensures err == Some(SendFailed) ==> page.sent != page.rows && page.msgs != []
      ensures !Commits(err) ==> world.s.open[w].phase != Deleted && world.s.open[w].rows == page.rows
      ensures world.reliable ==> Excused(page, err)
      ensures world.quiet && old(Healthy()) ==>
                && err == None && IsPage(world.c, old(world.s), page.rows)
                && SameRows(world.s, old(world.s))
                && world.s.locks == old(world.s).locks + (map id | id in page.rows :: w)
    {
      hide Batched, Execute, SendSteps;
      page := BLANK;
      count := 0;
      ghost var own := Own(world.trace, w);
      var rows, failed := world.QueryRows(w);
      if failed {
        err := Some(SelectFailed);
        page := page.(rows := world.s.open[w].rows);
        page := page.(batch := if Own(world.trace, w) == own then [] else [Select(w, page.rows)]);
      } else {
        count := |rows|;
        if count == 0 {
          err := None;
          page := page.(batch := [Select(w, [])]);
        } else {
          ghost var steps;
          err, page, steps := SendRows(w, rows);
          ConcatAssociative(own, [Select(w, page.rows)], steps);
          SelectedBatch(w, page, err, steps);
          page := page.(batch := [Select(w, page.rows)] + steps);
        }
      }
    }

    /** Ends the transaction: a send error still commits, every other error rolls back. */
    method EndTx(w: Worker, batchErr: Option<PageError>) returns (failed: bool, ghost last: Step)
      requires Valid() && w in world.s.open
      requires if Commits(batchErr)
               then world.s.open[w].phase == Deleted || (world.s.open[w].phase == Selected && world.s.open[w].rows == [])
               else world.s.open[w].phase != Deleted
      modifies world`s, world`trace
      ensures Valid() && old(world.trace) <= world.trace && w !in world.s.open
      ensures Own(world.trace, w) == Own(old(world.trace), w) + [last]
      ensures if Commits(batchErr) then last == Commit(w) || (failed && last == Lost(w))
              else last == Rollback(w) && !failed
      ensures last == Commit(w) && !failed ==> forall id :: id in old(world.s).open[w].sent ==> id !in world.s.table
      ensures world.reliable ==> !failed
      ensures !Commits(batchErr) ==> forall id :: id in old(world.s).open[w].rows ==>
                id in old(world.s).table && id in world.s.table && world.s.table[id] == old(world.s).table[id]
      ensures world.quiet && batchErr == None ==>
                && !failed && world.s.now == old(world.s).now
                && world.s.table == old(world.s).table - SetOf(old(world.s).open[w].sent)
                && world.s.locks == map id | id in old(world.s).locks && old(world.s).locks[id] != w :: old(world.s).locks[id]
    {
      failed := false;
      if !Commits(batchErr) {
        world.RollbackTx(w);
        last := Rollback(w);
      } else {
        failed := world.CommitTx(w);
        last := if Own(world.trace, w) == Own(old(world.trace), w) + [Commit(w)] then Commit(w) else Lost(w);
      }
    }

    /** One transaction, begin to end; `selected` is what doBatch counted. */
    method RunTx(w: Worker) returns (selected: nat, err: Option<PageError>, ghost page: Page, ghost last: Step)
      requires Valid() && w !in world.s.open
      modifies world`s, world`trace, world`calls, world`begins
      ensures Valid() && old(world.trace) <= world.trace && w !in world.s.open
      ensures world.begins == old(world.begins) + 1
      ensures err == Some(BeginFailed) ==> Own(world.trace, w) == Own(old(world.trace), w)
      ensures err != Some(BeginFailed) ==>
                PageEnd(w, page, err, last) && Own(world.trace, w) == Own(old(world.trace), w) + ([Begin(w)] + page.batch + [last])
      ensures world.calls == old(world.calls) + page.calls && PageCalls(publisher, world.c.codec, page)
      ensures err == None ==> page.sent == page.rows && selected == |page.rows|
      ensures err == Some(SendFailed) ==> Subsequence(page.sent, page.rows) && page.sent != page.rows && page.msgs != []
      ensures Commits(err) ==> forall id :: id in page.sent ==> id !in world.s.table
      ensures world.reliable ==> Excused(page, err)
      ensures world.quiet && old(Healthy()) ==> err == None && QuietPage(world.c, old(world.s), world.s, page.rows)
    {
      hide PageCalls, Execute, Own, Inv, AllEncodable;
      BlankPageCalls(publisher, world.c.codec);
      page, last := BLANK, Begin(w);
      ghost var own, locks := Own(world.trace, w), world.s.locks;
      NoLocksWithoutTx(world, w);
      var failed := world.BeginTx(w);
      if failed {
        return 0, Some(BeginFailed), page, last;
      }
      ghost var begun := world.s;
      selected, err, page := DoBatch(w);
      if world.quiet && old(Healthy()) {
        PageOfSameRows(world.c, old(world.s), begun, page.rows);
        LockAndRelease(locks, page.rows, w);
      }
      ghost var ending := err == Some(ParseFailed) && world.reliable;
      ghost var bad :| ending ==> bad in page.rows && Unparsable(bad);
      failed, last := EndTx(w, err);
      assert ending ==> Unparsable(bad);
      ConcatAssociative(own, [Begin(w)], page.batch);
      ConcatAssociative(own, [Begin(w)] + page.batch, [last]);
      if failed {
        err := Some(CommitFailed);
      }
    }

    /** One page. `run` records it, and is what the trace and the client calls show. */
    method DoPage(w: Worker, form: CountForm) returns (r: Result<nat, PageError>, ghost run: PageRun)
      requires Valid() && w !in world.s.open
      modifies world`s, world`trace, world`calls, world`begins
      ensures Valid() && old(world.trace) <= world.trace && w !in world.s.open
      ensures run.result == r && GoodRun(w, publisher, world.c.codec, form, run)
      ensures world.begins == old(world.begins) + 1
      ensures Own(world.trace, w) == Own(old(world.trace), w) + RunSteps(w, run)
      ensures world.calls == old(world.calls) + run.page.calls
      ensures r.Ok? || r.error == SendFailed ==> forall id :: id in run.page.sent ==> id !in world.s.table
      ensures world.reliable ==> Excused(run.page, if r.Ok? then None else Some(r.error))
      ensures world.quiet && old(Healthy()) ==> r.Ok? && Healthy() && QuietPage(world.c, old(world.s), world.s, run.page.rows)
    {
      hide PageEnd, PageCalls, Execute;
      var count := 0;
      var selected, err;
      ghost var page, last;
      selected, err, page, last := RunTx(w);
      if form == Counted {
        count := selected;
      }
      r := if err.Some? then Err(err.value) else Ok(count);
      run := PageRun(page, r, last);
    }

    /**
     Page after page until a page comes back empty. `budget` bounds the number of
     pages looked at: with inserts and other workers around the loop need not end.
     `runs` are the pages, one for every transaction asked for.
     */
    method LoopUntilEmpty(w: Worker, form: CountForm, budget: nat) returns (r: LoopResult, pages: nat, ghost runs: seq<PageRun>)
      requires Valid() && w !in world.s.open
      modifies world`s, world`trace, world`calls, world`begins
      ensures Valid() && old(world.trace) <= world.trace && w !in world.s.open && pages <= budget
      ensures |runs| == pages && world.begins == old(world.begins) + pages
      ensures OnRecord(w, publisher, world.c.codec, form, runs, Own(old(world.trace), w), Own(world.trace, w), old(world.calls), world.calls)
      ensures LoopEnd(form, runs, r) && (r == StillRunning ==> pages == budget)
      ensures form == AsWritten && budget > 0 ==> pages == 1 && r != StillRunning
      ensures world.reliable && r.Failed? ==> r.error.ParseFailed? || r.error.SendFailed?
      ensures form == Counted && r == Drained ==> EndsWithEmptyPage(w, Own(world.trace, w))
      ensures world.quiet && old(Healthy()) && budget > (if form == Counted then PagesFor(|old(Eligible(world.c, world.s))|) else 0) ==>
                r == Drained && DrainResult(world.c, old(world.s), world.s, form, pages)
    {
      hide Inv, Execute, Own, Apply, Enabled, Eligible, IsPage, GoodRun, OnRecord, Healthy, QuietPage, DrainedSoFar, PagesFor,
        LoopEnd, EndsWithEmptyPage, GoesOn, DrainResult;
      pages, runs := 0, [];
      ghost var before, own, calls := world.s, Own(world.trace, w), world.calls;
      ghost var healthy := world.quiet && Healthy();
      DrainStarts(world.c, before);
      NothingOnRecord(w, publisher, world.c.codec, form, own, calls);
      NoPageYet(form);
      while pages < budget
        invariant Valid() && old(world.trace) <= world.trace && w !in world.s.open && pages <= budget
        invariant |runs| == pages && world.begins == old(world.begins) + pages
        invariant OnRecord(w, publisher, world.c.codec, form, runs, own, Own(world.trace, w), calls, world.calls)
        invariant LoopEnd(form, runs, StillRunning)
        invariant form == AsWritten ==> pages == 0
        invariant healthy ==> DrainedSoFar(world.c, before, world.s, pages) && Healthy() && pages <= PagesFor(|Eligible(world.c, before)|)
        decreases budget - pages
      {
        ghost var s, earlier, ownBefore, callsBefore := world.s, runs, Own(world.trace, w), world.calls;
        var count;
        ghost var run;
        count, run := DoPage(w, form);
        pages, runs := pages + 1, runs + [run];
        RecordNext(w, publisher, world.c.codec, form, earlier, run, own, ownBefore, calls, callsBefore);
        LoopContinues(w, publisher, world.c.codec, form, earlier, run);
        if healthy {
          DrainContinues(world.c, before, s, world.s, run.page.rows, pages - 1);
        }
        if count.Err? {
          return Failed(count.error), pages, runs;
        }
        if count.value == 0 {
          if form == Counted {
            EmptyRunEnds(w, publisher, world.c.codec, ownBefore, run);
          }
          return Drained, pages, runs;
        }
      }
      r := StillRunning;
    }
  }

  // ------------------------------------------------------------------
  // Pages on record
  // ------------------------------------------------------------------

  datatype PageRun = PageRun(page: Page, result: Result<nat, PageError>, last: Step)

  /** A page as doPage runs it: what it sent, how it ended, and what it returned. */
  ghost predicate GoodRun(w: Worker, publisher: Publisher, codec: Codec, form: CountForm, run: PageRun) {
    && PageCalls(publisher, codec, run.page)
    && (run.result != Err(BeginFailed) ==> PageEnd(w, run.page, if run.result.Ok? then None else Some(run.result.error), run.last))
    && (run.result.Ok? ==>
          run.page.sent == run.page.rows && run.result.value == if form == Counted then |run.page.rows| else 0)
    && (run.result == Err(SendFailed) ==>
          Subsequence(run.page.sent, run.page.rows) && run.page.sent != run.page.rows && run.page.msgs != [])
  }

  /** The worker's own steps during a page. */
  function RunSteps(w: Worker, run: PageRun): seq<Step> {
    if run.result == Err(BeginFailed) then [] else [Begin(w)] + run.page.batch + [run.last]
  }

  function StepsOf(w: Worker, runs: seq<PageRun>): seq<Step> {
    if runs == [] then [] else StepsOf(w, runs[..|runs| - 1]) + RunSteps(w, runs[|runs| - 1])
  }

  function CallsOf(runs: seq<PageRun>): seq<BusCall> {
    if runs == [] then [] else CallsOf(runs[..|runs| - 1]) + runs[|runs| - 1].page.calls
  }

  /** A page after which the loop looks at another: only the counted form can tell that there were rows. */
  predicate GoesOn(form: CountForm, run: PageRun) {
    form == Counted && run.result.Ok? && run.page.rows != []
  }

  /** Every page but the last had rows; the last decides the result. */
  ghost predicate LoopEnd(form: CountForm, runs: seq<PageRun>, r: LoopResult) {
    && (forall i :: 0 <= i < |runs| - 1 ==> GoesOn(form, runs[i]))
    && match r
       case Drained => runs != [] && runs[|runs| - 1].result == Ok(0)
       case Failed(e) => runs != [] && runs[|runs| - 1].result == Err(e)
       case StillRunning => forall i :: 0 <= i < |runs| ==> GoesOn(form, runs[i])
  }

  /** The worker's own steps, and the calls on the bus client, went from the first to the second value by these pages and nothing else. */
  ghost predicate OnRecord(w: Worker, publisher: Publisher, codec: Codec, form: CountForm, runs: seq<PageRun>,
      own0: seq<Step>, own: seq<Step>, calls0: seq<BusCall>, calls: seq<BusCall>)
  {
    && (forall i :: 0 <= i < |runs| ==> GoodRun(w, publisher, codec, form, runs[i]))
    && own == own0 + StepsOf(w, runs)
    && calls == calls0 + CallsOf(runs)
  }

  lemma NothingOnRecord(w: Worker, publisher: Publisher, codec: Codec, form: CountForm, own: seq<Step>, calls: seq<BusCall>)
    ensures OnRecord(w, publisher, codec, form, [], own, own, calls, calls)
  {
  }

  lemma RecordNext(w: Worker, publisher: Publisher, codec: Codec, form: CountForm, runs: seq<PageRun>, run: PageRun,
      own0: seq<Step>, own: seq<Step>, calls0: seq<BusCall>, calls: seq<BusCall>)
    requires OnRecord(w, publisher, codec, form, runs, own0, own, calls0, calls) && GoodRun(w, publisher, codec, form, run)
    ensures OnRecord(w, publisher, codec, form, runs + [run], own0, own + RunSteps(w, run), calls0, calls + run.page.calls)
  {
    hide GoodRun, RunSteps;
    assert (runs + [run])[..|runs|] == runs;
    ConcatAssociative(own0, StepsOf(w, runs), RunSteps(w, run));
    ConcatAssociative(calls0, CallsOf(runs), run.page.calls);
  }

  lemma NoPageYet(form: CountForm)
    ensures LoopEnd(form, [], StillRunning)
  {
  }

  /** What another page means for the loop. */
  lemma LoopContinues(w: Worker, publisher: Publisher, codec: Codec, form: CountForm, runs: seq<PageRun>, run: PageRun)
    requires LoopEnd(form, runs, StillRunning) && GoodRun(w, publisher, codec, form, run)
    ensures run.result.Err? ==> LoopEnd(form, runs + [run], Failed(run.result.error))
    ensures run.result == Ok(0) ==> LoopEnd(form, runs + [run], Drained)
    ensures run.result.Ok? && run.result.value != 0 ==> form == Counted && LoopEnd(form, runs + [run], StillRunning)
    ensures run.result.Ok? && form == Counted ==> run.result.value == |run.page.rows|
  {
    hide PageCalls, PageEnd;
  }

  lemma EmptyRunEnds(w: Worker, publisher: Publisher, codec: Codec, own: seq<Step>, run: PageRun)
    requires GoodRun(w, publisher, codec, Counted, run) && run.result == Ok(0)
    ensures EndsWithEmptyPage(w, own + RunSteps(w, run))
  {
    assert run.page.rows == [];
    assert RunSteps(w, run) == [Begin(w), Select(w, []), Commit(w)];
  }

  /** doBatch is the select and what follows it. */
  lemma SelectedBatch(w: Worker, page: Page, err: Option<PageError>, steps: seq<Step>)
    requires page.rows != [] && SendSteps(w, page, err, steps)
    ensures BatchSteps(w, page.(batch := [Select(w, page.rows)] + steps), err)
  {
    assert ([Select(w, page.rows)] + steps)[1..] == steps;
  }

  lemma BlankPageCalls(publisher: Publisher, codec: Codec)
    ensures PageCalls(publisher, codec, BLANK)
  {
  }

  lemma SomeRows(world: SharedWorld, w: Worker)
    requires world.Valid() && w in world.s.open && world.s.open[w].phase == Parsed
    ensures world.s.open[w].msgs != []
  {
    world.Sound();
    assert TxConsistent(world.c, world.s, world.s.open[w]);
  }

  // ------------------------------------------------------------------
  // What a batch reports
  // ------------------------------------------------------------------

  lemma {:induction false} PickedAllIff(messages: seq<Message>, results: seq<bool>)
    requires |messages| == |results|
    ensures |Picked(messages, results)| <= |messages|
    ensures FirstFailure(messages, results) == None <==> |Picked(messages, results)| == |messages|
  {
    if messages != [] {
      var k := |messages| - 1;
      PickedAllIff(messages[..k], results[..k]);
    }
  }

  /** A batch with messages is refused in part exactly when not every id comes back. */
  lemma RefusedIffIncomplete(publisher: Publisher, codec: Codec, msgs: seq<Message>, calls: seq<BusCall>, ids: seq<Id>, err: Option<PublishError>)
    requires msgs != [] && Batched(publisher, codec, msgs, calls, ids, err)
    requires err == None ==> ids == Ids(msgs)
    ensures err == None <==> ids == Ids(msgs)
  {
    if publisher.EventBridge? && AllEncodable(codec, msgs) {
      assert calls == [calls[0]];
      OneCall(calls[0]);
      if calls[0].results.Some? {
        PickedAllIff(msgs, calls[0].results.value);
      }
    } else if publisher.EventBridge? {
      assert ids == [];
    }
  }

  /** Locking a page of unlocked rows and releasing it again changes nothing. */
  lemma LockAndRelease(locks: map<Id, Worker>, rows: seq<Id>, w: Worker)
    requires forall id :: id in locks ==> locks[id] != w && id !in rows
    ensures var held := locks + (map id | id in rows :: w);
            (map id | id in held && held[id] != w :: held[id]) == locks
  {
  }

  lemma PageOfSameRows(c: Config, s: State, t: State, rows: seq<Id>)
    requires IsPage(c, t, rows) && SameTable(t, s)
    ensures IsPage(c, s, rows)
    ensures forall id :: id in rows ==> id !in s.locks
  {
    assert Eligible(c, s) == Eligible(c, t);
    assert forall id :: id in rows ==> id in SetOf(rows);
  }

  lemma NoLocksWithoutTx(world: SharedWorld, w: Worker)
    requires world.Valid() && w !in world.s.open
    ensures forall id :: id in world.s.locks ==> world.s.locks[id] != w
  {
    world.Sound();
  }

  lemma ReportIsEnabled(world: SharedWorld, w: Worker, ids: seq<Id>, err: Option<PublishError>)
    requires world.Valid() && w in world.s.open && world.s.open[w].phase == Parsed
    requires BatchOutcome(world.s.open[w].msgs, world.s.open[w].accepted, ids, err)
    ensures Enabled(world.c, world.s, Report(w, ids, err.Some?))
    ensures Subsequence(ids, world.s.open[w].rows)
    ensures err == None ==> ids == world.s.open[w].rows
  {
    BatchIdsAreRows(world, w);
    world.Sound();
    BatchIdsPassRowCount(world.c, world.s, w, ids);
  }

  /** What the publisher reported is still there to be deleted. */
  lemma SentPassRowCount(world: SharedWorld, w: Worker)
    requires world.Valid() && w in world.s.open
    ensures RowsAffected(world.s, world.s.open[w].sent) == |world.s.open[w].sent|
  {
    world.Sound();
    var s, tx := world.s, world.s.open[w];
    assert TxConsistent(world.c, s, tx);
    NoDupCardinality(tx.sent);
    SentAreHeld(world.c, s, w);
    assert SetOf(tx.sent) == set id | id in s.table && id in tx.sent;
  }

  // ------------------------------------------------------------------
  // Page accounting
  // ------------------------------------------------------------------

  /** An undisturbed page without failures: `rows` are gone, nothing else has changed. */
  ghost predicate QuietPage(c: Config, s: State, t: State, rows: seq<Id>) {
    IsPage(c, s, rows) && t.table == s.table - SetOf(rows) && t.now == s.now && t.locks == s.locks
  }

  lemma QuietPageShrinks(c: Config, s: State, t: State, rows: seq<Id>)
    requires QuietPage(c, s, t, rows)
    ensures Eligible(c, t) == Eligible(c, s) - SetOf(rows)
    ensures |rows| == if |Eligible(c, s)| < 10 then |Eligible(c, s)| else 10
    ensures |Eligible(c, t)| == Left(|Eligible(c, s)|, 1)
  {
    EligibleWithout(c, s, t, rows);
    hide Eligible;
    NoDupCardinality(rows);
    TakeAway(Eligible(c, s), SetOf(rows));
  }

  lemma EligibleWithout(c: Config, s: State, t: State, rows: seq<Id>)
    requires QuietPage(c, s, t, rows)
    ensures Eligible(c, t) == Eligible(c, s) - SetOf(rows)
  {
    hide IsPage;
  }

  lemma TakeAway<T>(all: set<T>, part: set<T>)
    requires part <= all
    ensures |all - part| == |all| - |part|
    ensures |part| == |all| ==> part == all
  {
    assert all == part + (all - part);
    SubsetCardinality(part, all);
  }

  /** After `k` undisturbed pages exactly max(0, n - 10k) of `n` eligible rows are left. */
  lemma {:induction false} PagesLeave(c: Config, states: seq<State>, pages: seq<seq<Id>>)
    requires |states| == |pages| + 1
    requires forall i :: 0 <= i < |pages| ==> QuietPage(c, states[i], states[i + 1], pages[i])
    ensures |Eligible(c, states[|pages|])| == Left(|Eligible(c, states[0])|, |pages|)
  {
    if pages != [] {
      var k := |pages| - 1;
      PagesLeave(c, states[..k + 1], pages[..k]);
      QuietPageShrinks(c, states[k], states[k + 1], pages[k]);
    }
  }

  /** `pages` pages, each but the last certainly full, have been taken out of `before`. */
  ghost predicate DrainedSoFar(c: Config, before: State, now: State, pages: nat) {
    && now.now == before.now && now.locks == before.locks
    && Eligible(c, now) <= Eligible(c, before)
    && now.table == before.table - (Eligible(c, before) - Eligible(c, now))
    && |Eligible(c, now)| == Left(|Eligible(c, before)|, pages)
    && pages <= PagesFor(|Eligible(c, before)|) + 1
  }

  /** What a loop without disturbance has achieved after `pages` pages. */
  ghost predicate DrainResult(c: Config, before: State, now: State, form: CountForm, pages: nat) {
    var n := |Eligible(c, before)|;
    match form
    case Counted => pages == PagesFor(n) + 1 && Eligible(c, now) == {} && now.table == before.table - Eligible(c, before)
    case AsWritten => pages == 1 && |Eligible(c, now)| == Left(n, 1)
  }

  lemma DrainStarts(c: Config, before: State)
    ensures DrainedSoFar(c, before, before, 0)
  {
    assert before.table - (Eligible(c, before) - Eligible(c, before)) == before.table;
  }

  lemma RemoveMore<K, V>(m: map<K, V>, all: set<K>, left: set<K>, more: set<K>)
    requires more <= left <= all
    ensures (m - (all - left)) - more == m - (all - (left - more))
  {
  }

  lemma DrainContinues(c: Config, before: State, s: State, t: State, rows: seq<Id>, pages: nat)
    requires DrainedSoFar(c, before, s, pages) && QuietPage(c, s, t, rows)
    requires pages <= PagesFor(|Eligible(c, before)|)
    ensures DrainedSoFar(c, before, t, pages + 1)
    ensures rows == [] <==> pages == PagesFor(|Eligible(c, before)|)
    ensures rows == [] ==> DrainResult(c, before, t, Counted, pages + 1)
    ensures pages == 0 ==> DrainResult(c, before, t, AsWritten, 1)
  {
    QuietPageShrinks(c, s, t, rows);
    RemoveMore(before.table, Eligible(c, before), Eligible(c, s), SetOf(rows));
    assert rows == [] ==> Eligible(c, before) - Eligible(c, t) == Eligible(c, before);
  }

  /** As written, one page is all a wake-up gets: it drains the table exactly when at most ten rows are eligible. */
  lemma OnePageDrainsIff(c: Config, s: State, t: State, rows: seq<Id>)
    requires QuietPage(c, s, t, rows)
    ensures Eligible(c, t) == {} <==> |Eligible(c, s)| <= 10
  {
    QuietPageShrinks(c, s, t, rows);
  }
}
