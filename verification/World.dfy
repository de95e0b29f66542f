/**
 The database and the bus as a worker meets them. Every method here is one call
 the worker makes; what it promises is all a caller may rely on, so each call may
 fail, and any number of steps of other workers, of the application and of the
 clock may happen before it takes effect.
 */
module World {
  import opened Common
  import opened Messages
  import opened Converter
  import opened OutboxProtocol

  /** One call of a bus client: `results` is per entry, or nothing when the whole call failed. */
  datatype BusCall =
    | PutEventsCall(messages: seq<Message>, results: Option<seq<bool>>)
    | PublishCall(message: Message, ok: bool)

  datatype OutboxRow = OutboxRow(id: Id, data: Bytes)

  function RowIds(rows: seq<OutboxRow>): seq<Id> {
    seq(|rows|, i requires 0 <= i < |rows| => rows[i].id)
  }

  predicate AcceptsOf(steps: seq<Step>, w: Worker) {
    forall i :: 0 <= i < |steps| ==> steps[i].Accept? && steps[i].w == w
  }

  /** The table as anyone sees it, and the clock, are as they were. */
  predicate SameRows(s: State, before: State) {
    s.table == before.table && s.now == before.now
  }

  lemma PageIsStored(c: Config, s: State, ids: seq<Id>)
    requires IsPage(c, s, ids)
    ensures forall i :: 0 <= i < |ids| ==> ids[i] in s.table
  {
    assert forall i :: 0 <= i < |ids| ==> ids[i] in SetOf(ids);
  }

  class SharedWorld {
    const c: Config
    const startTime: int
    /** In a reliable world no call fails. */
    const reliable: bool
    /** In an undisturbed world nobody but the caller acts. */
    const undisturbed: bool
    const quiet := reliable && undisturbed
    var s: State
    ghost var trace: seq<Step>
    /** The calls made on the bus clients through this object, with their answers. */
    ghost var calls: seq<BusCall>
    /** How many transactions were asked for, with or without success. */
    ghost var begins: nat

    constructor (c: Config, startTime: int, reliable: bool, undisturbed: bool)
      ensures this.c == c && this.reliable == reliable && this.undisturbed == undisturbed && Valid()
    {
      this.c, this.startTime, this.reliable, this.undisturbed := c, startTime, reliable, undisturbed;
      s := Init(startTime);
      trace, calls, begins := [], [], 0;
    }

    /** The state is where the recorded run of the protocol leads. */
    ghost predicate Valid()
      reads this
    {
      Execute(c, Init(startTime), trace) == Some(s)
    }

    lemma Sound()
      requires Valid()
      ensures Inv(c, s)
    {
      InitInv(c, startTime);
      InvAlways(c, Init(startTime), trace, s);
    }

    method Perform(step: Step)
      requires Valid() && Enabled(c, s, step)
      modifies `s, `trace
      ensures Valid() && s == Apply(c, old(s), step) && trace == old(trace) + [step]
      ensures forall w :: Own(trace, w) == Own(old(trace), w) + if By(step, w) then [step] else []
    {
      ExecuteAppend(c, Init(startTime), trace, step);
      forall w {
        OwnAppend(trace, step, w);
      }
      s := Apply(c, s, step);
      trace := trace + [step];
    }

    /** Everybody but `w` takes any number of steps; the caller knows only this contract. */
    method Others(w: Worker) returns (ghost delta: seq<Step>)
      requires Valid()
      modifies `s, `trace
      ensures Valid() && trace == old(trace) + delta && Own(delta, w) == []
      ensures undisturbed ==> delta == []
    {
      delta := [];
    }

    method Wait(w: Worker)
      requires Valid()
      modifies `s, `trace
      ensures Valid() && old(trace) <= trace && Own(trace, w) == Own(old(trace), w)
      ensures undisturbed ==> trace == old(trace) && s == old(s)
      ensures w in s.open <==> w in old(s).open
      ensures w in s.open ==> s.open[w] == old(s).open[w]
      ensures w in s.open ==> forall id :: id in s.open[w].rows && id in old(s).table ==>
                                id in s.table && s.table[id] == old(s).table[id]
    {
      Sound();
      ghost var before, t0 := s, trace;
      ghost var delta := Others(w);
      OwnConcat(t0, delta, w);
      ExecuteSplit(c, Init(startTime), t0, delta);
      OthersLeaveTxAlone(c, before, delta, s, w);
    }

    method BeginTx(w: Worker) returns (err: bool)
      requires Valid() && w !in s.open
      modifies `s, `trace, `begins
      ensures begins == old(begins) + 1
      ensures Valid() && old(trace) <= trace
      ensures err ==> w !in s.open && Own(trace, w) == Own(old(trace), w)
      ensures !err ==> w in s.open && s.open[w] == Tx(Begun, [], [], {}, [], false)
      ensures !err ==> Own(trace, w) == Own(old(trace), w) + [Begin(w)]
      ensures reliable ==> !err
      ensures quiet ==> SameRows(s, old(s)) && s.locks == old(s).locks
    {
      begins := begins + 1;
      Wait(w);
      if !reliable {
        if * {
          return true;
        }
      }
      Perform(Begin(w));
      err := false;
    }

    /** Some page of the eligible rows. */
    method PickPage() returns (ids: seq<Id>)
      ensures IsPage(c, s, ids)
    {
      ids := [];
      var rest := Eligible(c, s);
      while |ids| < PAGE_LIMIT && rest != {}
        invariant NoDup(ids) && |ids| <= PAGE_LIMIT
        invariant SetOf(ids) + rest == Eligible(c, s) && SetOf(ids) !! rest
        decreases rest
      {
        var id :| id in rest;
        assert id !in SetOf(ids);
        ids := ids + [id];
        assert SetOf(ids) == SetOf(ids[..|ids| - 1]) + {id};
        rest := rest - {id};
      }
    }

    /** The select and the scan of its rows; a failing scan can leave the rows locked. */
    method QueryRows(w: Worker) returns (rows: seq<OutboxRow>, err: bool)
      requires Valid() && w in s.open && s.open[w].phase == Begun
      modifies `s, `trace
      ensures Valid() && old(trace) <= trace && w in s.open
      ensures Own(trace, w) == Own(old(trace), w) + [Select(w, s.open[w].rows)]
              || (err && Own(trace, w) == Own(old(trace), w) && s.open[w] == old(s).open[w])
      ensures s.open[w].phase.Begun? || s.open[w].phase.Selected?
      ensures !err ==> s.open[w] == old(s).open[w].(phase := Selected, rows := RowIds(rows))
      ensures !err ==> forall i :: 0 <= i < |rows| ==> rows[i].id in s.table && s.table[rows[i].id].data == rows[i].data
      ensures reliable ==> !err
      ensures quiet ==> IsPage(c, old(s), RowIds(rows)) && SameRows(s, old(s))
      ensures quiet ==> s.locks == old(s).locks + (map id | id in RowIds(rows) :: w)
    {
      hide Execute, IsPage, Own, Inv, Eligible;
      Wait(w);
      rows, err := [], true;
      var answered, scanned := *, *;
      if reliable || answered {
        var ids := PickPage();
        PageIsStored(c, s, ids);
        Perform(Select(w, ids));
        if reliable || scanned {
          rows := seq(|ids|, i requires 0 <= i < |ids| && ids[i] in s.table reads this => OutboxRow(ids[i], s.table[ids[i]].data));
          assert RowIds(rows) == ids;
          err := false;
        }
      }
    }

    /** One message is offered to the bus. A reported failure may still have been accepted. */
    method Send(w: Worker, i: nat) returns (err: bool, ghost taken: seq<Step>)
      requires Valid() && Enabled(c, s, Accept(w, i))
      modifies `s, `trace
      ensures Valid() && old(trace) <= trace && AcceptsOf(taken, w)
      ensures Own(trace, w) == Own(old(trace), w) + taken
      ensures w in s.open
      ensures s.open[w] == old(s).open[w].(accepted := s.open[w].accepted)
      ensures !err ==> s.open[w].accepted == old(s).open[w].accepted + {old(s).open[w].msgs[i].messageId}
      ensures old(s).open[w].accepted <= s.open[w].accepted <= old(s).open[w].accepted + {old(s).open[w].msgs[i].messageId}
      ensures reliable ==> !err
      ensures quiet ==> SameRows(s, old(s)) && s.locks == old(s).locks
    {
      Wait(w);
      err, taken := false, [];
      if !reliable {
        if * {
          return true, [];
        } else if * {
          err := true;
        }
      }
      taken := [Accept(w, i)];
      Perform(Accept(w, i));
    }

    /** The worker has parsed the rows it holds. */
    method NoteParsed(w: Worker, msgs: seq<Message>)
      requires Valid() && Enabled(c, s, Parse(w, msgs))
      modifies `s, `trace
      ensures Valid() && old(trace) <= trace && Own(trace, w) == Own(old(trace), w) + [Parse(w, msgs)]
      ensures w in s.open && s.open[w] == old(s).open[w].(phase := Parsed, msgs := msgs)
      ensures SameRows(s, old(s)) && s.locks == old(s).locks
    {
      Perform(Parse(w, msgs));
    }

    /** The publisher has told the worker which ids went out. */
    method NoteSent(w: Worker, sent: seq<Id>, failed: bool)
      requires Valid() && Enabled(c, s, Report(w, sent, failed))
      modifies `s, `trace
      ensures Valid() && old(trace) <= trace && Own(trace, w) == Own(old(trace), w) + [Report(w, sent, failed)]
      ensures w in s.open && s.open[w] == old(s).open[w].(phase := Reported, sent := sent, sendFailed := failed)
      ensures SameRows(s, old(s)) && s.locks == old(s).locks
    {
      Perform(Report(w, sent, failed));
    }

    /** The delete statement; when it hits as many rows as it was given the transaction is ready to commit. */
    method ExecDelete(w: Worker) returns (affected: nat, err: bool)
      requires Valid() && w in s.open && s.open[w].phase == Reported
      modifies `s, `trace
      ensures Valid() && old(trace) <= trace && w in s.open
      ensures !err ==> affected == RowsAffected(s, s.open[w].sent)
      ensures !err && affected == |s.open[w].sent| ==>
                Own(trace, w) == Own(old(trace), w) + [Delete(w)] && s.open[w] == old(s).open[w].(phase := Deleted)
      ensures err || affected != |s.open[w].sent| ==> Own(trace, w) == Own(old(trace), w) && s.open[w] == old(s).open[w]
      ensures reliable ==> !err
      ensures quiet ==> SameRows(s, old(s)) && s.locks == old(s).locks
    {
      Wait(w);
      if !reliable {
        if * {
          return 0, true;
        }
      }
      affected := RowsAffected(s, s.open[w].sent);
      if affected == |s.open[w].sent| {
        Perform(Delete(w));
      }
      err := false;
    }

    /** The commit; when it fails the database may have applied it or not. */
    method CommitTx(w: Worker) returns (err: bool)
      requires Valid() && w in s.open
      requires s.open[w].phase == Deleted || (s.open[w].phase == Selected && s.open[w].rows == [])
      modifies `s, `trace
      ensures Valid() && old(trace) <= trace && w !in s.open
      ensures Own(trace, w) == Own(old(trace), w) + [Commit(w)] || (err && Own(trace, w) == Own(old(trace), w) + [Lost(w)])
      ensures !err ==> forall id :: id in old(s).open[w].sent ==> id !in s.table
      ensures reliable ==> !err
      ensures quiet ==> s.now == old(s).now && s.table == old(s).table - SetOf(old(s).open[w].sent)
      ensures quiet ==> s.locks == map id | id in old(s).locks && old(s).locks[id] != w :: old(s).locks[id]
    {
      Wait(w);
      err := false;
      if !reliable {
        if * {
          Perform(Lost(w));
          return true;
        } else if * {
          err := true;
        }
      }
      Perform(Commit(w));
    }

    method RollbackTx(w: Worker)
      requires Valid() && w in s.open && s.open[w].phase != Deleted
      modifies `s, `trace
      ensures Valid() && old(trace) <= trace && w !in s.open
      ensures Own(trace, w) == Own(old(trace), w) + [Rollback(w)]
      ensures forall id :: id in old(s).open[w].rows ==>
                id in old(s).table && id in s.table && s.table[id] == old(s).table[id] && id !in s.locks
    {
      Sound();
      Wait(w);
      Sound();
      Perform(Rollback(w));
    }
  }
}
