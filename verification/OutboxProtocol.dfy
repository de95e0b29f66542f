/**
 The transactional outbox as a step machine. Any number of workers share one
 table; a worker's transaction locks a page of rows, publishes them while it is
 open and deletes the rows the publisher reported as sent. Steps of different
 workers, of the application that inserts rows and of the clock interleave freely.
 */
module OutboxProtocol {
  import opened Common
  import opened Messages
  import opened Converter

  type Id = string
  type Worker = nat

  const PAGE_LIMIT := 10

  datatype Row = Row(data: Bytes, sendAfter: int)

  /** How far an open transaction has come. */
  datatype Phase = Begun | Selected | Parsed | Reported | Deleted

  /**
   `accepted` holds the rows whose message the publisher has taken in this
   transaction, `sent` the ids the publisher reported back as sent.
   */
  datatype Tx = Tx(phase: Phase, rows: seq<Id>, msgs: seq<Message>, accepted: set<Id>, sent: seq<Id>, sendFailed: bool)

  /** `reflection` is the client the converter is given at some point while the outbox is already running. */
  datatype Config = Config(codec: Codec, source: AppInfo, reflection: Option<Reflection>, delayable: bool)

  /**
   `table` holds committed rows. The last four fields are history: every row ever
   committed, and per id the number of inserts, of removals by a commit, and of
   transactions that selected the row and ended without removing it.
   */
  datatype State = State(
    table: map<Id, Row>,
    locks: map<Id, Worker>,
    open: map<Worker, Tx>,
    now: int,
    bus: seq<Message>,
    committed: set<(Id, Row)>,
    inserts: multiset<Id>,
    removals: multiset<Id>,
    abandons: multiset<Id>
  )

  /** `Rollback` is the worker's own decision; `Lost` is a crash, a dropped connection or a failed commit. */
  datatype Step =
    | Insert(id: Id, row: Row)
    | Tick(later: int)
    | Begin(w: Worker)
    | Select(w: Worker, rows: seq<Id>)
    | Parse(w: Worker, msgs: seq<Message>)
    | Accept(w: Worker, i: nat)
    | Report(w: Worker, sent: seq<Id>, failed: bool)
    | Delete(w: Worker)
    | Commit(w: Worker)
    | Rollback(w: Worker)
    | Lost(w: Worker)

  function Init(now: int): State {
    State(map[], map[], map[], now, [], {}, multiset{}, multiset{}, multiset{})
  }

  predicate Due(c: Config, s: State, row: Row) {
    c.delayable ==> row.sendAfter < s.now
  }

  function Eligible(c: Config, s: State): set<Id> {
    set id | id in s.table && id !in s.locks && Due(c, s, s.table[id])
  }

  /** `SELECT ... LIMIT 10 FOR UPDATE SKIP LOCKED`: unlocked due rows, and all of them unless the limit is reached. */
  ghost predicate IsPage(c: Config, s: State, rows: seq<Id>) {
    && NoDup(rows)
    && SetOf(rows) <= Eligible(c, s)
    && |rows| <= PAGE_LIMIT
    && (|rows| < PAGE_LIMIT ==> SetOf(rows) == Eligible(c, s))
  }

  /** `m` is what the parser makes of the row, with or without the reflection client in place. */
  predicate IsParseOf(c: Config, id: Id, data: Bytes, m: Message) {
    || ParsedRow(c.codec, c.source, None, id, data) == Ok(m)
    || ParsedRow(c.codec, c.source, c.reflection, id, data) == Ok(m)
  }

  ghost predicate Enabled(c: Config, s: State, step: Step) {
    match step
    case Insert(id, row) => id !in s.table
    case Tick(later) => s.now <= later
    case Begin(w) => w !in s.open
    case Select(w, rows) => w in s.open && s.open[w].phase == Begun && IsPage(c, s, rows)
    case Parse(w, msgs) =>
      && w in s.open && s.open[w].phase == Selected && s.open[w].rows != []
      && |msgs| == |s.open[w].rows|
      && forall i :: 0 <= i < |msgs| ==>
           s.open[w].rows[i] in s.table && IsParseOf(c, s.open[w].rows[i], s.table[s.open[w].rows[i]].data, msgs[i])
    case Accept(w, i) =>
      w in s.open && s.open[w].phase == Parsed && i < |s.open[w].msgs| && s.open[w].msgs[i].messageId !in s.open[w].accepted
    case Report(w, sent, failed) =>
      && w in s.open && s.open[w].phase == Parsed
      && NoDup(sent) && SetOf(sent) <= s.open[w].accepted
      && (!failed ==> SetOf(sent) == SetOf(s.open[w].rows))
    case Delete(w) =>
      w in s.open && s.open[w].phase == Reported && RowsAffected(s, s.open[w].sent) == |s.open[w].sent|
    case Commit(w) =>
      w in s.open && (s.open[w].phase == Deleted || (s.open[w].phase == Selected && s.open[w].rows == []))
    case Rollback(w) => w in s.open && s.open[w].phase != Deleted
    case Lost(w) => w in s.open
  }

  /** `DELETE FROM outbox WHERE id = ANY(sent)` counts the rows it hits. */
  function RowsAffected(s: State, sent: seq<Id>): nat {
    |set id | id in s.table && id in sent|
  }

  /** The transaction of `w` ends: its locks go, and so do the rows in `gone`. */
  function Ended(s: State, w: Worker, gone: set<Id>): State
    requires w in s.open
  {
    s.(table := s.table - gone,
       locks := map id | id in s.locks && s.locks[id] != w :: s.locks[id],
       open := s.open - {w},
       removals := s.removals + multiset(gone),
       abandons := s.abandons + multiset(SetOf(s.open[w].rows) - gone))
  }

  function Apply(c: Config, s: State, step: Step): State
    requires Enabled(c, s, step)
  {
    match step
    case Insert(id, row) =>
      s.(table := s.table[id := row], committed := s.committed + {(id, row)}, inserts := s.inserts + multiset{id})
    case Tick(later) => s.(now := later)
    case Begin(w) => s.(open := s.open[w := Tx(Begun, [], [], {}, [], false)])
    case Select(w, rows) =>
      s.(open := s.open[w := s.open[w].(phase := Selected, rows := rows)],
         locks := s.locks + (map id | id in rows :: w))
    case Parse(w, msgs) => s.(open := s.open[w := s.open[w].(phase := Parsed, msgs := msgs)])
    case Accept(w, i) =>
      var m := s.open[w].msgs[i];
      s.(open := s.open[w := s.open[w].(accepted := s.open[w].accepted + {m.messageId})], bus := s.bus + [m])
    case Report(w, sent, failed) =>
      s.(open := s.open[w := s.open[w].(phase := Reported, sent := sent, sendFailed := failed)])
    case Delete(w) => s.(open := s.open[w := s.open[w].(phase := Deleted)])
    case Commit(w) => Ended(s, w, SetOf(s.open[w].sent))
    case Rollback(w) => Ended(s, w, {})
    case Lost(w) => Ended(s, w, {})
  }

  /** The state after a run of steps, if every step is enabled when its turn comes. */
  ghost function Execute(c: Config, s: State, steps: seq<Step>): Option<State> {
    if steps == [] then Some(s)
    else match Execute(c, s, steps[..|steps| - 1])
      case None => None
      case Some(mid) =>
        if Enabled(c, mid, steps[|steps| - 1]) then Some(Apply(c, mid, steps[|steps| - 1])) else None
  }

  // ------------------------------------------------------------------
  // Invariant
  // ------------------------------------------------------------------

  /** Row locks and the rows that open transactions hold are two views of the same thing. */
  ghost predicate LocksMatch(s: State) {
    && (forall id :: id in s.locks ==> id in s.table && s.locks[id] in s.open && id in s.open[s.locks[id]].rows)
    && (forall w, id :: w in s.open && id in s.open[w].rows ==> id in s.locks && s.locks[id] == w)
  }

  ghost predicate TxConsistent(c: Config, s: State, tx: Tx) {
    && NoDup(tx.rows) && |tx.rows| <= PAGE_LIMIT
    && (tx.phase == Begun ==> tx.rows == [])
    && (tx.phase.Begun? || tx.phase.Selected? ==> tx.msgs == [] && tx.accepted == {})
    && (tx.phase.Begun? || tx.phase.Selected? || tx.phase.Parsed? ==> tx.sent == [])
    && (tx.phase.Parsed? || tx.phase.Reported? || tx.phase.Deleted? ==> |tx.msgs| == |tx.rows| && tx.rows != [])
    && |tx.msgs| <= |tx.rows|
    && (forall i :: 0 <= i < |tx.msgs| ==>
          && tx.rows[i] in s.table
          && IsParseOf(c, tx.rows[i], s.table[tx.rows[i]].data, tx.msgs[i])
          && tx.msgs[i].messageId == tx.rows[i]
          && (tx.rows[i] in tx.accepted ==> tx.msgs[i] in s.bus))
    && tx.accepted <= SetOf(tx.rows)
    && NoDup(tx.sent)
    && SetOf(tx.sent) <= tx.accepted
    && ((tx.phase.Reported? || tx.phase.Deleted?) && !tx.sendFailed ==> SetOf(tx.sent) == SetOf(tx.rows))
  }

  ghost predicate TxsConsistent(c: Config, s: State) {
    forall w :: w in s.open ==> TxConsistent(c, s, s.open[w])
  }

  ghost predicate OnBus(c: Config, s: State, id: Id, row: Row) {
    exists m :: m in s.bus && IsParseOf(c, id, row.data, m)
  }

  ghost predicate NothingLost(c: Config, s: State) {
    && (forall id :: id in s.table ==> (id, s.table[id]) in s.committed)
    && (forall id, row :: (id, row) in s.committed ==> (id in s.table && s.table[id] == row) || OnBus(c, s, id, row))
  }

  function Ids(msgs: seq<Message>): seq<Id> {
    seq(|msgs|, i requires 0 <= i < |msgs| => msgs[i].messageId)
  }

  /** How often the publisher has accepted a message with this id. */
  function Accepts(s: State, id: Id): nat {
    multiset(Ids(s.bus))[id]
  }

  /** 1 if an open transaction holds the row and the publisher has already taken its message. */
  function InDoubt(s: State, id: Id): nat {
    if id in s.locks && s.locks[id] in s.open && id in s.open[s.locks[id]].accepted then 1 else 0
  }

  ghost predicate CountedAt(s: State, id: Id) {
    && s.inserts[id] == s.removals[id] + (if id in s.table then 1 else 0)
    && s.removals[id] + InDoubt(s, id) <= Accepts(s, id) <= s.removals[id] + s.abandons[id] + InDoubt(s, id)
  }

  ghost predicate Counted(s: State) {
    forall id :: CountedAt(s, id)
  }

  ghost predicate Inv(c: Config, s: State) {
    LocksMatch(s) && TxsConsistent(c, s) && NothingLost(c, s) && Counted(s)
  }

  lemma LocksAfterEnd(s: State, w: Worker, gone: set<Id>)
    requires LocksMatch(s) && w in s.open && gone <= SetOf(s.open[w].rows)
    ensures LocksMatch(Ended(s, w, gone))
  {
  }

  lemma LocksAfterSelect(c: Config, s: State, w: Worker, rows: seq<Id>)
    requires LocksMatch(s) && Enabled(c, s, Select(w, rows)) && s.open[w].rows == []
    ensures LocksMatch(Apply(c, s, Select(w, rows)))
  {
  }

  lemma LocksAfterUpdate(s: State, t: State, w: Worker)
    requires LocksMatch(s) && t.table == s.table && t.locks == s.locks
    requires w in t.open && t.open == s.open[w := t.open[w]]
    requires t.open[w].rows == if w in s.open then s.open[w].rows else []
    ensures LocksMatch(t)
  {
  }

  lemma LocksMatchKept(c: Config, s: State, step: Step)
    requires LocksMatch(s) && TxsConsistent(c, s) && Enabled(c, s, step)
    ensures LocksMatch(Apply(c, s, step))
  {
    match step {
      case Insert(_, _) =>
      case Tick(_) =>
      case Select(w, rows) =>
        assert TxConsistent(c, s, s.open[w]);
        LocksAfterSelect(c, s, w, rows);
      case Commit(w) => SentAreHeld(c, s, w); LocksAfterEnd(s, w, SetOf(s.open[w].sent));
      case Rollback(w) => LocksAfterEnd(s, w, {});
      case Lost(w) => LocksAfterEnd(s, w, {});
      case _ => LocksAfterUpdate(s, Apply(c, s, step), step.w);
    }
  }

  lemma SentAreHeld(c: Config, s: State, w: Worker)
    requires TxsConsistent(c, s) && w in s.open
    ensures SetOf(s.open[w].sent) <= s.open[w].accepted <= SetOf(s.open[w].rows)
  {
    assert TxConsistent(c, s, s.open[w]);
  }

  /** A transaction stays consistent while its rows stay in the table and the bus only grows. */
  lemma TxStaysConsistent(c: Config, s: State, t: State, tx: Tx)
    requires TxConsistent(c, s, tx)
    requires forall id :: id in tx.rows && id in s.table ==> id in t.table && t.table[id] == s.table[id]
    requires forall m :: m in s.bus ==> m in t.bus
    ensures TxConsistent(c, t, tx)
  {
  }

  lemma TxsAfterEnd(c: Config, s: State, w: Worker, gone: set<Id>)
    requires LocksMatch(s) && TxsConsistent(c, s) && w in s.open && gone <= SetOf(s.open[w].rows)
    ensures TxsConsistent(c, Ended(s, w, gone))
  {
    var t := Ended(s, w, gone);
    forall v | v in t.open
      ensures TxConsistent(c, t, t.open[v])
    {
      assert TxConsistent(c, s, s.open[v]);
      forall id | id in s.open[v].rows && id in s.table
        ensures id in t.table
      {
        assert s.locks[id] == v;
      }
      TxStaysConsistent(c, s, t, s.open[v]);
    }
  }

  /** Replacing the transaction of `w` by a consistent one leaves the others alone. */
  lemma TxsAfterUpdate(c: Config, s: State, t: State, w: Worker)
    requires TxsConsistent(c, s) && w in t.open && t.open == s.open[w := t.open[w]]
    requires t.table == s.table && s.bus <= t.bus
    requires TxConsistent(c, t, t.open[w])
    ensures TxsConsistent(c, t)
  {
    assert forall m :: m in s.bus ==> m in t.bus;
    forall v | v in t.open && v != w
      ensures TxConsistent(c, t, t.open[v])
    {
      assert TxConsistent(c, s, s.open[v]);
      TxStaysConsistent(c, s, t, s.open[v]);
    }
  }

  lemma RowIdBecomesId(c: Config, id: Id, data: Bytes, m: Message)
    requires IsParseOf(c, id, data, m)
    ensures m.messageId == id
  {
  }

  lemma TxAfterParse(c: Config, s: State, w: Worker, msgs: seq<Message>)
    requires TxsConsistent(c, s) && Enabled(c, s, Parse(w, msgs))
    ensures TxConsistent(c, Apply(c, s, Parse(w, msgs)), Apply(c, s, Parse(w, msgs)).open[w])
  {
    assert TxConsistent(c, s, s.open[w]);
    forall i | 0 <= i < |msgs|
      ensures msgs[i].messageId == s.open[w].rows[i]
    {
      RowIdBecomesId(c, s.open[w].rows[i], s.table[s.open[w].rows[i]].data, msgs[i]);
    }
  }

  lemma TxAfterAccept(c: Config, s: State, w: Worker, i: nat)
    requires TxsConsistent(c, s) && Enabled(c, s, Accept(w, i))
    ensures TxConsistent(c, Apply(c, s, Accept(w, i)), Apply(c, s, Accept(w, i)).open[w])
  {
    var t := Apply(c, s, Accept(w, i));
    assert TxConsistent(c, s, s.open[w]);
    assert s.open[w].msgs[i].messageId == s.open[w].rows[i];
    forall j | 0 <= j < |s.open[w].msgs| && s.open[w].rows[j] in t.open[w].accepted
      ensures s.open[w].msgs[j] in t.bus
    {
      if j == i {
        assert t.bus[|s.bus|] == s.open[w].msgs[j];
      } else {
        assert s.open[w].msgs[j] in s.bus;
      }
    }
  }

  lemma TxAfterOwnStep(c: Config, s: State, step: Step)
    requires TxsConsistent(c, s) && Enabled(c, s, step)
    requires step.Begin? || step.Select? || step.Parse? || step.Accept? || step.Report? || step.Delete?
    ensures TxConsistent(c, Apply(c, s, step), Apply(c, s, step).open[step.w])
  {
    match step {
      case Parse(w, msgs) => TxAfterParse(c, s, w, msgs);
      case Accept(w, i) => TxAfterAccept(c, s, w, i);
      case Begin(_) =>
      case Select(_, _) | Report(_, _, _) | Delete(_) => assert TxConsistent(c, s, s.open[step.w]);
    }
  }

  lemma TxsConsistentKept(c: Config, s: State, step: Step)
    requires LocksMatch(s) && TxsConsistent(c, s) && Enabled(c, s, step)
    ensures TxsConsistent(c, Apply(c, s, step))
  {
    match step {
      case Insert(id, row) =>
        var t := Apply(c, s, step);
        forall v | v in t.open
          ensures TxConsistent(c, t, t.open[v])
        {
          TxStaysConsistent(c, s, t, t.open[v]);
        }
      case Tick(_) =>
      case Commit(w) => SentAreHeld(c, s, w); TxsAfterEnd(c, s, w, SetOf(s.open[w].sent));
      case Rollback(w) => TxsAfterEnd(c, s, w, {});
      case Lost(w) => TxsAfterEnd(c, s, w, {});
      case _ =>
        TxAfterOwnStep(c, s, step);
        TxsAfterUpdate(c, s, Apply(c, s, step), step.w);
    }
  }

  /** Every row the publisher reported as sent has its message on the bus. */
  lemma SentIsOnBus(c: Config, s: State, w: Worker, id: Id)
    requires TxsConsistent(c, s) && w in s.open && id in s.open[w].accepted && (s.open[w].phase.Parsed? || s.open[w].phase.Reported? || s.open[w].phase.Deleted?)
    ensures id in s.table && OnBus(c, s, id, s.table[id])
  {
    var tx := s.open[w];
    assert TxConsistent(c, s, tx);
    assert id in SetOf(tx.rows);
    var i :| 0 <= i < |tx.rows| && tx.rows[i] == id;
    assert tx.msgs[i] in s.bus && IsParseOf(c, id, s.table[id].data, tx.msgs[i]);
  }

  lemma NothingLostKept(c: Config, s: State, step: Step)
    requires TxsConsistent(c, s) && NothingLost(c, s) && Enabled(c, s, step)
    ensures NothingLost(c, Apply(c, s, step))
  {
    var t := Apply(c, s, step);
    assert s.bus <= t.bus;
    forall id, row | (id, row) in t.committed
      ensures (id in t.table && t.table[id] == row) || OnBus(c, t, id, row)
    {
      if (id, row) in s.committed {
        if step.Commit? && id in s.open[step.w].sent {
          SentAreHeld(c, s, step.w);
          SentIsOnBus(c, s, step.w, id);
        }
        if OnBus(c, s, id, row) {
          var m :| m in s.bus && IsParseOf(c, id, row.data, m);
          assert m in t.bus;
        }
      }
    }
  }

  lemma IdsOfAppend(msgs: seq<Message>, m: Message)
    ensures Ids(msgs + [m]) == Ids(msgs) + [m.messageId]
  {
  }

  lemma CountedAfterEnd(s: State, w: Worker, gone: set<Id>, id: Id)
    requires LocksMatch(s) && CountedAt(s, id)
    requires w in s.open && gone <= s.open[w].accepted <= SetOf(s.open[w].rows)
    ensures CountedAt(Ended(s, w, gone), id)
  {
    var t := Ended(s, w, gone);
    var held := SetOf(s.open[w].rows);
    assert t.removals[id] == s.removals[id] + (if id in gone then 1 else 0);
    assert t.abandons[id] == s.abandons[id] + (if id in held && id !in gone then 1 else 0);
    if id in held {
      assert id in s.open[w].rows;
      assert id in s.locks && s.locks[id] == w && id in s.table;
      assert id !in t.locks;
    } else {
      assert id in s.locks ==> s.locks[id] != w;
      assert InDoubt(t, id) == InDoubt(s, id);
    }
  }

  lemma CountedAfterAccept(c: Config, s: State, w: Worker, i: nat, id: Id)
    requires LocksMatch(s) && CountedAt(s, id) && Enabled(c, s, Accept(w, i))
    requires s.open[w].msgs[i].messageId in s.open[w].rows
    ensures CountedAt(Apply(c, s, Accept(w, i)), id)
  {
    var m := s.open[w].msgs[i];
    assert s.locks[m.messageId] == w;
    IdsOfAppend(s.bus, m);
  }

  /** Steps that neither end a transaction nor reach the publisher leave the books of an id alone. */
  lemma CountedElsewhere(c: Config, s: State, step: Step, id: Id)
    requires LocksMatch(s) && CountedAt(s, id) && Enabled(c, s, step)
    requires !step.Accept? && !step.Commit? && !step.Rollback? && !step.Lost?
    requires step.Select? ==> s.open[step.w].accepted == {}
    ensures CountedAt(Apply(c, s, step), id)
  {
    assert InDoubt(Apply(c, s, step), id) == InDoubt(s, id);
  }

  lemma CountedKept(c: Config, s: State, step: Step)
    requires LocksMatch(s) && TxsConsistent(c, s) && Counted(s) && Enabled(c, s, step)
    ensures Counted(Apply(c, s, step))
  {
    forall id
      ensures CountedAt(Apply(c, s, step), id)
    {
      assert CountedAt(s, id);
      match step {
        case Accept(w, i) =>
          assert TxConsistent(c, s, s.open[w]);
          assert s.open[w].msgs[i].messageId == s.open[w].rows[i];
          CountedAfterAccept(c, s, w, i, id);
        case Commit(w) => SentAreHeld(c, s, w); CountedAfterEnd(s, w, SetOf(s.open[w].sent), id);
        case Rollback(w) => SentAreHeld(c, s, w); CountedAfterEnd(s, w, {}, id);
        case Lost(w) => SentAreHeld(c, s, w); CountedAfterEnd(s, w, {}, id);
        case Select(w, _) =>
          assert TxConsistent(c, s, s.open[w]);
          CountedElsewhere(c, s, step, id);
        case _ => CountedElsewhere(c, s, step, id);
      }
    }
  }

  lemma InvKept(c: Config, s: State, step: Step)
    requires Inv(c, s) && Enabled(c, s, step)
    ensures Inv(c, Apply(c, s, step))
  {
    LocksMatchKept(c, s, step);
    TxsConsistentKept(c, s, step);
    NothingLostKept(c, s, step);
    CountedKept(c, s, step);
  }

  lemma {:induction false} InvAlways(c: Config, s: State, steps: seq<Step>, t: State)
    requires Inv(c, s) && Execute(c, s, steps) == Some(t)
    ensures Inv(c, t)
  {
    if steps != [] {
      var mid := Execute(c, s, steps[..|steps| - 1]).value;
      InvAlways(c, s, steps[..|steps| - 1], mid);
      InvKept(c, mid, steps[|steps| - 1]);
    }
  }

  lemma InitInv(c: Config, now: int)
    ensures Inv(c, Init(now))
  {
  }

  // ------------------------------------------------------------------
  // What every run guarantees
  // ------------------------------------------------------------------

  /** Whatever workers, crashes and failures a run holds, a row that was ever committed is still stored or was published. */
  lemma NoRowIsLost(c: Config, now: int, steps: seq<Step>, t: State, id: Id, row: Row)
    requires Execute(c, Init(now), steps) == Some(t)
    requires (id, row) in t.committed
    ensures (id in t.table && t.table[id] == row) || OnBus(c, t, id, row)
    ensures OnBus(c, t, id, row) ==> exists m :: m in t.bus && m.messageId == id
  {
    InitInv(c, now);
    InvAlways(c, Init(now), steps, t);
    if OnBus(c, t, id, row) {
      var m :| m in t.bus && IsParseOf(c, id, row.data, m);
      RowIdBecomesId(c, id, row.data, m);
    }
  }

  /** A row leaves the table only by the commit of a transaction whose publisher had accepted its message before. */
  lemma DisappearsOnlyAfterAcceptance(c: Config, now: int, steps: seq<Step>, s: State, step: Step, id: Id)
    requires Execute(c, Init(now), steps) == Some(s) && Enabled(c, s, step)
    requires id in s.table && id !in Apply(c, s, step).table
    ensures step.Commit? && s.open[step.w].phase == Deleted
    ensures id in s.locks && s.locks[id] == step.w && id in s.open[step.w].sent
    ensures OnBus(c, s, id, s.table[id])
  {
    InitInv(c, now);
    InvAlways(c, Init(now), steps, s);
    assert TxConsistent(c, s, s.open[step.w]);
    SentAreHeld(c, s, step.w);
    SentIsOnBus(c, s, step.w, id);
  }

  /** No two open transactions hold the same row. */
  lemma RowsAreHeldOnce(c: Config, now: int, steps: seq<Step>, s: State, v: Worker, w: Worker)
    requires Execute(c, Init(now), steps) == Some(s)
    requires v in s.open && w in s.open && v != w
    ensures SetOf(s.open[v].rows) !! SetOf(s.open[w].rows)
  {
    InitInv(c, now);
    InvAlways(c, Init(now), steps, s);
    assert forall id :: id in SetOf(s.open[v].rows) ==> s.locks[id] == v;
  }

  /**
   Each acceptance of an id beyond one per insert is paid for by a transaction
   that selected the row and ended without removing it; and each removal by an acceptance.
   */
  lemma DuplicationIsBounded(c: Config, now: int, steps: seq<Step>, s: State, id: Id)
    requires Execute(c, Init(now), steps) == Some(s)
    ensures Accepts(s, id) <= s.inserts[id] + s.abandons[id]
    ensures s.inserts[id] <= Accepts(s, id) + (if id in s.table then 1 else 0)
  {
    InitInv(c, now);
    InvAlways(c, Init(now), steps, s);
    assert CountedAt(s, id);
  }

  /** A run in which nothing is rolled back, lost or refused by the publisher. */
  ghost predicate Faultless(steps: seq<Step>) {
    forall i :: 0 <= i < |steps| ==> !steps[i].Rollback? && !steps[i].Lost? && (steps[i].Report? ==> !steps[i].failed)
  }

  lemma FaultlessStepAbandonsNothing(c: Config, s: State, step: Step)
    requires TxsConsistent(c, s) && Enabled(c, s, step)
    requires !step.Rollback? && !step.Lost? && (step.Report? ==> !step.failed)
    requires s.abandons == multiset{} && forall w :: w in s.open ==> !s.open[w].sendFailed
    ensures Apply(c, s, step).abandons == multiset{}
    ensures forall w :: w in Apply(c, s, step).open ==> !Apply(c, s, step).open[w].sendFailed
  {
    if step.Commit? {
      assert TxConsistent(c, s, s.open[step.w]);
      assert SetOf(s.open[step.w].rows) - SetOf(s.open[step.w].sent) == {};
    }
  }

  lemma {:induction false} FaultlessAbandonsNothing(c: Config, now: int, steps: seq<Step>, s: State)
    requires Execute(c, Init(now), steps) == Some(s) && Faultless(steps)
    ensures s.abandons == multiset{}
    ensures forall w :: w in s.open ==> !s.open[w].sendFailed
  {
    if steps != [] {
      var init, last := steps[..|steps| - 1], steps[|steps| - 1];
      var mid := Execute(c, Init(now), init).value;
      FaultlessAbandonsNothing(c, now, init, mid);
      InitInv(c, now);
      InvAlways(c, Init(now), init, mid);
      FaultlessStepAbandonsNothing(c, mid, last);
    }
  }

  /** Without faults every insert is published at most once, and exactly once when the row has been removed. */
  lemma FaultlessPublishesOnce(c: Config, now: int, steps: seq<Step>, s: State, id: Id)
    requires Execute(c, Init(now), steps) == Some(s) && Faultless(steps)
    ensures Accepts(s, id) <= s.inserts[id]
    ensures id !in s.table ==> Accepts(s, id) == s.inserts[id]
  {
    FaultlessAbandonsNothing(c, now, steps, s);
    DuplicationIsBounded(c, now, steps, s, id);
  }

  // ------------------------------------------------------------------
  // Delayed rows
  // ------------------------------------------------------------------

  /** Rows held by an open transaction are past the time they were delayed to. */
  ghost predicate HeldAreDue(c: Config, s: State) {
    c.delayable ==> forall id :: id in s.table && id in s.locks ==> s.table[id].sendAfter < s.now
  }

  lemma HeldAreDueAfterSelect(c: Config, s: State, w: Worker, rows: seq<Id>)
    requires HeldAreDue(c, s) && Enabled(c, s, Select(w, rows))
    ensures HeldAreDue(c, Apply(c, s, Select(w, rows)))
  {
    assert forall id :: id in rows ==> id in SetOf(rows);
  }

  lemma HeldAreDueKept(c: Config, s: State, step: Step)
    requires LocksMatch(s) && HeldAreDue(c, s) && Enabled(c, s, step)
    ensures HeldAreDue(c, Apply(c, s, step))
  {
    hide IsPage, IsParseOf;
    match step
    case Select(w, rows) => HeldAreDueAfterSelect(c, s, w, rows);
    case Insert(_, _) =>
    case Tick(_) =>
    case Begin(_) =>
    case Parse(_, _) =>
    case Accept(_, _) =>
    case Report(_, _, _) =>
    case Delete(_) =>
    case Commit(_) =>
    case Rollback(_) =>
    case Lost(_) =>
  }

  /** No delayed row is in any transaction, and so none is published, before its time, whatever the run. */
  lemma {:induction false} DelayedRowsWait(c: Config, now: int, steps: seq<Step>, s: State)
    requires Execute(c, Init(now), steps) == Some(s)
    ensures c.delayable ==> forall id :: id in s.table && id in s.locks ==> s.table[id].sendAfter < s.now
  {
    if steps != [] {
      var init, last := steps[..|steps| - 1], steps[|steps| - 1];
      var mid := Execute(c, Init(now), init).value;
      DelayedRowsWait(c, now, init, mid);
      InitInv(c, now);
      InvAlways(c, Init(now), init, mid);
      HeldAreDueKept(c, mid, last);
    }
  }

  /**
   What a select may return: stored rows that nobody holds and, with delays, that are
   past their time; and unless it is full it leaves only rows that are not.
   */
  lemma SelectTakesWhatIsDue(c: Config, s: State, w: Worker, rows: seq<Id>)
    requires Enabled(c, s, Select(w, rows))
    ensures forall id :: id in rows ==> id in s.table && id !in s.locks && (c.delayable ==> s.table[id].sendAfter < s.now)
    ensures |rows| < 10 ==> forall id :: id in s.table && id !in s.locks && id !in rows ==>
              c.delayable && s.now <= s.table[id].sendAfter
  {
    assert forall id :: id in rows <==> id in SetOf(rows);
    assert forall id :: id in rows ==> id in Eligible(c, s);
    assert forall id :: id in s.table && id !in s.locks && Due(c, s, s.table[id]) ==> id in Eligible(c, s);
  }

  // ------------------------------------------------------------------
  // Runs as histories
  // ------------------------------------------------------------------

  predicate By(step: Step, w: Worker) {
    !step.Insert? && !step.Tick? && step.w == w
  }

  /** The steps of one worker within a run. */
  function Own(steps: seq<Step>, w: Worker): seq<Step> {
    if steps == [] then []
    else
      var last := steps[|steps| - 1];
      Own(steps[..|steps| - 1], w) + if By(last, w) then [last] else []
  }

  lemma ExecuteAppend(c: Config, s: State, steps: seq<Step>, step: Step)
    requires Execute(c, s, steps).Some? && Enabled(c, Execute(c, s, steps).value, step)
    ensures Execute(c, s, steps + [step]) == Some(Apply(c, Execute(c, s, steps).value, step))
  {
    assert (steps + [step])[..|steps + [step]| - 1] == steps;
  }

  lemma OwnAppend(steps: seq<Step>, step: Step, w: Worker)
    ensures Own(steps + [step], w) == Own(steps, w) + if By(step, w) then [step] else []
  {
    assert (steps + [step])[..|steps + [step]| - 1] == steps;
  }

  lemma {:induction false} OwnConcat(a: seq<Step>, b: seq<Step>, w: Worker)
    ensures Own(a + b, w) == Own(a, w) + Own(b, w)
  {
    if b == [] {
      assert a + b == a;
    } else {
      OwnConcat(a, b[..|b| - 1], w);
      assert a + b == (a + b[..|b| - 1]) + [b[|b| - 1]];
      OwnAppend(a + b[..|b| - 1], b[|b| - 1], w);
    }
  }

  /** The later part of a run is a run from where the earlier part ended. */
  lemma {:induction false} ExecuteSplit(c: Config, s: State, a: seq<Step>, b: seq<Step>)
    requires Execute(c, s, a + b).Some?
    ensures Execute(c, s, a).Some?
    ensures Execute(c, Execute(c, s, a).value, b) == Execute(c, s, a + b)
  {
    if b == [] {
      assert a + b == a;
    } else {
      assert (a + b)[..|a + b| - 1] == a + b[..|b| - 1];
      ExecuteSplit(c, s, a, b[..|b| - 1]);
    }
  }

  lemma OtherLeavesTxAlone(c: Config, s: State, step: Step, w: Worker)
    requires LocksMatch(s) && TxsConsistent(c, s) && Enabled(c, s, step) && !By(step, w)
    ensures var t := Apply(c, s, step);
            && (w in t.open <==> w in s.open)
            && (w in t.open ==> t.open[w] == s.open[w])
            && (w in t.open ==> forall id :: id in t.open[w].rows && id in s.table ==> id in t.table && t.table[id] == s.table[id])
  {
    hide TxsConsistent, LocksMatch, IsPage, Eligible;
    if step.Commit? && w in s.open {
      CommitSparesOthers(c, s, step.w, w);
    }
  }

  /** What a commit deletes is held by that transaction, so it is no row of another. */
  lemma CommitSparesOthers(c: Config, s: State, v: Worker, w: Worker)
    requires LocksMatch(s) && TxsConsistent(c, s) && Enabled(c, s, Commit(v)) && w in s.open && v != w
    ensures SetOf(s.open[v].sent) !! SetOf(s.open[w].rows)
    ensures forall id :: id in s.open[w].rows ==> id !in s.open[v].sent
  {
    SentAreHeld(c, s, v);
    assert forall id :: id in SetOf(s.open[w].rows) ==> s.locks[id] == w;
    assert forall id :: id in SetOf(s.open[v].sent) ==> s.locks[id] == v;
    assert forall id :: id in s.open[w].rows ==> id in SetOf(s.open[w].rows);
  }

  /** Whatever the others do, a worker's transaction and the rows it holds stay as they are. */
  lemma {:induction false} OthersLeaveTxAlone(c: Config, s: State, steps: seq<Step>, t: State, w: Worker)
    requires Inv(c, s) && Execute(c, s, steps) == Some(t) && Own(steps, w) == []
    ensures w in t.open <==> w in s.open
    ensures w in t.open ==> t.open[w] == s.open[w]
    ensures w in t.open ==> forall id :: id in t.open[w].rows && id in s.table ==> id in t.table && t.table[id] == s.table[id]
  {
    if steps != [] {
      var init, last := steps[..|steps| - 1], steps[|steps| - 1];
      var mid := Execute(c, s, init).value;
      OthersLeaveTxAlone(c, s, init, mid, w);
      InvAlways(c, s, init, mid);
      OtherLeavesTxAlone(c, mid, last, w);
    }
  }
}
