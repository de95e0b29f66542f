/**
 The LISTEN loop of one sidecar on top of the outbox protocol: it parks until a
 notification or a connection error wakes it, drains the table, and parks again.
 Worker 0 is this sidecar; any other worker belongs to a further replica.
 */
module OutboxListener {
  import opened Common
  import opened Messages
  import opened Converter
  import opened OutboxProtocol
  import opened OutboxWorker
  import opened Publishers

  const SELF: Worker := 0

  /** `Starting` covers the drain at startup, up to the first LISTEN; `Stopped` is a listener that returned an error. */
  datatype Mode = Starting | Parked | Draining | Stopped

  /**
   `alive` is a working connection with LISTEN in force, `pending` its undelivered
   notifications, `drained` whether a drain has finished since the first LISTEN.
   */
  datatype Listener = Listener(db: State, mode: Mode, alive: bool, pending: nat, drained: bool)

  /** `AppCommit` is one application transaction; its identical notifications arrive as one. */
  datatype Event =
    | AppCommit(rows: seq<(Id, Row)>)
    | Clock(later: int)
    | Listen
    | Wake
    | ConnectionLost
    | Reconnect
    | ReconnectFailed
    | DrainFailed
    | Own(step: Step)
    | Replica(step: Step)

  ghost predicate InsertsEnabled(db: State, rows: seq<(Id, Row)>) {
    && (forall i :: 0 <= i < |rows| ==> rows[i].0 !in db.table)
    && (forall i, j :: 0 <= i < j < |rows| ==> rows[i].0 != rows[j].0)
  }

  ghost function InsertAll(c: Config, db: State, rows: seq<(Id, Row)>): State {
    if rows == [] then db
    else
      var prev := InsertAll(c, db, rows[..|rows| - 1]);
      var step := Insert(rows[|rows| - 1].0, rows[|rows| - 1].1);
      if Enabled(c, prev, step) then Apply(c, prev, step) else prev
  }

  ghost predicate Possible(c: Config, l: Listener, e: Event) {
    match e
    case AppCommit(rows) => rows != [] && InsertsEnabled(l.db, rows)
    case Clock(later) => Enabled(c, l.db, Tick(later))
    case Listen => l.mode == Starting && SELF !in l.db.open
    case Wake => l.mode == Parked && l.alive && l.pending > 0
    case ConnectionLost => l.alive
    case Reconnect => l.mode == Parked && !l.alive
    case ReconnectFailed => l.mode == Parked && !l.alive
    case DrainFailed => l.mode == Draining
    case Own(step) =>
      By(step, SELF) && Enabled(c, l.db, step) && (l.mode == Starting || (l.mode == Draining && l.alive))
    case Replica(step) =>
      !step.Insert? && !step.Tick? && step.w != SELF && Enabled(c, l.db, step)
  }

  /** The database drops the sidecar's transaction when its connection goes. */
  ghost function WithoutSelf(c: Config, db: State): State {
    if SELF in db.open then Apply(c, db, Lost(SELF)) else db
  }

  /** After a page: go on while pages come back non-empty, as far as the page count says so. */
  ghost function AfterPage(form: CountForm, l: Listener, tx: Tx): Mode {
    if l.mode == Starting then (if tx.sendFailed then Stopped else Starting)
    else if tx.sendFailed then Stopped
    else if form == Counted && tx.rows != [] then Draining
    else Parked
  }

  ghost function Next(c: Config, form: CountForm, l: Listener, e: Event): Listener
    requires Possible(c, l, e)
  {
    match e
    case AppCommit(rows) =>
      l.(db := InsertAll(c, l.db, rows), pending := if l.alive then l.pending + 1 else l.pending)
    case Clock(later) => l.(db := Apply(c, l.db, Tick(later)))
    case Listen => l.(mode := Parked, alive := true, pending := 0)
    case Wake => l.(mode := Draining, pending := l.pending - 1)
    case ConnectionLost => l.(alive := false, pending := 0, db := WithoutSelf(c, l.db))
    case Reconnect => l.(mode := Draining, alive := true, pending := 0)
    case ReconnectFailed => l.(mode := Stopped)
    case DrainFailed => l.(mode := Stopped, db := WithoutSelf(c, l.db))
    case Own(step) =>
      var db := Apply(c, l.db, step);
      if step.Commit? then
        var mode := AfterPage(form, l, l.db.open[SELF]);
        l.(db := db, mode := mode, drained := l.drained || mode == Parked)
      else if step.Rollback? || step.Lost? then l.(db := db, mode := Stopped)
      else l.(db := db)
    case Replica(step) => l.(db := Apply(c, l.db, step))
  }

  ghost function Behave(c: Config, form: CountForm, l: Listener, events: seq<Event>): Option<Listener> {
    if events == [] then Some(l)
    else match Behave(c, form, l, events[..|events| - 1])
      case None => None
      case Some(mid) =>
        if Possible(c, mid, events[|events| - 1]) then Some(Next(c, form, mid, events[|events| - 1])) else None
  }

  function Started(now: int): Listener {
    Listener(Init(now), Starting, false, 0, false)
  }

  ghost predicate Alone(events: seq<Event>) {
    forall i :: 0 <= i < |events| ==> !events[i].Replica?
  }

  // ------------------------------------------------------------------
  // No lost wake-up
  // ------------------------------------------------------------------

  /** Nothing to do and nothing to wake up for. */
  predicate Asleep(l: Listener) {
    l.mode == Parked && l.alive && l.pending == 0
  }

  ghost predicate OnlySelf(c: Config, l: Listener) {
    && Inv(c, l.db)
    && l.db.open.Keys <= {SELF}
    && (l.mode == Parked || l.mode == Stopped ==> l.db.open == map[])
    && (l.mode == Starting ==> !l.drained)
  }

  /** The open page came back empty. */
  predicate SawEmptyPage(db: State) {
    SELF in db.open && db.open[SELF].phase == Selected && db.open[SELF].rows == []
  }

  ghost predicate NothingMissed(l: Listener) {
    && (Asleep(l) && l.drained ==> l.db.table == map[])
    && (l.mode == Draining && l.alive && l.pending == 0 && SawEmptyPage(l.db) ==> l.db.table == map[])
  }

  lemma {:induction false} InsertAllKeeps(c: Config, db: State, rows: seq<(Id, Row)>)
    requires Inv(c, db) && InsertsEnabled(db, rows)
    ensures var t := InsertAll(c, db, rows);
            Inv(c, t) && t.open == db.open && t.locks == db.locks
    ensures forall id :: id in InsertAll(c, db, rows).table ==> id in db.table || exists i :: 0 <= i < |rows| && rows[i].0 == id
  {
    if rows != [] {
      var init := rows[..|rows| - 1];
      InsertAllKeeps(c, db, init);
      var prev := InsertAll(c, db, init);
      var step := Insert(rows[|rows| - 1].0, rows[|rows| - 1].1);
      assert forall i :: 0 <= i < |init| ==> init[i] == rows[i];
      if Enabled(c, prev, step) {
        InvKept(c, prev, step);
      }
      assert rows[|rows| - 1].0 == step.id;
    }
  }

  lemma InvOfNext(c: Config, form: CountForm, l: Listener, e: Event)
    requires Inv(c, l.db) && Possible(c, l, e)
    ensures Inv(c, Next(c, form, l, e).db)
  {
    match e {
      case AppCommit(rows) => InsertAllKeeps(c, l.db, rows);
      case Clock(later) => InvKept(c, l.db, Tick(later));
      case ConnectionLost | DrainFailed =>
        if SELF in l.db.open {
          InvKept(c, l.db, Lost(SELF));
        }
      case Own(step) => InvKept(c, l.db, step);
      case Replica(step) => InvKept(c, l.db, step);
      case Listen | Wake | Reconnect | ReconnectFailed =>
    }
  }

  /** A worker's own step opens or ends its own transaction and no other. */
  lemma OpenAfterOwnStep(c: Config, db: State, step: Step)
    requires By(step, SELF) && Enabled(c, db, step) && db.open.Keys <= {SELF}
    ensures var t := Apply(c, db, step);
            && t.open.Keys <= {SELF}
            && (step.Commit? || step.Rollback? || step.Lost? ==> t.open == map[])
  {
  }

  lemma OnlySelfKept(c: Config, form: CountForm, l: Listener, e: Event)
    requires OnlySelf(c, l) && Possible(c, l, e) && !e.Replica?
    ensures OnlySelf(c, Next(c, form, l, e))
  {
    InvOfNext(c, form, l, e);
    match e {
      case AppCommit(rows) => InsertAllKeeps(c, l.db, rows);
      case ConnectionLost | DrainFailed =>
        if SELF in l.db.open {
          OpenAfterOwnStep(c, l.db, Lost(SELF));
        } else {
          assert l.db.open == map[];
        }
      case Own(step) => OpenAfterOwnStep(c, l.db, step);
      case Clock(_) | Listen | Wake | Reconnect | ReconnectFailed =>
    }
  }

  /** With nobody else around and no row delayed, an empty page means an empty table. */
  lemma EmptyPageMeansEmptyTable(c: Config, l: Listener)
    requires OnlySelf(c, l) && !c.delayable && Possible(c, l, Own(Select(SELF, [])))
    ensures l.db.table == map[]
  {
    var db := l.db;
    assert TxConsistent(c, db, db.open[SELF]);
    assert db.locks == map[] by {
      assert forall id :: id in db.locks ==> db.locks[id] == SELF;
    }
    assert Eligible(c, db) == db.table.Keys;
    assert SetOf<Id>([]) == {};
  }

  lemma NothingMissedKept(c: Config, form: CountForm, l: Listener, e: Event)
    requires OnlySelf(c, l) && NothingMissed(l) && Possible(c, l, e) && !e.Replica?
    requires !c.delayable && form == Counted
    ensures NothingMissed(Next(c, form, l, e))
  {
    hide IsPage, IsParseOf;
    match e {
      case AppCommit(rows) => InsertAllKeeps(c, l.db, rows);
      case Own(step) =>
        match step {
          case Select(_, rows) =>
            if rows == [] {
              EmptyPageMeansEmptyTable(c, l);
            }
          case Commit(_) =>
            assert TxConsistent(c, l.db, l.db.open[SELF]);
          case _ =>
        }
      case _ =>
    }
  }

  lemma {:induction false} ListenerInvariant(c: Config, form: CountForm, now: int, events: seq<Event>, l: Listener)
    requires Behave(c, form, Started(now), events) == Some(l) && Alone(events)
    requires !c.delayable && form == Counted
    ensures OnlySelf(c, l) && NothingMissed(l)
  {
    if events == [] {
      InitInv(c, now);
    } else {
      var init, last := events[..|events| - 1], events[|events| - 1];
      var mid := Behave(c, form, Started(now), init).value;
      ListenerInvariant(c, form, now, init, mid);
      OnlySelfKept(c, form, mid, last);
      NothingMissedKept(c, form, mid, last);
    }
  }

  /**
   One sidecar without delayed rows, counting its pages: once a drain has finished
   under LISTEN, whenever the listener sleeps the table is empty, however often it
   was disconnected, and whatever was inserted when.
   */
  lemma NoLostWakeUp(c: Config, now: int, events: seq<Event>, l: Listener)
    requires !c.delayable
    requires Behave(c, Counted, Started(now), events) == Some(l) && Alone(events)
    requires Asleep(l) && l.drained
    ensures l.db.table == map[]
  {
    ListenerInvariant(c, Counted, now, events, l);
  }

  // ------------------------------------------------------------------
  // What may be left, with any number of replicas
  // ------------------------------------------------------------------

  /** Every row is in some open transaction, or was in one that ended without removing it. */
  ghost predicate HeldOrAbandoned(db: State) {
    forall id :: id in db.table ==> id in db.locks || id in db.abandons
  }

  ghost predicate Orderly(c: Config, l: Listener) {
    && Inv(c, l.db)
    && (l.mode == Parked || l.mode == Stopped ==> SELF !in l.db.open)
    && (l.mode == Starting ==> !l.drained)
  }

  ghost predicate NothingForgotten(l: Listener) {
    && (Asleep(l) && l.drained ==> HeldOrAbandoned(l.db))
    && (l.mode == Draining && l.alive && l.pending == 0 && SawEmptyPage(l.db) ==> HeldOrAbandoned(l.db))
  }

  /** A transaction that ends abandons what it does not remove. */
  lemma EndedAbandons(c: Config, db: State, w: Worker, gone: set<Id>)
    requires LocksMatch(db) && w in db.open && HeldOrAbandoned(db)
    ensures HeldOrAbandoned(Ended(db, w, gone))
  {
    var t := Ended(db, w, gone);
    forall id | id in t.table
      ensures id in t.locks || id in t.abandons
    {
      if id in db.locks && db.locks[id] == w {
        assert id in SetOf(db.open[w].rows) - gone;
      }
    }
  }

  /** No step of a worker uncovers a row. */
  lemma StepCovers(c: Config, db: State, step: Step)
    requires Inv(c, db) && HeldOrAbandoned(db) && Enabled(c, db, step) && !step.Insert?
    ensures HeldOrAbandoned(Apply(c, db, step))
  {
    match step
    case Commit(w) => EndedAbandons(c, db, w, SetOf(db.open[w].sent));
    case Rollback(w) => EndedAbandons(c, db, w, {});
    case Lost(w) => EndedAbandons(c, db, w, {});
    case Tick(_) =>
    case Begin(_) =>
    case Select(_, _) =>
    case Parse(_, _) =>
    case Accept(_, _) =>
    case Report(_, _, _) =>
    case Delete(_) =>
  }

  /** A step of another worker does not touch this sidecar's transaction. */
  lemma ReplicaKeepsSelf(c: Config, db: State, step: Step)
    requires Enabled(c, db, step) && !step.Insert? && !step.Tick? && step.w != SELF
    ensures SELF in Apply(c, db, step).open <==> SELF in db.open
    ensures SELF in db.open ==> Apply(c, db, step).open[SELF] == db.open[SELF]
  {
  }

  lemma OrderlyKept(c: Config, form: CountForm, l: Listener, e: Event)
    requires Orderly(c, l) && Possible(c, l, e)
    ensures Orderly(c, Next(c, form, l, e))
  {
    hide Inv;
    InvOfNext(c, form, l, e);
    match e {
      case AppCommit(rows) => OpenAfterInserts(c, l.db, rows);
      case Replica(step) => ReplicaKeepsSelf(c, l.db, step);
      case Own(_) | ConnectionLost | DrainFailed | Clock(_) | Listen | Wake | Reconnect | ReconnectFailed =>
    }
  }

  lemma {:induction false} OpenAfterInserts(c: Config, db: State, rows: seq<(Id, Row)>)
    ensures InsertAll(c, db, rows).open == db.open
  {
    if rows != [] {
      OpenAfterInserts(c, db, rows[..|rows| - 1]);
    }
  }

  /** With no row delayed, an empty page means that every row is in somebody's hands. */
  lemma EmptyPageMeansAllHeld(c: Config, db: State)
    requires !c.delayable && Enabled(c, db, Select(SELF, []))
    ensures HeldOrAbandoned(Apply(c, db, Select(SELF, [])))
  {
    assert SetOf<Id>([]) == {};
    assert forall id :: id in db.table && id !in db.locks ==> id in Eligible(c, db);
  }

  lemma CommitOfNoRows(c: Config, db: State)
    requires Inv(c, db) && Enabled(c, db, Commit(SELF)) && db.open[SELF].rows == []
    ensures SawEmptyPage(db)
  {
    assert TxConsistent(c, db, db.open[SELF]);
  }

  lemma NothingForgottenKept(c: Config, form: CountForm, l: Listener, e: Event)
    requires Orderly(c, l) && NothingForgotten(l) && Possible(c, l, e)
    requires !c.delayable && form == Counted
    ensures NothingForgotten(Next(c, form, l, e))
  {
    hide Inv, IsPage, HeldOrAbandoned;
    match e {
      case Clock(later) =>
        if HeldOrAbandoned(l.db) {
          StepCovers(c, l.db, Tick(later));
        }
      case Replica(step) =>
        ReplicaKeepsSelf(c, l.db, step);
        if HeldOrAbandoned(l.db) {
          StepCovers(c, l.db, step);
        }
      case Own(step) =>
        if step == Select(SELF, []) {
          EmptyPageMeansAllHeld(c, l.db);
        } else if HeldOrAbandoned(l.db) {
          StepCovers(c, l.db, step);
        } else if step.Commit? && l.db.open[SELF].rows == [] {
          CommitOfNoRows(c, l.db);
        }
      case AppCommit(_) | ConnectionLost | DrainFailed | Listen | Wake | Reconnect | ReconnectFailed =>
    }
  }

  lemma {:induction false} OrderlyAlways(c: Config, now: int, events: seq<Event>, l: Listener)
    requires Behave(c, Counted, Started(now), events) == Some(l) && !c.delayable
    ensures Orderly(c, l) && NothingForgotten(l)
  {
    if events == [] {
      InitInv(c, now);
    } else {
      var init, last := events[..|events| - 1], events[|events| - 1];
      var mid := Behave(c, Counted, Started(now), init).value;
      OrderlyAlways(c, now, init, mid);
      OrderlyKept(c, Counted, mid, last);
      NothingForgottenKept(c, Counted, mid, last);
    }
  }

  /**
   With any number of replicas: whenever a listener that has drained sleeps, each row
   still stored is held by another worker's open transaction, or some transaction
   selected it and ended without removing it.
   */
  lemma LeftRowsAreHeldOrAbandoned(c: Config, now: int, events: seq<Event>, l: Listener)
    requires !c.delayable
    requires Behave(c, Counted, Started(now), events) == Some(l) && Asleep(l) && l.drained
    ensures forall id :: id in l.db.table ==> (id in l.db.locks && l.db.locks[id] != SELF) || id in l.db.abandons
  {
    OrderlyAlways(c, now, events, l);
  }

  lemma ListenKeepsTable(c: Config, form: CountForm, l: Listener)
    requires Possible(c, l, Listen)
    ensures Next(c, form, l, Listen).db == l.db
  {
  }

  /** What can come before a sleeping listener that has not drained, LISTEN apart. */
  lemma StaysAsleep(c: Config, form: CountForm, mid: Listener, e: Event)
    requires Possible(c, mid, e) && e != Listen
    requires Asleep(Next(c, form, mid, e)) && !Next(c, form, mid, e).drained
    ensures Asleep(mid) && !mid.drained && (e.Clock? || e.Replica?)
    ensures forall id :: id in Next(c, form, mid, e).db.table ==> id in mid.db.table && Next(c, form, mid, e).db.table[id] == mid.db.table[id]
    ensures e.Clock? ==> Next(c, form, mid, e).db.table == mid.db.table
  {
  }

  /**
   A listener that sleeps without having drained leaves what LISTEN found: `k` is the
   position of LISTEN and `found` the listener there. Other workers may have taken rows
   out since, nobody put one in; alone, the table is empty exactly when it was then.
   */
  lemma {:induction false} UndrainedLeavesWhatListenFound(c: Config, form: CountForm, now: int, events: seq<Event>, l: Listener)
    returns (k: nat, found: Listener)
    requires Behave(c, form, Started(now), events) == Some(l) && Asleep(l) && !l.drained
    ensures k < |events| && events[k] == Listen && Behave(c, form, Started(now), events[..k]) == Some(found)
    ensures forall id :: id in l.db.table ==> id in found.db.table && l.db.table[id] == found.db.table[id]
    ensures Alone(events[k..]) ==> l.db.table == found.db.table
    ensures Alone(events[k..]) ==> (l.db.table == map[] <==> found.db.table == map[])
  {
    hide Possible, Next, InsertAll;
    var n := |events| - 1;
    var init, last := events[..n], events[n];
    var mid := Behave(c, form, Started(now), init).value;
    if last == Listen {
      k, found := n, mid;
      ListenKeepsTable(c, form, mid);
    } else {
      StaysAsleep(c, form, mid, last);
      k, found := UndrainedLeavesWhatListenFound(c, form, now, init, mid);
      assert init[..k] == events[..k];
      if Alone(events[k..]) {
        assert events[k..][n - k] == last;
        assert forall i :: 0 <= i < |init[k..]| ==> init[k..][i] == events[k..][i];
      }
    }
  }

  // ------------------------------------------------------------------
  // The listener as written: one page per wake-up
  // ------------------------------------------------------------------

  lemma {:induction false} OnlySelfAlways(c: Config, form: CountForm, now: int, events: seq<Event>, l: Listener)
    requires Behave(c, form, Started(now), events) == Some(l) && Alone(events)
    ensures OnlySelf(c, l)
  {
    if events == [] {
      InitInv(c, now);
    } else {
      var init, last := events[..|events| - 1], events[|events| - 1];
      var mid := Behave(c, form, Started(now), init).value;
      OnlySelfAlways(c, form, now, init, mid);
      OnlySelfKept(c, form, mid, last);
    }
  }

  /** The open page of a drain, from its select to its commit, with nothing new announced. */
  predicate InPage(l: Listener) {
    && l.mode == Draining && l.alive && l.pending == 0
    && SELF in l.db.open && l.db.open[SELF].phase != Begun
  }

  /** What has become of the table since `found`, from which the page `rows` was selected. */
  ghost predicate SincePage(l: Listener, found: Listener, rows: seq<Id>) {
    if InPage(l) then l.db.table == found.db.table && l.db.open[SELF].rows == rows
    else l.db.table == found.db.table - SetOf(rows)
  }

  /** The last step before a listener sleeps after a drain, or stands in a page. */
  lemma SettlingStep(c: Config, mid: Listener, e: Event, l: Listener)
    requires OnlySelf(c, mid) && Possible(c, mid, e) && l == Next(c, AsWritten, mid, e) && !e.Replica?
    requires (Asleep(l) && l.drained) || InPage(l)
    ensures (e.Own? && e.step.Select?) || (Asleep(mid) && mid.drained) || InPage(mid)
    ensures e.Own? && e.step.Select? ==> InPage(l) && l.db.table == mid.db.table && l.db.open[SELF].rows == e.step.rows
    ensures !(e.Own? && e.step.Select?) && InPage(l) ==>
              InPage(mid) && l.db.table == mid.db.table && l.db.open[SELF].rows == mid.db.open[SELF].rows
    ensures !InPage(l) && InPage(mid) ==> l.db.table == mid.db.table - SetOf(mid.db.open[SELF].rows)
    ensures !InPage(l) && !InPage(mid) ==> l.db.table == mid.db.table
  {
    hide Inv, IsPage, IsParseOf, InsertAll;
    if e.Own? && e.step.Commit? && !mid.db.open[SELF].sendFailed {
      CommitSendsPage(c, mid.db);
    }
  }

  lemma CommitSendsPage(c: Config, db: State)
    requires Inv(c, db) && Enabled(c, db, Commit(SELF)) && !db.open[SELF].sendFailed
    ensures SetOf(db.open[SELF].sent) == SetOf(db.open[SELF].rows)
  {
    CommittedRows(c, db, SELF);
  }

  /** A page takes ten rows out of the table of a lone sidecar, or all of them if they are fewer. */
  lemma LonePage(c: Config, l: Listener, rows: seq<Id>)
    requires OnlySelf(c, l) && !c.delayable && Possible(c, l, Own(Select(SELF, rows)))
    ensures SetOf(rows) <= l.db.table.Keys
    ensures |rows| == |SetOf(rows)| == if |l.db.table| < 10 then |l.db.table| else 10
  {
    var db := l.db;
    assert TxConsistent(c, db, db.open[SELF]);
    assert db.locks == map[] by {
      assert forall id :: id in db.locks ==> db.locks[id] == SELF;
    }
    assert Eligible(c, db) == db.table.Keys;
    NoDupCardinality(rows);
    SubsetCardinality(SetOf(rows), db.table.Keys);
    assert |db.table| == |db.table.Keys|;
  }

  lemma {:induction false} LastPage(c: Config, now: int, events: seq<Event>, l: Listener) returns (k: nat, found: Listener, rows: seq<Id>)
    requires Behave(c, AsWritten, Started(now), events) == Some(l) && Alone(events)
    requires (Asleep(l) && l.drained) || InPage(l)
    ensures k < |events| && events[k] == Own(Select(SELF, rows)) && Behave(c, AsWritten, Started(now), events[..k]) == Some(found)
    ensures Possible(c, found, events[k]) && OnlySelf(c, found) && SincePage(l, found, rows)
  {
    hide OnlySelf, Possible, Next, InPage, Asleep;
    StartIsNotSettled(now);
    var n := |events| - 1;
    var init, last := events[..n], events[n];
    var mid := Behave(c, AsWritten, Started(now), init).value;
    assert Alone(init) && !last.Replica?;
    OnlySelfAlways(c, AsWritten, now, init, mid);
    SettlingStep(c, mid, last, l);
    if last.Own? && last.step.Select? {
      k, found, rows := n, mid, last.step.rows;
      SelectBySelf(c, mid, last);
    } else {
      k, found, rows := LastPage(c, now, init, mid);
      assert init[..k] == events[..k];
    }
  }

  lemma StartIsNotSettled(now: int)
    ensures !(Asleep(Started(now)) && Started(now).drained) && !InPage(Started(now))
  {
  }

  lemma SelectBySelf(c: Config, l: Listener, e: Event)
    requires Possible(c, l, e) && e.Own? && e.step.Select?
    ensures e == Own(Select(SELF, e.step.rows))
  {
  }

  /**
   As written, over whole runs of a lone sidecar without delayed rows: whenever it
   sleeps after a drain, `found` is where its last page was selected, at position `k`;
   all but ten of the rows in the table then are still there, so the table is empty
   exactly when there were at most ten.
   */
  lemma AsWrittenSleepsOnFullTable(c: Config, now: int, events: seq<Event>, l: Listener) returns (k: nat, found: Listener)
    requires !c.delayable
    requires Behave(c, AsWritten, Started(now), events) == Some(l) && Alone(events)
    requires Asleep(l) && l.drained
    ensures k < |events| && events[k].Own? && events[k].step.Select?
    ensures Behave(c, AsWritten, Started(now), events[..k]) == Some(found)
    ensures l.db.table.Keys <= found.db.table.Keys
    ensures |l.db.table| == Left(|found.db.table|, 1)
    ensures l.db.table == map[] <==> |found.db.table| <= 10
  {
    var rows;
    k, found, rows := LastPage(c, now, events, l);
    LonePage(c, found, rows);
    assert l.db.table.Keys == found.db.table.Keys - SetOf(rows);
    TakeAway(found.db.table.Keys, SetOf(rows));
    assert |l.db.table| == |l.db.table.Keys| && |found.db.table| == |found.db.table.Keys|;
  }

  lemma CommittedRows(c: Config, db: State, w: Worker)
    requires LocksMatch(db) && TxsConsistent(c, db) && w in db.open && Enabled(c, db, Commit(w)) && !db.open[w].sendFailed
    ensures SetOf(db.open[w].sent) == SetOf(db.open[w].rows) <= db.table.Keys
    ensures |SetOf(db.open[w].rows)| <= 10
  {
    var tx := db.open[w];
    assert TxConsistent(c, db, tx);
    assert forall id :: id in SetOf(tx.rows) ==> id in db.locks;
    NoDupCardinality(tx.rows);
  }

  lemma BehaveNothing(c: Config, form: CountForm, l: Listener)
    ensures Behave(c, form, l, []) == Some(l)
  {
  }

  lemma BehaveAppend(c: Config, form: CountForm, l: Listener, events: seq<Event>, e: Event)
    requires Behave(c, form, l, events).Some? && Possible(c, Behave(c, form, l, events).value, e)
    ensures Behave(c, form, l, events + [e]) == Some(Next(c, form, Behave(c, form, l, events).value, e))
  {
    assert (events + [e])[..|events + [e]| - 1] == events;
  }

  lemma ShortPages(c: Config, db: State)
    ensures Eligible(c, db) == {} ==> IsPage(c, db, [])
    ensures forall id :: Eligible(c, db) == {id} ==> IsPage(c, db, [id])
  {
    assert SetOf<Id>([]) == {};
    forall id | Eligible(c, db) == {id}
      ensures IsPage(c, db, [id])
    {
      assert SetOf([id]) == {id};
    }
  }

  lemma InsertOne(c: Config, db: State, id: Id, row: Row)
    requires id !in db.table
    ensures InsertAll(c, db, [(id, row)]) == Apply(c, db, Insert(id, row))
  {
    assert [(id, row)][..0] == [];
  }

  const NO_ROWS: seq<Id> := []

  function EmptyTx(phase: Phase): Tx {
    Tx(phase, [], [], {}, [], false)
  }

  function WithTx(db: State, tx: Tx): State {
    db.(open := db.open[SELF := tx])
  }

  lemma EmptySelect(c: Config, db: State)
    requires Eligible(c, db) == {}
    ensures var begun := WithTx(db, EmptyTx(Begun));
            Enabled(c, begun, Select(SELF, [])) && Apply(c, begun, Select(SELF, [])) == WithTx(db, EmptyTx(Selected))
  {
    var begun := WithTx(db, EmptyTx(Begun));
    assert Eligible(c, begun) == Eligible(c, db);
    ShortPages(c, begun);
    assert begun.locks + (map id | id in NO_ROWS :: SELF) == begun.locks;
    assert begun.open[SELF := EmptyTx(Selected)] == db.open[SELF := EmptyTx(Selected)];
  }

  lemma EmptyCommit(db: State)
    requires LocksMatch(db) && SELF !in db.open
    ensures Ended(WithTx(db, EmptyTx(Selected)), SELF, {}) == db
  {
    var t := Ended(WithTx(db, EmptyTx(Selected)), SELF, {});
    assert SetOf<Id>([]) == {};
    assert t.locks == db.locks;
    assert t.open == db.open && t.table == db.table && t.removals == db.removals && t.abandons == db.abandons;
  }

  /** The three events of a page that finds nothing: the database ends as it was. */
  lemma EmptyPageEvents(c: Config, form: CountForm, l: Listener)
    requires Eligible(c, l.db) == {}
    requires LocksMatch(l.db) && SELF !in l.db.open && (l.mode == Starting || (l.mode == Draining && l.alive))
    ensures var begun, selected := l.(db := WithTx(l.db, EmptyTx(Begun))), l.(db := WithTx(l.db, EmptyTx(Selected)));
            var mode := if l.mode == Starting then Starting else Parked;
            && Possible(c, l, Own(Begin(SELF))) && Next(c, form, l, Own(Begin(SELF))) == begun
            && Possible(c, begun, Own(Select(SELF, []))) && Next(c, form, begun, Own(Select(SELF, []))) == selected
            && Possible(c, selected, Own(Commit(SELF)))
            && Next(c, form, selected, Own(Commit(SELF))) == l.(mode := mode, drained := l.drained || mode == Parked)
  {
    hide Eligible, IsPage, IsParseOf, InsertAll, RowsAffected;
    EmptySelect(c, l.db);
    EmptyCommit(l.db);
    assert SetOf<Id>([]) == {};
  }

  /** A page that finds nothing, taken by the listener. */
  lemma EmptyPage(c: Config, form: CountForm, from: Listener, events: seq<Event>, l: Listener) returns (longer: seq<Event>)
    requires Behave(c, form, from, events) == Some(l) && Eligible(c, l.db) == {}
    requires LocksMatch(l.db) && SELF !in l.db.open && (l.mode == Starting || (l.mode == Draining && l.alive))
    ensures var mode := if l.mode == Starting then Starting else Parked;
            Behave(c, form, from, longer) == Some(l.(mode := mode, drained := l.drained || mode == Parked))
    ensures Alone(events) ==> Alone(longer)
  {
    hide Behave, Next, Possible, Eligible, LocksMatch;
    EmptyPageEvents(c, form, l);
    BehaveAppend(c, form, from, events, Own(Begin(SELF)));
    var events1 := events + [Own(Begin(SELF))];
    BehaveAppend(c, form, from, events1, Own(Select(SELF, [])));
    var events2 := events1 + [Own(Select(SELF, []))];
    BehaveAppend(c, form, from, events2, Own(Commit(SELF)));
    longer := events2 + [Own(Commit(SELF))];
  }

  /**
   The window the guarantee leaves out: a row committed after the drain at startup
   and before LISTEN finds the listener asleep.
   */
  lemma StartupWindowStrandsRow(c: Config, form: CountForm, now: int, id: Id, row: Row) returns (events: seq<Event>, l: Listener)
    requires !c.delayable
    ensures Behave(c, form, Started(now), events) == Some(l) && Alone(events)
    ensures Asleep(l) && !l.drained && l.db.table == map[id := row] && l.db.locks == map[]
  {
    hide Behave;
    var start := Started(now);
    BehaveNothing(c, form, start);
    events := EmptyPage(c, form, start, [], start);
    var commit := AppCommit([(id, row)]);
    InsertOne(c, start.db, id, row);
    BehaveAppend(c, form, start, events, commit);
    events := events + [commit];
    var filled := Next(c, form, start, commit);
    BehaveAppend(c, form, start, events, Listen);
    events := events + [Listen];
    l := Next(c, form, filled, Listen);
  }

  /**
   Why the guarantee is for one sidecar: a second replica that selects a row and
   rolls back leaves it unlocked and unannounced while this listener sleeps.
   */
  lemma ReplicaStrandsRow(c: Config, form: CountForm, now: int, id: Id, row: Row) returns (events: seq<Event>, l: Listener)
    requires !c.delayable
    ensures Behave(c, form, Started(now), events) == Some(l) && !Alone(events)
    ensures Asleep(l) && l.drained && l.db.table == map[id := row] && l.db.locks == map[]
  {
    hide Behave;
    var start := Started(now);
    var l4;
    events, l4 := ReplicaTakesRow(c, form, now, id, row);
    BehaveAppend(c, form, start, events, Wake);
    events := events + [Wake];
    var l5 := Next(c, form, l4, Wake);
    assert Eligible(c, l5.db) == {};
    events := EmptyPage(c, form, start, events, l5);
    var l6 := l5.(mode := Parked, drained := true);
    BehaveAppend(c, form, start, events, Replica(Rollback(1)));
    events := events + [Replica(Rollback(1))];
    l := Next(c, form, l6, Replica(Rollback(1)));
    assert events[|events| - 1].Replica?;
    RollbackReleases(c, l6.db, 1);
  }

  lemma RollbackReleases(c: Config, db: State, w: Worker)
    requires w in db.open && (forall id :: id in db.locks ==> db.locks[id] == w) && Enabled(c, db, Rollback(w))
    ensures Apply(c, db, Rollback(w)).table == db.table
    ensures Apply(c, db, Rollback(w)).locks == map[]
  {
    assert SetOf<Id>([]) == {};
  }

  /** Up to the point where the replica holds the only row and the notification is still to be delivered. */
  lemma ReplicaTakesRow(c: Config, form: CountForm, now: int, id: Id, row: Row) returns (events: seq<Event>, l: Listener)
    requires !c.delayable
    ensures Behave(c, form, Started(now), events) == Some(l)
    ensures l.mode == Parked && l.alive && l.pending == 1
    ensures l.db.table == map[id := row] && l.db.locks == map[id := 1]
    ensures l.db.open == map[1 := Tx(Selected, [id], [], {}, [], false)]
  {
    hide Behave, InsertAll, Inv, IsParseOf;
    var start := Started(now);
    BehaveNothing(c, form, start);
    BehaveAppend(c, form, start, [], Listen);
    events := [] + [Listen];
    var l1 := Next(c, form, start, Listen);
    var commit := AppCommit([(id, row)]);
    InsertOne(c, l1.db, id, row);
    BehaveAppend(c, form, start, events, commit);
    events := events + [commit];
    var l2 := Next(c, form, l1, commit);
    BehaveAppend(c, form, start, events, Replica(Begin(1)));
    events := events + [Replica(Begin(1))];
    var l3 := Next(c, form, l2, Replica(Begin(1)));
    assert l3.db.open == map[1 := Tx(Begun, [], [], {}, [], false)];
    SelectOnlyRow(c, l3.db, id, row);
    hide Eligible, Enabled, Apply;
    BehaveAppend(c, form, start, events, Replica(Select(1, [id])));
    events := events + [Replica(Select(1, [id]))];
    l := Next(c, form, l3, Replica(Select(1, [id])));
  }

  lemma SelectOnlyRow(c: Config, db: State, id: Id, row: Row)
    requires !c.delayable && db.table == map[id := row] && db.locks == map[]
    requires db.open == map[1 := Tx(Begun, [], [], {}, [], false)]
    ensures Enabled(c, db, Select(1, [id]))
    ensures var next := Apply(c, db, Select(1, [id]));
            && next.table == db.table && next.locks == map[id := 1]
            && next.open == map[1 := Tx(Selected, [id], [], {}, [], false)]
  {
    hide IsParseOf;
    assert Eligible(c, db) == {id};
    ShortPages(c, db);
  }

  // ------------------------------------------------------------------
  // Runs that leave rows behind as written
  // ------------------------------------------------------------------

  function RowIdsOf(rows: seq<(Id, Row)>): seq<Id> {
    seq(|rows|, i requires 0 <= i < |rows| => rows[i].0)
  }

  /** What a committed application transaction leaves in the table. */
  ghost predicate Filled(db: State, rows: seq<(Id, Row)>, t: State) {
    && t.table.Keys == db.table.Keys + SetOf(RowIdsOf(rows))
    && (forall i :: 0 <= i < |rows| ==> rows[i].0 in t.table && t.table[rows[i].0] == rows[i].1)
    && t.open == db.open && t.locks == db.locks
  }

  lemma {:induction false} InsertAllFills(c: Config, db: State, rows: seq<(Id, Row)>)
    requires InsertsEnabled(db, rows)
    ensures Filled(db, rows, InsertAll(c, db, rows))
  {
    if rows != [] {
      hide InsertAll, Filled, InsertsEnabled;
      var init, id, row := rows[..|rows| - 1], rows[|rows| - 1].0, rows[|rows| - 1].1;
      assert rows == init + [(id, row)];
      FewerInserts(db, init, id, row);
      InsertAllFills(c, db, init);
      FilledNext(c, db, init, InsertAll(c, db, init), id, row);
      InsertAllNext(c, db, init, id, row);
    }
  }

  lemma FewerInserts(db: State, rows: seq<(Id, Row)>, id: Id, row: Row)
    requires InsertsEnabled(db, rows + [(id, row)])
    ensures InsertsEnabled(db, rows)
  {
    var longer := rows + [(id, row)];
    assert forall i :: 0 <= i < |rows| ==> longer[i] == rows[i];
  }

  lemma InsertAllNext(c: Config, db: State, rows: seq<(Id, Row)>, id: Id, row: Row)
    requires Enabled(c, InsertAll(c, db, rows), Insert(id, row))
    ensures InsertAll(c, db, rows + [(id, row)]) == Apply(c, InsertAll(c, db, rows), Insert(id, row))
  {
    assert (rows + [(id, row)])[..|rows|] == rows;
  }

  lemma FilledNext(c: Config, db: State, rows: seq<(Id, Row)>, t: State, id: Id, row: Row)
    requires Filled(db, rows, t) && InsertsEnabled(db, rows + [(id, row)])
    ensures Enabled(c, t, Insert(id, row)) && Filled(db, rows + [(id, row)], Apply(c, t, Insert(id, row)))
  {
    var longer := rows + [(id, row)];
    assert longer[|rows|] == (id, row) && forall i :: 0 <= i < |rows| ==> longer[i] == rows[i];
    assert RowIdsOf(longer) == RowIdsOf(rows) + [id];
    assert id !in RowIdsOf(rows);
  }

  /** One own step at the end of a run. */
  lemma ThenOwn(c: Config, now: int, events: seq<Event>, l: Listener, step: Step) returns (longer: seq<Event>, next: Listener)
    requires Behave(c, AsWritten, Started(now), events) == Some(l) && Alone(events) && Possible(c, l, Own(step))
    ensures next == Next(c, AsWritten, l, Own(step))
    ensures Behave(c, AsWritten, Started(now), longer) == Some(next) && Alone(longer)
  {
    hide Next, Possible, Behave;
    BehaveAppend(c, AsWritten, Started(now), events, Own(step));
    longer, next := events + [Own(step)], Next(c, AsWritten, l, Own(step));
  }

  /** A page under way: only this sidecar's transaction is open. */
  ghost predicate UnderWay(l: Listener, table: map<Id, Row>, tx: Tx) {
    && l.mode == Draining && l.alive && l.pending == 0
    && l.db.table == table && l.db.open == map[SELF := tx]
  }

  /** The bus takes the messages of the page one after the other. */
  lemma {:induction false} AcceptsAll(c: Config, now: int, events: seq<Event>, l: Listener, table: map<Id, Row>, tx: Tx, k: nat)
    returns (longer: seq<Event>, next: Listener)
    requires Behave(c, AsWritten, Started(now), events) == Some(l) && Alone(events)
    requires tx.phase == Parsed && NoDup(tx.rows) && Ids(tx.msgs) == tx.rows && k <= |tx.rows|
    requires UnderWay(l, table, tx.(accepted := SetOf(tx.rows[..k])))
    ensures Behave(c, AsWritten, Started(now), longer) == Some(next) && Alone(longer)
    ensures UnderWay(next, table, tx.(accepted := SetOf(tx.rows)))
    decreases |tx.rows| - k
  {
    if k == |tx.rows| {
      longer, next := events, l;
      assert tx.rows[..k] == tx.rows;
    } else {
      assert tx.msgs[k].messageId == Ids(tx.msgs)[k];
      AcceptNext(c, l, table, tx, k);
      longer, next := ThenOwn(c, now, events, l, Accept(SELF, k));
      longer, next := AcceptsAll(c, now, longer, next, table, tx, k + 1);
    }
  }

  lemma AcceptNext(c: Config, l: Listener, table: map<Id, Row>, tx: Tx, k: nat)
    requires tx.phase == Parsed && NoDup(tx.rows) && Ids(tx.msgs) == tx.rows && k < |tx.rows|
    requires UnderWay(l, table, tx.(accepted := SetOf(tx.rows[..k])))
    ensures Possible(c, l, Own(Accept(SELF, k)))
    ensures UnderWay(Next(c, AsWritten, l, Own(Accept(SELF, k))), table, tx.(accepted := SetOf(tx.rows[..k + 1])))
  {
    assert tx.msgs[k].messageId == Ids(tx.msgs)[k] == tx.rows[k];
    SetOfNext(tx.rows, k);
    assert tx.rows[k] !in SetOf(tx.rows[..k]);
    var t := Next(c, AsWritten, l, Own(Accept(SELF, k)));
    assert t.db.open == map[SELF := tx.(accepted := SetOf(tx.rows[..k + 1]))];
  }

  lemma BeginNext(c: Config, l: Listener)
    requires l.mode == Draining && l.alive && l.pending == 0 && l.db.open == map[]
    ensures Possible(c, l, Own(Begin(SELF)))
    ensures var next := Next(c, AsWritten, l, Own(Begin(SELF)));
            UnderWay(next, l.db.table, Tx(Begun, [], [], {}, [], false)) && SameTable(next.db, l.db)
  {
  }

  lemma SelectNext(c: Config, l: Listener, table: map<Id, Row>, ids: seq<Id>)
    requires UnderWay(l, table, Tx(Begun, [], [], {}, [], false)) && IsPage(c, l.db, ids)
    ensures Possible(c, l, Own(Select(SELF, ids)))
    ensures UnderWay(Next(c, AsWritten, l, Own(Select(SELF, ids))), table, Tx(Selected, ids, [], {}, [], false))
  {
    hide IsPage;
  }

  lemma ParseNext(c: Config, l: Listener, table: map<Id, Row>, ids: seq<Id>, msgs: seq<Message>)
    requires UnderWay(l, table, Tx(Selected, ids, [], {}, [], false)) && ids != [] && |msgs| == |ids|
    requires forall i :: 0 <= i < |ids| ==> ids[i] in table && IsParseOf(c, ids[i], table[ids[i]].data, msgs[i])
    ensures Possible(c, l, Own(Parse(SELF, msgs)))
    ensures UnderWay(Next(c, AsWritten, l, Own(Parse(SELF, msgs))), table, Tx(Parsed, ids, msgs, {}, [], false))
  {
    hide IsParseOf;
  }

  /** Begin, select and parse of a page over rows that parse. */
  lemma PageOpens(c: Config, now: int, events: seq<Event>, l: Listener, ids: seq<Id>, msgs: seq<Message>)
    returns (longer: seq<Event>, next: Listener)
    requires Behave(c, AsWritten, Started(now), events) == Some(l) && Alone(events)
    requires l.mode == Draining && l.alive && l.pending == 0 && l.db.open == map[] && ids != [] && IsPage(c, l.db, ids)
    requires |msgs| == |ids|
    requires forall i :: 0 <= i < |ids| ==> ids[i] in l.db.table && IsParseOf(c, ids[i], l.db.table[ids[i]].data, msgs[i])
    ensures Behave(c, AsWritten, Started(now), longer) == Some(next) && Alone(longer)
    ensures UnderWay(next, l.db.table, Tx(Parsed, ids, msgs, {}, [], false))
  {
    hide Behave, Next, Possible, IsParseOf, IsPage, UnderWay, Alone;
    BeginNext(c, l);
    longer, next := ThenOwn(c, now, events, l, Begin(SELF));
    PageOfSameRows(c, next.db, l.db, ids);
    SelectNext(c, next, l.db.table, ids);
    longer, next := ThenOwn(c, now, longer, next, Select(SELF, ids));
    ParseNext(c, next, l.db.table, ids, msgs);
    longer, next := ThenOwn(c, now, longer, next, Parse(SELF, msgs));
  }

  lemma ReportNext(c: Config, l: Listener, table: map<Id, Row>, ids: seq<Id>, msgs: seq<Message>)
    requires UnderWay(l, table, Tx(Parsed, ids, msgs, SetOf(ids), [], false)) && NoDup(ids)
    ensures Possible(c, l, Own(Report(SELF, ids, false)))
    ensures UnderWay(Next(c, AsWritten, l, Own(Report(SELF, ids, false))), table, Tx(Reported, ids, msgs, SetOf(ids), ids, false))
  {
  }

  lemma DeleteNext(c: Config, l: Listener, table: map<Id, Row>, ids: seq<Id>, msgs: seq<Message>)
    requires UnderWay(l, table, Tx(Reported, ids, msgs, SetOf(ids), ids, false)) && NoDup(ids) && SetOf(ids) <= table.Keys
    ensures Possible(c, l, Own(Delete(SELF)))
    ensures UnderWay(Next(c, AsWritten, l, Own(Delete(SELF))), table, Tx(Deleted, ids, msgs, SetOf(ids), ids, false))
  {
    NoDupCardinality(ids);
    assert SetOf(ids) == set id | id in table && id in ids;
  }

  lemma CommitNext(c: Config, l: Listener, table: map<Id, Row>, ids: seq<Id>, msgs: seq<Message>)
    requires UnderWay(l, table, Tx(Deleted, ids, msgs, SetOf(ids), ids, false))
    ensures Possible(c, l, Own(Commit(SELF)))
    ensures var next := Next(c, AsWritten, l, Own(Commit(SELF)));
            Asleep(next) && next.drained && next.db.table == table - SetOf(ids)
  {
  }

  /** Report, delete and commit of a page that was accepted whole. */
  lemma PageCloses(c: Config, now: int, events: seq<Event>, l: Listener, table: map<Id, Row>, ids: seq<Id>, msgs: seq<Message>)
    returns (longer: seq<Event>, next: Listener)
    requires Behave(c, AsWritten, Started(now), events) == Some(l) && Alone(events)
    requires NoDup(ids) && SetOf(ids) <= table.Keys
    requires UnderWay(l, table, Tx(Parsed, ids, msgs, SetOf(ids), [], false))
    ensures Behave(c, AsWritten, Started(now), longer) == Some(next) && Alone(longer)
    ensures Asleep(next) && next.drained && next.db.table == table - SetOf(ids)
  {
    hide Behave, Next, Possible, UnderWay, Alone, NoDup;
    ReportNext(c, l, table, ids, msgs);
    longer, next := ThenOwn(c, now, events, l, Report(SELF, ids, false));
    DeleteNext(c, next, table, ids, msgs);
    longer, next := ThenOwn(c, now, longer, next, Delete(SELF));
    CommitNext(c, next, table, ids, msgs);
    longer, next := ThenOwn(c, now, longer, next, Commit(SELF));
  }

  /** One wake-up as written: a page is published whole, and the listener sleeps. */
  lemma OneWakeUp(c: Config, now: int, events: seq<Event>, l: Listener, ids: seq<Id>, msgs: seq<Message>)
    returns (longer: seq<Event>, next: Listener)
    requires Behave(c, AsWritten, Started(now), events) == Some(l) && Alone(events)
    requires l.mode == Draining && l.alive && l.pending == 0 && l.db.open == map[] && ids != [] && IsPage(c, l.db, ids)
    requires |msgs| == |ids|
    requires forall i :: 0 <= i < |ids| ==> ids[i] in l.db.table && IsParseOf(c, ids[i], l.db.table[ids[i]].data, msgs[i])
    ensures Behave(c, AsWritten, Started(now), longer) == Some(next) && Alone(longer)
    ensures Asleep(next) && next.drained && next.db.table == l.db.table - SetOf(ids)
  {
    hide Behave, Next, Possible, IsParseOf;
    assert SetOf(ids) <= l.db.table.Keys;
    forall i | 0 <= i < |ids|
      ensures Ids(msgs)[i] == ids[i]
    {
      RowIdBecomesId(c, ids[i], l.db.table[ids[i]].data, msgs[i]);
    }
    longer, next := PageOpens(c, now, events, l, ids, msgs);
    var tx := Tx(Parsed, ids, msgs, {}, [], false);
    assert SetOf(ids[..0]) == {};
    longer, next := AcceptsAll(c, now, longer, next, l.db.table, tx, 0);
    longer, next := PageCloses(c, now, longer, next, l.db.table, ids, msgs);
  }

  /** The first rows of a freshly filled table are a page. */
  lemma FirstRowsArePage(c: Config, db: State, ids: seq<Id>, all: seq<Id>)
    requires !c.delayable && db.locks == map[] && db.table.Keys == SetOf(all) && NoDup(all)
    requires ids == if |all| < 10 then all else all[..10]
    ensures IsPage(c, db, ids)
  {
    assert Eligible(c, db) == db.table.Keys;
    assert forall id :: id in ids ==> id in all;
  }

  lemma Awakened(c: Config, now: int, rows: seq<(Id, Row)>) returns (events: seq<Event>, l: Listener)
    requires rows != [] && NoDup(RowIdsOf(rows))
    ensures Behave(c, AsWritten, Started(now), events) == Some(l) && Alone(events)
    ensures l.mode == Draining && l.alive && l.pending == 0 && l.db.open == map[] && l.db.locks == map[]
    ensures l.db.table.Keys == SetOf(RowIdsOf(rows))
    ensures forall i :: 0 <= i < |rows| ==> rows[i].0 in l.db.table && l.db.table[rows[i].0] == rows[i].1
  {
    hide Behave;
    var start := Started(now);
    BehaveNothing(c, AsWritten, start);
    BehaveAppend(c, AsWritten, start, [], Listen);
    var parked := Next(c, AsWritten, start, Listen);
    forall i, j | 0 <= i < j < |rows|
      ensures rows[i].0 != rows[j].0
    {
      assert RowIdsOf(rows)[i] != RowIdsOf(rows)[j];
    }
    BehaveAppend(c, AsWritten, start, [] + [Listen], AppCommit(rows));
    InsertAllFills(c, parked.db, rows);
    var filled := Next(c, AsWritten, parked, AppCommit(rows));
    BehaveAppend(c, AsWritten, start, [] + [Listen] + [AppCommit(rows)], Wake);
    events, l := [] + [Listen] + [AppCommit(rows)] + [Wake], Next(c, AsWritten, filled, Wake);
  }

  /**
   The bound of `AsWrittenSleepsOnFullTable` is met: for any rows that parse, committed
   together, there is a run without any failure after which the listener sleeps with
   all but ten of them in the table; with eleven rows, one.
   */
  lemma AsWrittenLeavesRows(c: Config, now: int, rows: seq<(Id, Row)>) returns (events: seq<Event>, l: Listener)
    requires !c.delayable && rows != [] && NoDup(RowIdsOf(rows))
    requires forall i :: 0 <= i < |rows| ==> ParsedRow(c.codec, c.source, None, rows[i].0, rows[i].1.data).Ok?
    ensures Behave(c, AsWritten, Started(now), events) == Some(l) && Alone(events)
    ensures Asleep(l) && l.drained && |l.db.table| == Left(|rows|, 1)
  {
    hide Behave, Next, Possible, ParsedRow;
    var awake;
    events, awake := Awakened(c, now, rows);
    var all := RowIdsOf(rows);
    var ids := if |all| < 10 then all else all[..10];
    FirstRowsArePage(c, awake.db, ids, all);
    var msgs := seq(|ids|, i requires 0 <= i < |ids| => ParsedRow(c.codec, c.source, None, rows[i].0, rows[i].1.data).value);
    events, l := OneWakeUp(c, now, events, awake, ids, msgs);
    NoDupCardinality(all);
    NoDupCardinality(ids);
    assert SetOf(ids) <= SetOf(all);
    TakeAway(SetOf(all), SetOf(ids));
    assert l.db.table.Keys == SetOf(all) - SetOf(ids) && |l.db.table| == |l.db.table.Keys|;
  }

  // ------------------------------------------------------------------
  // Errors stop the listener
  // ------------------------------------------------------------------

  /** Outside start-up, what makes the loop return an error: a drain that fails, a send error, a transaction rolled back or lost, and no reconnection. */
  lemma ErrorsStop(c: Config, form: CountForm, l: Listener, e: Event)
    requires Possible(c, l, e)
    ensures e == DrainFailed || e == ReconnectFailed ==> Next(c, form, l, e).mode == Stopped
    ensures e.Own? && (e.step.Rollback? || e.step.Lost?) ==> Next(c, form, l, e).mode == Stopped
    ensures e.Own? && e.step.Commit? && l.db.open[SELF].sendFailed ==> Next(c, form, l, e).mode == Stopped
  {
  }

  /**
   A listener is stuck only for want of an event: parked, a notification or a lost
   connection takes it into a drain, and in a drain it can end the transaction it has
   open, or begin one, as long as the connection holds.
   */
  lemma NeverStuck(c: Config, form: CountForm, l: Listener)
    ensures l.mode == Parked && l.alive && l.pending > 0 ==> Possible(c, l, Wake) && Next(c, form, l, Wake).mode == Draining
    ensures l.mode == Parked && !l.alive ==>
              && Possible(c, l, Reconnect)
              && var next := Next(c, form, l, Reconnect); next.mode == Draining && next.alive && next.db == l.db
    ensures l.mode == Draining && l.alive ==>
              || Possible(c, l, Own(Begin(SELF)))
              || Possible(c, l, Own(Commit(SELF)))
              || Possible(c, l, Own(Rollback(SELF)))
  {
  }

  lemma StoppedNext(c: Config, form: CountForm, l: Listener, e: Event)
    requires l.mode == Stopped && Possible(c, l, e)
    ensures Next(c, form, l, e).mode == Stopped
    ensures !e.Own? && e != Wake && e != Reconnect
  {
  }

  /** A listener that has stopped makes no further step of its own. */
  lemma {:induction false} StoppedStays(c: Config, form: CountForm, l: Listener, events: seq<Event>)
    requires l.mode == Stopped && Behave(c, form, l, events).Some?
    ensures Behave(c, form, l, events).value.mode == Stopped
    ensures forall i :: 0 <= i < |events| ==> !events[i].Own? && events[i] != Wake && events[i] != Reconnect
  {
    if events != [] {
      hide Next, Possible;
      var init, last := events[..|events| - 1], events[|events| - 1];
      StoppedStays(c, form, l, init);
      StoppedNext(c, form, Behave(c, form, l, init).value, last);
      forall i | 0 <= i < |events|
        ensures !events[i].Own? && events[i] != Wake && events[i] != Reconnect
      {
        if i < |init| {
          assert init[i] == events[i];
        }
      }
    }
  }
}
