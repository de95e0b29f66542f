/**
 Concurrent lookups through the reflection client: a read-locked look, then the
 write lock, a second look, and only then a fetch. Callers interleave freely, and
 registering a file is not atomic: its symbols are indexed before its path.
 */
module CachedLookup {
  import opened Common
  import opened DescriptorGraph
  import opened Fetcher

  type Caller = nat

  /** Where a caller is. `Looked` and `Resolved` still hold the read and the write lock. */
  datatype Pc =
    | Wanting(name: string)
    | Reading(name: string)
    | Looked(name: string, hit: Option<Path>)
    | Missed(name: string)
    | Writing(name: string)
    | Fetching(name: string)
    | Resolved(name: string, result: Option<Path>)
    | Finished(name: string, result: Option<Path>)

  /** `half` is a file whose symbols are indexed but whose path is not yet; `log` is the fetches that have ended. */
  datatype Client = Client(
    files: map<Path, File>,
    names: map<string, Path>,
    half: Option<File>,
    readers: set<Caller>,
    writer: Option<Caller>,
    callers: map<Caller, Pc>,
    log: seq<(string, bool)>
  )

  datatype Act =
    | Call(t: Caller, name: string)
    | LockRead(t: Caller)
    | Look(t: Caller)
    | UnlockRead(t: Caller)
    | LockWrite(t: Caller)
    | LookAgain(t: Caller)
    | IndexSymbols(t: Caller, file: File)
    | IndexPath(t: Caller)
    | EndFetch(t: Caller, ok: bool)
    | UnlockWrite(t: Caller)

  function Lookup(c: Client, name: string): Option<Path> {
    if name in c.names then Some(c.names[name]) else None
  }

  ghost predicate CanAct(g: Graph, c: Client, a: Act) {
    match a
    case Call(t, name) => t !in c.callers || c.callers[t].Finished?
    case LockRead(t) => t in c.callers && c.callers[t].Wanting? && c.writer.None?
    case Look(t) => t in c.callers && c.callers[t].Reading?
    case UnlockRead(t) => t in c.callers && c.callers[t].Looked?
    case LockWrite(t) => t in c.callers && c.callers[t].Missed? && c.writer.None? && c.readers == {}
    case LookAgain(t) => t in c.callers && c.callers[t].Writing?
    case IndexSymbols(t, file) =>
      && t in c.callers && c.callers[t].Fetching? && c.half.None?
      && file.path in g && file == g[file.path] && file.path !in c.files
      && forall i :: i in file.imports ==> i in c.files
    case IndexPath(t) => t in c.callers && c.callers[t].Fetching? && c.half.Some?
    case EndFetch(t, ok) =>
      t in c.callers && c.callers[t].Fetching? && c.half.None? && (ok ==> c.callers[t].name in c.names)
    case UnlockWrite(t) => t in c.callers && c.callers[t].Resolved?
  }

  ghost function Do(g: Graph, c: Client, a: Act): Client
    requires CanAct(g, c, a)
  {
    match a
    case Call(t, name) => c.(callers := c.callers[t := Wanting(name)])
    case LockRead(t) => c.(readers := c.readers + {t}, callers := c.callers[t := Reading(c.callers[t].name)])
    case Look(t) =>
      var name := c.callers[t].name;
      c.(callers := c.callers[t := Looked(name, Lookup(c, name))])
    case UnlockRead(t) =>
      var pc := c.callers[t];
      c.(readers := c.readers - {t},
         callers := c.callers[t := if pc.hit.Some? then Finished(pc.name, pc.hit) else Missed(pc.name)])
    case LockWrite(t) => c.(writer := Some(t), callers := c.callers[t := Writing(c.callers[t].name)])
    case LookAgain(t) =>
      var name := c.callers[t].name;
      c.(callers := c.callers[t := if Lookup(c, name).Some? then Resolved(name, Lookup(c, name)) else Fetching(name)])
    case IndexSymbols(t, file) =>
      c.(names := c.names + (map n | n in file.symbols :: file.path), half := Some(file))
    case IndexPath(t) => c.(files := c.files[c.half.value.path := c.half.value], half := None)
    case EndFetch(t, ok) =>
      var name := c.callers[t].name;
      c.(callers := c.callers[t := Resolved(name, if ok then Lookup(c, name) else None)], log := c.log + [(name, ok)])
    case UnlockWrite(t) =>
      c.(writer := None, callers := c.callers[t := Finished(c.callers[t].name, c.callers[t].result)])
  }

  ghost function Acts(g: Graph, c: Client, acts: seq<Act>): Option<Client> {
    if acts == [] then Some(c)
    else match Acts(g, c, acts[..|acts| - 1])
      case None => None
      case Some(mid) =>
        if CanAct(g, mid, acts[|acts| - 1]) then Some(Do(g, mid, acts[|acts| - 1])) else None
  }

  // ------------------------------------------------------------------
  // Invariant
  // ------------------------------------------------------------------

  predicate HoldsRead(pc: Pc) {
    pc.Reading? || pc.Looked?
  }

  predicate HoldsWrite(pc: Pc) {
    pc.Writing? || pc.Fetching? || pc.Resolved?
  }

  /** Read and write locks exclude each other, and the lock state is what the callers hold. */
  ghost predicate LocksHeld(c: Client) {
    && (c.writer.Some? ==> c.readers == {})
    && (forall t :: t in c.readers <==> t in c.callers && HoldsRead(c.callers[t]))
    && (forall t :: c.writer == Some(t) <==> t in c.callers && HoldsWrite(c.callers[t]))
    && (c.half.Some? ==> c.writer.Some? && c.callers[c.writer.value].Fetching?)
  }

  /** The registry holds the server's files; only a half-registered file keeps its indexes apart. */
  ghost predicate RegistrySound(g: Graph, c: Client) {
    && (forall p :: p in c.files ==> p in g && c.files[p] == g[p])
    && ImportClosed(c.files)
    && (c.half.None? ==> IndexesAgree(c.files, c.names))
    && (c.half.Some? ==>
          && c.half.value.path in g && c.half.value == g[c.half.value.path] && c.half.value.path !in c.files
          && (forall i :: i in c.half.value.imports ==> i in c.files)
          && IndexesAgree(c.files[c.half.value.path := c.half.value], c.names))
  }

  ghost predicate Defines(g: Graph, name: string, p: Path) {
    p in g && name in g[p].symbols
  }

  ghost predicate AnswersSound(g: Graph, c: Client) {
    && (forall t :: t in c.callers && c.callers[t].Looked? && c.callers[t].hit.Some? ==>
          Defines(g, c.callers[t].name, c.callers[t].hit.value))
    && (forall t :: t in c.callers && (c.callers[t].Resolved? || c.callers[t].Finished?) && c.callers[t].result.Some? ==>
          Defines(g, c.callers[t].name, c.callers[t].result.value))
  }

  ghost predicate FetchedOnce(c: Client) {
    && (forall n :: (n, true) in c.log ==> n in c.names)
    && (forall t :: t in c.callers && c.callers[t].Fetching? ==> (c.callers[t].name, true) !in c.log)
    && (forall i, j :: 0 <= i < j < |c.log| && c.log[i].1 ==> c.log[j].0 != c.log[i].0)
  }

  ghost predicate ClientInv(g: Graph, c: Client) {
    LocksHeld(c) && RegistrySound(g, c) && AnswersSound(g, c) && FetchedOnce(c)
  }

  lemma LocksHeldKept(g: Graph, c: Client, a: Act)
    requires LocksHeld(c) && CanAct(g, c, a)
    ensures LocksHeld(Do(g, c, a))
  {
  }

  lemma RegistrySoundKept(g: Graph, c: Client, a: Act)
    requires Consistent(g) && RegistrySound(g, c) && CanAct(g, c, a)
    ensures RegistrySound(g, Do(g, c, a))
  {
    match a {
      case IndexSymbols(_, file) =>
        assert forall n :: n in file.symbols ==> n !in c.names;
        IndexesAfter(c.files, c.names, file);
      case _ =>
    }
  }

  /** Nobody looks while a file is half registered. */
  lemma LookersSeeWholeRegistry(g: Graph, c: Client, a: Act)
    requires LocksHeld(c) && RegistrySound(g, c) && CanAct(g, c, a) && (a.Look? || a.LookAgain? || a.EndFetch?)
    ensures c.half.None? && IndexesAgree(c.files, c.names) && ImportClosed(c.files)
  {
    assert a.Look? ==> a.t in c.readers;
    assert a.LookAgain? ==> c.writer == Some(a.t);
  }

  lemma LookupIsSound(g: Graph, c: Client, name: string)
    requires RegistrySound(g, c) && c.half.None? && Lookup(c, name).Some?
    ensures Defines(g, name, Lookup(c, name).value)
  {
  }

  lemma AnswersSoundKept(g: Graph, c: Client, a: Act)
    requires LocksHeld(c) && RegistrySound(g, c) && AnswersSound(g, c) && CanAct(g, c, a)
    ensures AnswersSound(g, Do(g, c, a))
  {
    if a.Look? || a.LookAgain? || a.EndFetch? {
      LookersSeeWholeRegistry(g, c, a);
      if Lookup(c, c.callers[a.t].name).Some? {
        LookupIsSound(g, c, c.callers[a.t].name);
      }
    }
  }

  lemma FetchedOnceKept(g: Graph, c: Client, a: Act)
    requires LocksHeld(c) && FetchedOnce(c) && CanAct(g, c, a)
    ensures FetchedOnce(Do(g, c, a))
  {
    if a.EndFetch? {
      assert c.writer == Some(a.t);
      var name := c.callers[a.t].name;
      forall i | 0 <= i < |c.log| && c.log[i].1
        ensures name != c.log[i].0
      {
        assert c.log[i] in c.log && c.log[i] == (c.log[i].0, true);
      }
      forall t | t in c.callers && t != a.t
        ensures !c.callers[t].Fetching?
      {
        assert HoldsWrite(c.callers[t]) ==> c.writer == Some(t);
      }
    }
  }

  lemma {:induction false} ClientInvAlways(g: Graph, start: Client, acts: seq<Act>, c: Client)
    requires Consistent(g) && ClientInv(g, start) && Acts(g, start, acts) == Some(c)
    ensures ClientInv(g, c)
  {
    if acts != [] {
      var mid, last := Acts(g, start, acts[..|acts| - 1]).value, acts[|acts| - 1];
      ClientInvAlways(g, start, acts[..|acts| - 1], mid);
      LocksHeldKept(g, mid, last);
      RegistrySoundKept(g, mid, last);
      AnswersSoundKept(g, mid, last);
      FetchedOnceKept(g, mid, last);
    }
  }

  /** A client as FetchServices leaves it: a whole registry and nobody calling yet. */
  ghost predicate Fresh(g: Graph, c: Client) {
    && c.half.None? && c.readers == {} && c.writer.None? && c.callers == map[] && c.log == []
    && (forall p :: p in c.files ==> p in g && c.files[p] == g[p])
    && ImportClosed(c.files) && IndexesAgree(c.files, c.names)
  }

  /**
   With any interleaving: a finished lookup that succeeded names the file where the
   server defines the symbol, every look is at a whole and import-closed registry,
   and a name fetched with success is never fetched again.
   */
  lemma LookupIsTransparent(g: Graph, start: Client, acts: seq<Act>, c: Client)
    requires Consistent(g) && Fresh(g, start) && Acts(g, start, acts) == Some(c)
    ensures forall t :: t in c.callers && c.callers[t].Finished? && c.callers[t].result.Some? ==>
              Defines(g, c.callers[t].name, c.callers[t].result.value)
    ensures forall a :: CanAct(g, c, a) && (a.Look? || a.LookAgain?) ==>
              c.half.None? && IndexesAgree(c.files, c.names) && ImportClosed(c.files)
    ensures forall i, j :: 0 <= i < j < |c.log| && c.log[i].1 ==> c.log[j].0 != c.log[i].0
  {
    ClientInvAlways(g, start, acts, c);
    forall a | CanAct(g, c, a) && (a.Look? || a.LookAgain?)
      ensures c.half.None? && IndexesAgree(c.files, c.names) && ImportClosed(c.files)
    {
      LookersSeeWholeRegistry(g, c, a);
    }
  }

  /** The first look alone would not do: without the second, a caller that waited for the lock would fetch again. */
  lemma SecondLookSavesFetch(g: Graph, start: Client, acts: seq<Act>, c: Client, t: Caller)
    requires Consistent(g) && Fresh(g, start) && Acts(g, start, acts) == Some(c)
    requires CanAct(g, c, LookAgain(t)) && (c.callers[t].name, true) in c.log
    ensures !Do(g, c, LookAgain(t)).callers[t].Fetching?
  {
    ClientInvAlways(g, start, acts, c);
  }

  /** A lookup that ended without an answer belongs to a fetch of its name that failed. */
  ghost predicate MissesExplained(c: Client) {
    forall t :: t in c.callers && (c.callers[t].Resolved? || c.callers[t].Finished?) && c.callers[t].result == None ==>
      (c.callers[t].name, false) in c.log
  }

  lemma MissesExplainedKept(g: Graph, c: Client, a: Act)
    requires MissesExplained(c) && CanAct(g, c, a)
    ensures MissesExplained(Do(g, c, a))
  {
    var next := Do(g, c, a);
    assert forall entry :: entry in c.log ==> entry in next.log;
    if a.EndFetch? {
      assert next.log[|c.log|] == (c.callers[a.t].name, a.ok);
    }
  }

  /** With any interleaving a lookup fails only after a failed fetch of its own name; a successful fetch answers. */
  lemma {:induction false} FailsOnlyAfterFailedFetch(g: Graph, start: Client, acts: seq<Act>, c: Client)
    requires Fresh(g, start) && Acts(g, start, acts) == Some(c)
    ensures forall t :: t in c.callers && (c.callers[t].Resolved? || c.callers[t].Finished?) && c.callers[t].result == None ==>
              (c.callers[t].name, false) in c.log
  {
    if acts != [] {
      var mid, last := Acts(g, start, acts[..|acts| - 1]).value, acts[|acts| - 1];
      FailsOnlyAfterFailedFetch(g, start, acts[..|acts| - 1], mid);
      MissesExplainedKept(g, mid, last);
    }
  }

  /** A name in the registry is answered at the first look, with its file, and without the write lock or a fetch. */
  lemma KnownNameIsAnswered(g: Graph, c: Client, t: Caller, name: string)
    requires CanAct(g, c, Look(t)) && c.callers[t].name == name && name in c.names
    ensures var looked := Do(g, c, Look(t));
            && CanAct(g, looked, UnlockRead(t))
            && var done := Do(g, looked, UnlockRead(t));
            done.callers[t] == Finished(name, Some(c.names[name])) && t !in done.readers && done.writer == c.writer && done.log == c.log
  {
  }

  /** The locks are never in a deadlock: as long as some lookup is unfinished, some caller can go on. */
  lemma NoDeadlock(g: Graph, start: Client, acts: seq<Act>, c: Client, t: Caller) returns (a: Act)
    requires Consistent(g) && Fresh(g, start) && Acts(g, start, acts) == Some(c)
    requires t in c.callers && !c.callers[t].Finished?
    ensures CanAct(g, c, a) && !a.Call?
  {
    ClientInvAlways(g, start, acts, c);
    if c.writer.Some? {
      var holder := c.writer.value;
      match c.callers[holder]
      case Writing(_) => a := LookAgain(holder);
      case Resolved(_, _) => a := UnlockWrite(holder);
      case _ => a := if c.half.Some? then IndexPath(holder) else EndFetch(holder, false);
    } else if c.readers != {} {
      var reader :| reader in c.readers;
      a := if c.callers[reader].Reading? then Look(reader) else UnlockRead(reader);
    } else {
      assert t !in c.readers && c.writer != Some(t);
      a := if c.callers[t].Wanting? then LockRead(t) else LockWrite(t);
    }
  }
}
