/** FetchServices: collecting the descriptor files of every service a server lists. */
module ServiceDiscovery {
  import opened Common
  import opened Text
  import opened DescriptorGraph
  import opened Fetcher

  datatype ServiceDescriptor = ServiceDescriptor(name: string, path: Path)

  datatype DiscoveryError = ListFailed | StreamFailed | Undecodable | BadFileSet | UnknownService | NotAService

  const REFLECTION_PREFIX := "grpc.reflection"

  /** The listed services that are not the reflection service itself, in listed order. */
  function Exposed(listed: seq<string>): seq<string> {
    if listed == [] then []
    else
      var last := listed[|listed| - 1];
      Exposed(listed[..|listed| - 1]) + if HasPrefix(last, REFLECTION_PREFIX) then [] else [last]
  }

  lemma ExposedNext(listed: seq<string>, i: nat)
    requires i < |listed|
    ensures Exposed(listed[..i + 1]) ==
      Exposed(listed[..i]) + if HasPrefix(listed[i], REFLECTION_PREFIX) then [] else [listed[i]]
  {
    assert listed[..i + 1][..i] == listed[..i];
  }

  lemma {:induction false} ExposedMember(listed: seq<string>, i: nat)
    requires i < |listed|
    ensures !HasPrefix(listed[i], REFLECTION_PREFIX) ==> listed[i] in Exposed(listed)
  {
    if i < |listed| - 1 {
      ExposedMember(listed[..|listed| - 1], i);
    }
  }

  /** Exposed are exactly the listed names that do not start with grpc.reflection, as often as they are listed and in that order. */
  lemma {:induction false} ExposedIff(listed: seq<string>)
    ensures forall name :: name in Exposed(listed) <==> name in listed && !("grpc.reflection" <= name)
    ensures forall name :: !("grpc.reflection" <= name) ==> multiset(Exposed(listed))[name] == multiset(listed)[name]
    ensures Subsequence(Exposed(listed), listed)
  {
    if listed != [] {
      var init, last := listed[..|listed| - 1], listed[|listed| - 1];
      assert listed == init + [last];
      ExposedIff(init);
      SubsequenceExtend(Exposed(init), init, last);
      assert Exposed(init) + [] == Exposed(init);
    }
  }

  function Paths(ds: seq<File>): seq<Path> {
    seq(|ds|, i requires 0 <= i < |ds| => ds[i].path)
  }

  function ServiceName(file: File, service: string): string {
    file.pkg + "." + service
  }

  /** The name under which a file defines a service: without a package there is no dot. */
  function FullName(file: File, service: string): string {
    if file.pkg == "" then service else file.pkg + "." + service
  }

  predicate IsServiceOf(file: File, name: string) {
    exists service :: service in file.services && name == FullName(file, service)
  }

  /** A file's services are among its symbols, and no full name starts with a dot. */
  ghost predicate ProperNames(g: Graph) {
    && (forall p, service :: p in g && service in g[p].services ==> FullName(g[p], service) in g[p].symbols)
    && (forall p, name :: p in g && name in g[p].symbols ==> !HasPrefix(name, "."))
  }

  ghost predicate DefinedIn(g: Graph, name: string, p: Path) {
    p in g && name in g[p].symbols
  }

  ghost predicate Defined(g: Graph, name: string) {
    exists p :: DefinedIn(g, name, p)
  }

  /** Every name is that of a service the server has. */
  ghost predicate AllServices(g: Graph, names: seq<string>) {
    forall name :: name in names ==> Defined(g, name) && forall p :: DefinedIn(g, name, p) ==> IsServiceOf(g[p], name)
  }

  /** `x` belongs to the definition of one of the services. */
  ghost predicate Needed(g: Graph, rank: Ranks, services: seq<string>, x: Path)
    requires Ranked(g, rank)
  {
    exists name, p :: name in services && DefinedIn(g, name, p) && x in Closure(g, rank, p)
  }

  /** protodesc.NewFiles refuses repeated paths, missing imports and symbols defined twice. */
  predicate GoodFileSet(ds: seq<File>) {
    && (forall i, j :: 0 <= i < j < |ds| ==> ds[i].path != ds[j].path)
    && (forall i, p :: 0 <= i < |ds| && p in ds[i].imports ==> p in Paths(ds))
    && (forall i, j, n :: 0 <= i < j < |ds| && n in ds[i].symbols ==> n !in ds[j].symbols)
  }

  function FilesOf(ds: seq<File>): map<Path, File> {
    if ds == [] then map[] else FilesOf(ds[..|ds| - 1])[ds[|ds| - 1].path := ds[|ds| - 1]]
  }

  lemma {:induction false} FilesOfAt(g: Graph, ds: seq<File>)
    requires Consistent(g) && FromServer(g, ds)
    ensures FilesOf(ds).Keys == SetOf(Paths(ds))
    ensures forall p :: p in FilesOf(ds) ==> p in g && FilesOf(ds)[p] == g[p]
  {
    if ds != [] {
      var init, last := ds[..|ds| - 1], ds[|ds| - 1];
      assert forall i :: 0 <= i < |init| ==> init[i] == ds[i];
      FilesOfAt(g, init);
      assert Paths(ds) == Paths(init) + [last.path];
      assert ds[|ds| - 1].path in g;
    }
  }

  function NamesOf(ds: seq<File>): map<string, Path> {
    if ds == [] then map[]
    else
      var last := ds[|ds| - 1];
      NamesOf(ds[..|ds| - 1]) + map n | n in last.symbols :: last.path
  }

  /** The two indexes of the registry protodesc builds agree, as a resolver that starts from it needs. */
  lemma {:induction false} NamesOfAgree(g: Graph, ds: seq<File>)
    requires Consistent(g) && FromServer(g, ds) && NoDup(Paths(ds))
    ensures IndexesAgree(FilesOf(ds), NamesOf(ds))
  {
    if ds != [] {
      var init, last := ds[..|ds| - 1], ds[|ds| - 1];
      assert forall i :: 0 <= i < |init| ==> init[i] == ds[i] && Paths(init)[i] == Paths(ds)[i];
      NamesOfAgree(g, init);
      FilesOfAt(g, init);
      assert Paths(ds)[|ds| - 1] == last.path && last.path in g && last == g[last.path];
      assert last.path !in FilesOf(init);
      IndexesAfter(FilesOf(init), NamesOf(init), last);
    }
  }

  ghost predicate FromServer(g: Graph, ds: seq<File>) {
    forall i :: 0 <= i < |ds| ==> ds[i].path in g && ds[i] == g[ds[i].path]
  }

  /** The files collected so far are the server's, each once; what has been seen is what they define. */
  ghost predicate Collected(g: Graph, ds: seq<File>, fileSet: set<Path>, seen: set<string>) {
    && FromServer(g, ds)
    && NoDup(Paths(ds)) && SetOf(Paths(ds)) == fileSet
    && (forall name :: name in seen ==>
          exists p, service :: p in fileSet && p in g && service in g[p].services && name == ServiceName(g[p], service))
  }

  /** The paths of the files a response holds. */
  function Decoded(response: seq<RawFile>): set<Path> {
    set raw | raw in response && raw.Encoded? :: raw.file.path
  }

  /** One response taken in, file by file. */
  method Collect(ghost g: Graph, response: seq<RawFile>, ds0: seq<File>, fileSet0: set<Path>, seen0: set<string>)
    returns (ok: bool, ds: seq<File>, fileSet: set<Path>, seen: set<string>)
    requires Consistent(g) && Collected(g, ds0, fileSet0, seen0)
    requires forall raw :: raw in response && raw.Encoded? ==> raw.file.path in g && raw.file == g[raw.file.path]
    ensures ok <==> Garbled !in response
    ensures ok ==> Collected(g, ds, fileSet, seen) && ds0 <= ds
    ensures ok ==> fileSet == fileSet0 + Decoded(response)
  {
    ds, fileSet, seen := ds0, fileSet0, seen0;
    for i := 0 to |response|
      invariant Collected(g, ds, fileSet, seen) && ds0 <= ds
      invariant Garbled !in response[..i]
      invariant fileSet == fileSet0 + Decoded(response[..i])
    {
      assert response[..i + 1] == response[..i] + [response[i]];
      if response[i].Garbled? {
        assert response[i] in response;
        return false, ds, fileSet, seen;
      }
      var file := response[i].file;
      assert response[i] in response;
      if file.path in fileSet {
        assert Decoded(response[..i + 1])
            == Decoded(response[..i]) + {file.path};
        continue;
      }
      CollectOne(g, ds, fileSet, seen, file);
      fileSet := fileSet + {file.path};
      for j := 0 to |file.services|
        invariant seen <= (set s | s in file.services :: ServiceName(file, s)) + seen
        invariant Collected(g, ds + [file], fileSet, seen)
      {
        assert file.services[j] in file.services;
        seen := seen + {ServiceName(file, file.services[j])};
      }
      ds := ds + [file];
      assert Decoded(response[..i + 1])
          == Decoded(response[..i]) + {file.path};
    }
    assert response[..|response|] == response;
    ok := true;
  }

  lemma CollectOne(g: Graph, ds: seq<File>, fileSet: set<Path>, seen: set<string>, file: File)
    requires Collected(g, ds, fileSet, seen) && file.path in g && file == g[file.path] && file.path !in fileSet
    ensures Collected(g, ds + [file], fileSet + {file.path}, seen)
  {
    assert Paths(ds + [file]) == Paths(ds) + [file.path];
    assert forall i :: 0 <= i < |ds| ==> Paths(ds)[i] in SetOf(Paths(ds));
  }

  /** A set of files that holds the imports of its members, direct or not. */
  ghost predicate ClosedSet(g: Graph, rank: Ranks, paths: set<Path>)
    requires Ranked(g, rank)
  {
    forall x :: x in paths ==> x in g && Closure(g, rank, x) <= paths
  }

  /** Every file that defines one of the services has been collected. */
  ghost predicate Covers(g: Graph, fileSet: set<Path>, services: seq<string>) {
    forall name, p :: name in services && DefinedIn(g, name, p) ==> p in fileSet
  }

  ghost predicate AllNeeded(g: Graph, rank: Ranks, services: seq<string>, fileSet: set<Path>)
    requires Ranked(g, rank)
  {
    forall x :: x in fileSet ==> Needed(g, rank, services, x)
  }

  /** A service seen in a collected file needs no request: its defining file is collected already. */
  lemma SeenIsCovered(g: Graph, ds: seq<File>, fileSet: set<Path>, seen: set<string>, name: string, p: Path)
    requires Consistent(g) && ProperNames(g) && Collected(g, ds, fileSet, seen)
    requires name in seen && DefinedIn(g, name, p)
    ensures p in fileSet
  {
    var q, service :| q in fileSet && q in g && service in g[q].services && name == ServiceName(g[q], service);
    if g[q].pkg == "" {
      assert HasPrefix(name, ".");
    }
    assert FullName(g[q], service) in g[q].symbols;
  }

  /** One more response keeps the collected set closed under imports. */
  lemma ResponseKeepsClosed(g: Graph, rank: Ranks, before: set<Path>, added: set<Path>, top: Path)
    requires Ranked(g, rank) && ClosedSet(g, rank, before)
    requires top in g && added <= Closure(g, rank, top) <= before + added
    ensures ClosedSet(g, rank, before + added)
  {
    forall x | x in added
      ensures x in g && Closure(g, rank, x) <= before + added
    {
      ClosureMember(g, rank, top, x);
    }
  }

  lemma MoreServicesNeedMore(g: Graph, rank: Ranks, services: seq<string>, name: string, fileSet: set<Path>)
    requires Ranked(g, rank) && AllNeeded(g, rank, services, fileSet)
    ensures AllNeeded(g, rank, services + [name], fileSet)
  {
    forall x | x in fileSet
      ensures Needed(g, rank, services + [name], x)
    {
      var other, p :| other in services && DefinedIn(g, other, p) && x in Closure(g, rank, p);
      assert other in services + [name];
    }
  }

  /** Where FetchServices stands after looking at `services`. */
  ghost predicate Progress(g: Graph, rank: Ranks, ds: seq<File>, fileSet: set<Path>, seen: set<string>, services: seq<string>) {
    && Consistent(g) && Ranked(g, rank) && ProperNames(g)
    && Collected(g, ds, fileSet, seen)
    && ClosedSet(g, rank, fileSet)
    && Covers(g, fileSet, services)
    && AllNeeded(g, rank, services, fileSet)
  }

  lemma NothingCollected(g: Graph, rank: Ranks)
    requires Consistent(g) && Ranked(g, rank) && ProperNames(g)
    ensures Progress(g, rank, [], {}, {}, [])
  {
  }

  lemma SkippingSeenLosesNothing(g: Graph, rank: Ranks, ds: seq<File>, fileSet: set<Path>, seen: set<string>,
      services: seq<string>, name: string)
    requires Progress(g, rank, ds, fileSet, seen, services) && name in seen
    ensures Progress(g, rank, ds, fileSet, seen, services + [name])
  {
    MoreServicesNeedMore(g, rank, services, name, fileSet);
    SeenCovers(g, ds, fileSet, seen, services, name);
  }

  lemma SeenCovers(g: Graph, ds: seq<File>, fileSet: set<Path>, seen: set<string>, services: seq<string>, name: string)
    requires Consistent(g) && ProperNames(g) && Collected(g, ds, fileSet, seen)
    requires Covers(g, fileSet, services) && name in seen
    ensures Covers(g, fileSet, services + [name])
  {
    forall p | DefinedIn(g, name, p)
      ensures p in fileSet
    {
      SeenIsCovered(g, ds, fileSet, seen, name, p);
    }
  }

  /** Taking in the answer for `name`, which `top` defines. */
  lemma ResponseIsProgress(g: Graph, rank: Ranks, ds0: seq<File>, fileSet0: set<Path>, seen0: set<string>,
      services: seq<string>, name: string, top: Path, added: set<Path>, ds: seq<File>, seen: set<string>)
    requires Progress(g, rank, ds0, fileSet0, seen0, services)
    requires DefinedIn(g, name, top) && added <= Closure(g, rank, top) <= fileSet0 + added
    requires Collected(g, ds, fileSet0 + added, seen)
    ensures Progress(g, rank, ds, fileSet0 + added, seen, services + [name])
  {
    hide Collected, ClosedSet, Covers, AllNeeded, ProperNames;
    ResponseKeepsClosed(g, rank, fileSet0, added, top);
    ResponseCovers(g, rank, services, name, top, fileSet0, added);
    ResponseIsNeeded(g, rank, services, name, top, fileSet0, added);
  }

  lemma ResponseCovers(g: Graph, rank: Ranks, services: seq<string>, name: string, top: Path, fileSet0: set<Path>, added: set<Path>)
    requires Consistent(g) && Ranked(g, rank) && Covers(g, fileSet0, services)
    requires DefinedIn(g, name, top) && Closure(g, rank, top) <= fileSet0 + added
    ensures Covers(g, fileSet0 + added, services + [name])
  {
    assert top in Closure(g, rank, top);
  }

  lemma ResponseIsNeeded(g: Graph, rank: Ranks, services: seq<string>, name: string, top: Path, fileSet0: set<Path>, added: set<Path>)
    requires Ranked(g, rank) && AllNeeded(g, rank, services, fileSet0)
    requires DefinedIn(g, name, top) && added <= Closure(g, rank, top)
    ensures AllNeeded(g, rank, services + [name], fileSet0 + added)
  {
    MoreServicesNeedMore(g, rank, services, name, fileSet0);
    assert name in services + [name];
    forall x | x in added
      ensures Needed(g, rank, services + [name], x)
    {
      assert DefinedIn(g, name, top) && x in Closure(g, rank, top);
    }
  }

  /** What is collected in the end is exactly what the services need. */
  lemma ExactlyNeeded(g: Graph, rank: Ranks, services: seq<string>, fileSet: set<Path>)
    requires Ranked(g, rank) && ClosedSet(g, rank, fileSet)
    requires Covers(g, fileSet, services) && AllNeeded(g, rank, services, fileSet)
    ensures forall x :: x in fileSet <==> Needed(g, rank, services, x)
  {
    forall x | Needed(g, rank, services, x)
      ensures x in fileSet
    {
      var name, p :| name in services && DefinedIn(g, name, p) && x in Closure(g, rank, p);
    }
  }

  lemma CollectedDefineDistinct(g: Graph, ds: seq<File>)
    requires Consistent(g) && FromServer(g, ds) && NoDup(Paths(ds))
    ensures forall i, j :: 0 <= i < j < |ds| ==> ds[i].path != ds[j].path
    ensures forall i, j, n :: 0 <= i < j < |ds| && n in ds[i].symbols ==> n !in ds[j].symbols
  {
    forall i, j | 0 <= i < j < |ds|
      ensures ds[i].path != ds[j].path
    {
      assert Paths(ds)[i] != Paths(ds)[j];
    }
  }

  /** The file list FetchServices hands to protodesc is always accepted. */
  lemma CollectedIsGood(g: Graph, rank: Ranks, ds: seq<File>, fileSet: set<Path>, seen: set<string>)
    requires Consistent(g) && Ranked(g, rank) && Collected(g, ds, fileSet, seen) && ClosedSet(g, rank, fileSet)
    ensures GoodFileSet(ds)
    ensures FilesOf(ds).Keys == fileSet && ImportClosed(FilesOf(ds))
    ensures forall p :: p in FilesOf(ds) ==> p in g && FilesOf(ds)[p] == g[p]
  {
    FilesOfAt(g, ds);
    CollectedDefineDistinct(g, ds);
    forall p, i | p in fileSet && p in g && i in g[p].imports
      ensures i in Paths(ds)
    {
      ImportInClosure(g, rank, p, i);
      assert i in Closure(g, rank, i);
      assert i in SetOf(Paths(ds));
    }
    forall i, p | 0 <= i < |ds| && p in ds[i].imports
      ensures p in Paths(ds)
    {
      assert Paths(ds)[i] in SetOf(Paths(ds));
    }
  }

  /** The registry has the server's definition of every service, all they import, and nothing else. */
  ghost predicate Holds(g: Graph, rank: Ranks, files: map<Path, File>, names: map<string, Path>, services: seq<string>)
    requires Ranked(g, rank)
  {
    && ImportClosed(files) && IndexesAgree(files, names)
    && (forall p :: p in files ==> p in g && files[p] == g[p])
    && (forall x :: x in files <==> Needed(g, rank, services, x))
  }

  lemma CollectedHoldsExactly(g: Graph, rank: Ranks, ds: seq<File>, fileSet: set<Path>, seen: set<string>, services: seq<string>)
    requires Progress(g, rank, ds, fileSet, seen, services)
    ensures GoodFileSet(ds) && NoDup(Paths(ds)) && SetOf(Paths(ds)) == FilesOf(ds).Keys
    ensures Holds(g, rank, FilesOf(ds), NamesOf(ds), services)
  {
    CollectedIsGood(g, rank, ds, fileSet, seen);
    NamesOfAgree(g, ds);
    ExactlyNeeded(g, rank, services, fileSet);
  }

  lemma ClosureIsInGraph(g: Graph, rank: Ranks, p: Path)
    requires Ranked(g, rank) && p in g
    ensures Closure(g, rank, p) <= g.Keys
  {
    forall x | x in Closure(g, rank, p)
      ensures x in g
    {
      ClosureMember(g, rank, p, x);
    }
  }

  /** The files of some paths, in any order. */
  method SendAll(g: Graph, paths: set<Path>) returns (response: seq<RawFile>)
    requires Consistent(g) && paths <= g.Keys
    ensures Garbled !in response && Decoded(response) == paths
    ensures forall raw :: raw in response && raw.Encoded? ==> raw.file.path in paths && raw.file == g[raw.file.path]
  {
    response := [];
    var left := paths;
    while left != {}
      invariant left <= paths && Garbled !in response && Decoded(response) == paths - left
      invariant forall raw :: raw in response && raw.Encoded? ==> raw.file.path in paths && raw.file == g[raw.file.path]
    {
      var p :| p in left;
      DecodedNext(response, g[p]);
      response, left := response + [Encoded(g[p])], left - {p};
    }
  }

  lemma DecodedNext(response: seq<RawFile>, file: File)
    ensures Decoded(response + [Encoded(file)]) == Decoded(response) + {file.path}
  {
    var longer := response + [Encoded(file)];
    assert forall raw :: raw in longer <==> raw in response || raw == Encoded(file);
    assert Encoded(file) in longer;
  }

  /** What a service needs is in both indexes of the registry. */
  lemma NeededIsIndexed(g: Graph, rank: Ranks, files: map<Path, File>, names: map<string, Path>, services: seq<string>, name: string, p: Path)
    requires Ranked(g, rank) && Holds(g, rank, files, names, services) && name in services && DefinedIn(g, name, p)
    ensures p in files && name in names
  {
    hide Closure, Ranked, ImportClosed;
    InOwnClosure(g, rank, p);
    assert Needed(g, rank, services, p);
    assert p in files && name in files[p].symbols;
  }

  lemma InOwnClosure(g: Graph, rank: Ranks, p: Path)
    requires Ranked(g, rank) && p in g
    ensures p in Closure(g, rank, p)
  {
  }

  class ServiceLister {
    const g: Graph
    const rank: Ranks
    /** On a steady stream every request for a defined name is answered, and no file arrives garbled. */
    const steady: bool
    /** Files already sent on the reflection stream. */
    var sent: set<Path>
    /** The registry later lookups use. */
    var files: map<Path, File>
    var names: map<string, Path>

    constructor (g: Graph, rank: Ranks, steady: bool)
      requires Consistent(g) && Ranked(g, rank) && ProperNames(g)
      ensures this.g == g && this.rank == rank && this.steady == steady && Valid() && sent == {} && files == map[] && names == map[]
    {
      this.g, this.rank, this.steady := g, rank, steady;
      sent, files, names := {}, map[], map[];
    }

    ghost predicate Valid()
      reads this
    {
      Consistent(g) && Ranked(g, rank) && ProperNames(g)
    }

    /**
     What the server answers for a symbol defined in `top`: that file again, and of
     its imports at least those not sent on this stream before.
     */
    ghost predicate AnswersFresh(top: Path, response: seq<RawFile>, before: set<Path>)
      requires Ranked(g, rank)
    {
      && top in g
      && (forall raw :: raw in response && raw.Encoded? ==>
            raw.file.path in Closure(g, rank, top) && raw.file.path in g && raw.file == g[raw.file.path])
      && (Garbled !in response ==> Closure(g, rank, top) <= before + Decoded(response))
    }

    /** One request on the stream; it may fail, be cut short by a garbled file, or be answered. */
    method RequestSymbol(name: string) returns (response: Option<seq<RawFile>>, ghost top: Path)
      requires Valid()
      modifies this`sent
      ensures response.Some? ==> DefinedIn(g, name, top) && AnswersFresh(top, response.value, old(sent))
      ensures response.Some? && Garbled !in response.value ==>
                sent == old(sent) + Decoded(response.value)
      ensures steady && Defined(g, name) ==> response.Some? && Garbled !in response.value
    {
      response, top := None, "";
      var owners := set p | p in g && name in g[p].symbols;
      var kind := *;
      if Defined(g, name) {
        var p :| DefinedIn(g, name, p);
        assert p in owners;
      }
      if owners != {} {
        var p :| p in owners;
        ClosureIsInGraph(g, rank, p);
        var files := SendAll(g, Closure(g, rank, p));
        if steady || kind == 1 {
          response, top, sent := Some(files), p, sent + Decoded(files);
        } else if kind == 2 {
          response, top := Some([Garbled]), p;
        }
      }
    }

    ghost predicate HoldsExactly(services: seq<string>)
      reads this
      requires Ranked(g, rank)
    {
      Holds(g, rank, files, names, services)
    }

    /** The descriptor of a listed service, found in the file that defines it. */
    ghost predicate Describes(d: ServiceDescriptor, name: string) {
      d.name == name && DefinedIn(g, name, d.path) && IsServiceOf(g[d.path], name)
    }

    /** Asks for the files of one service and takes in the answer. */
    method CollectService(name: string, ghost services: seq<string>, ds0: seq<File>, fileSet0: set<Path>, seen0: set<string>)
      returns (err: Option<DiscoveryError>, ds: seq<File>, fileSet: set<Path>, seen: set<string>)
      requires Progress(g, rank, ds0, fileSet0, seen0, services) && sent == fileSet0
      modifies this`sent
      ensures err.Some? ==> err.value.StreamFailed? || err.value.Undecodable?
      ensures err == None ==> Progress(g, rank, ds, fileSet, seen, services + [name]) && sent == fileSet
      ensures steady && Defined(g, name) ==> err == None
    {
      err, ds, fileSet, seen := Some(StreamFailed), ds0, fileSet0, seen0;
      var response, top := RequestSymbol(name);
      if response.Some? {
        var ok;
        ok, ds, fileSet, seen := Collect(g, response.value, ds, fileSet, seen);
        if ok {
          err := None;
          ResponseIsProgress(g, rank, ds0, fileSet0, seen0, services, name, top, Decoded(response.value), ds, seen);
        } else {
          err := Some(Undecodable);
        }
      }
    }

    /** The loop over the listed services. */
    method CollectAll(listed: seq<string>)
      returns (err: Option<DiscoveryError>, ds: seq<File>, services: seq<string>, ghost fileSet: set<Path>, ghost seen: set<string>)
      requires Valid()
      modifies this`sent
      ensures err == None ==> services == Exposed(listed) && Progress(g, rank, ds, fileSet, seen, services)
      ensures steady && (forall name :: name in Exposed(listed) ==> Defined(g, name)) ==> err == None
      ensures err.Some? ==> err.value.StreamFailed? || err.value.Undecodable?
    {
      hide Progress;
      var collected, servicesSeen := {}, {};
      ds, services, err := [], [], None;
      sent := {};
      NothingCollected(g, rank);
      var i := 0;
      while i < |listed| && err == None
        invariant 0 <= i <= |listed|
        invariant err == None ==> services == Exposed(listed[..i]) && sent == collected
        invariant err == None ==> Progress(g, rank, ds, collected, servicesSeen, services)
        invariant err.Some? ==> err.value.StreamFailed? || err.value.Undecodable?
        invariant steady && (forall name :: name in Exposed(listed) ==> Defined(g, name)) ==> err == None
      {
        ExposedNext(listed, i);
        ExposedMember(listed, i);
        var name := listed[i];
        if !HasPrefix(name, REFLECTION_PREFIX) {
          if name in servicesSeen {
            SkippingSeenLosesNothing(g, rank, ds, collected, servicesSeen, services, name);
          } else {
            err, ds, collected, servicesSeen := CollectService(name, services, ds, collected, servicesSeen);
          }
          services := services + [name];
        }
        i := i + 1;
      }
      assert listed[..|listed|] == listed;
      fileSet, seen := collected, servicesSeen;
    }

    /** Looks one service up in the finished registry. */
    method Describe(name: string, ghost services: seq<string>) returns (r: Result<ServiceDescriptor, DiscoveryError>)
      requires Valid() && HoldsExactly(services) && name in services
      ensures r.Ok? ==> Describes(r.value, name)
      ensures r.Err? ==> r.error.UnknownService? || r.error.NotAService?
      ensures r == Err(UnknownService) ==> forall p :: !DefinedIn(g, name, p)
      ensures r == Err(NotAService) ==> exists p :: DefinedIn(g, name, p) && !IsServiceOf(g[p], name)
    {
      if name !in names {
        NotIndexedIsUndefined(name, services);
        r := Err(UnknownService);
      } else if !IsServiceOf(files[names[name]], name) {
        assert DefinedIn(g, name, names[name]);
        r := Err(NotAService);
      } else {
        r := Ok(ServiceDescriptor(name, names[name]));
      }
    }

    method DescribeAll(services: seq<string>) returns (r: Result<seq<ServiceDescriptor>, DiscoveryError>)
      requires Valid() && HoldsExactly(services)
      ensures r.Ok? ==> |r.value| == |services| && forall k :: 0 <= k < |r.value| ==> Describes(r.value[k], services[k])
      ensures r.Err? ==> r.error.UnknownService? || r.error.NotAService?
      ensures r == Err(UnknownService) ==> exists name :: name in services && forall p :: !DefinedIn(g, name, p)
      ensures r == Err(NotAService) ==>
                exists name, p :: name in services && DefinedIn(g, name, p) && !IsServiceOf(g[p], name)
    {
      hide Holds;
      var described := [];
      for i := 0 to |services|
        invariant |described| == i
        invariant forall k :: 0 <= k < i ==> Describes(described[k], services[k])
      {
        assert services[i] in services;
        var d := Describe(services[i], services);
        if d.Err? {
          return Err(d.error);
        }
        described := described + [d.value];
      }
      r := Ok(described);
    }

    lemma NotIndexedIsUndefined(name: string, services: seq<string>)
      requires Valid() && HoldsExactly(services) && name in services && name !in names
      ensures forall p :: !DefinedIn(g, name, p)
    {
      hide Holds, IndexesAgree;
      forall p | DefinedIn(g, name, p)
        ensures false
      {
        NeededIsIndexed(g, rank, files, names, services, name, p);
      }
    }

    lemma DescribedAreServices(services: seq<string>, described: seq<ServiceDescriptor>)
      requires Valid() && |described| == |services|
      requires forall k :: 0 <= k < |described| ==> Describes(described[k], services[k])
      ensures AllServices(g, services)
    {
      forall name | name in services
        ensures Defined(g, name) && forall p :: DefinedIn(g, name, p) ==> IsServiceOf(g[p], name)
      {
        var k :| 0 <= k < |services| && services[k] == name;
        assert Describes(described[k], services[k]);
      }
    }

    /** `listing` is the server's answer to listServices. */
    method FetchServices(listing: Option<seq<string>>)
      returns (r: Result<seq<ServiceDescriptor>, DiscoveryError>, ghost fileList: seq<Path>)
      requires Valid()
      modifies this
      ensures listing == None <==> r == Err(ListFailed)
      ensures r.Ok? ==> |r.value| == |Exposed(listing.value)|
      ensures r.Ok? ==> forall k :: 0 <= k < |r.value| ==> Describes(r.value[k], Exposed(listing.value)[k])
      ensures r.Ok? || r == Err(UnknownService) || r == Err(NotAService) ==>
                HoldsExactly(Exposed(listing.value)) && NoDup(fileList) && SetOf(fileList) == files.Keys
      ensures r.Err? && (r.error.ListFailed? || r.error.StreamFailed? || r.error.Undecodable?) ==>
                files == old(files) && names == old(names)
      ensures r != Err(BadFileSet)
      ensures r.Ok? ==> AllServices(g, Exposed(listing.value))
      ensures steady && listing.Some? && AllServices(g, Exposed(listing.value)) ==> r.Ok?
      ensures r == Err(UnknownService) ==> exists name :: name in Exposed(listing.value) && forall p :: !DefinedIn(g, name, p)
      ensures r == Err(NotAService) ==>
                exists name, p :: name in Exposed(listing.value) && DefinedIn(g, name, p) && !IsServiceOf(g[p], name)
    {
      hide Progress, GoodFileSet, Holds;
      fileList := [];
      if listing == None {
        return Err(ListFailed), fileList;
      }
      var err, ds, services, collected, seen := CollectAll(listing.value);
      if err.Some? {
        return Err(err.value), fileList;
      }
      CollectedHoldsExactly(g, rank, ds, collected, seen, services);
      if !GoodFileSet(ds) {
        return Err(BadFileSet), fileList;
      }
      files, names := FilesOf(ds), NamesOf(ds);
      fileList := Paths(ds);
      r := DescribeAll(services);
      if r.Ok? {
        DescribedAreServices(services, r.value);
      }
    }
  }
}
