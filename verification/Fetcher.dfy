/**
 The on-demand descriptor resolver: registering a file asks the resolver for each
 of its imports, which may fetch and register further files.
 */
module Fetcher {
  import opened Common
  import opened DescriptorGraph

  /** A file of a response as it came off the wire. */
  datatype RawFile = Garbled | Encoded(file: File)

  datatype FetchError = StreamError | BadFile | ImportFailed | Collision | NotFound

  class FileFetcher {
    /** What the server has, which the resolver only sees through responses. */
    const g: Graph
    ghost const rank: Ranks
    /** On a steady stream no request fails and no file arrives garbled. */
    const steady: bool
    /** protoregistry.Files: an index by path and an index by symbol. */
    var files: map<Path, File>
    var names: map<string, Path>

    constructor (g: Graph, ghost rank: Ranks, steady: bool, files: map<Path, File>, names: map<string, Path>)
      requires Consistent(g) && Ranked(g, rank) && IndexesAgree(files, names)
      requires ImportClosed(files) && forall p :: p in files ==> p in g && files[p] == g[p]
      ensures Valid() && this.g == g && this.rank == rank && this.files == files && this.names == names
      ensures this.steady == steady
    {
      this.steady := steady;
      this.g, this.rank, this.files, this.names := g, rank, files, names;
    }

    /** The registry holds the server's own files, is import-closed, and its two indexes agree. */
    ghost predicate Valid()
      reads this
    {
      && Consistent(g) && Ranked(g, rank)
      && (forall p :: p in files ==> p in g && files[p] == g[p])
      && ImportClosed(files)
      && IndexesAgree(files, names)
    }

    ghost function Rank(p: Path): nat {
      if p in rank then rank[p] + 1 else 0
    }

    /** A response to a request for `top`: `top` itself and any of its imports, in any order. */
    ghost predicate Answers(top: Path, response: seq<RawFile>)
      requires Ranked(g, rank)
    {
      && top in g
      && (forall raw :: raw in response && raw.Encoded? ==>
            raw.file.path in Closure(g, rank, top) && raw.file.path in g && raw.file == g[raw.file.path])
      && (Encoded(g[top]) in response || Garbled in response)
    }

    /** One request on the reflection stream; it may fail, and what it answers may be cut down or reordered. */
    method RequestFile(path: Path) returns (response: Option<seq<RawFile>>)
      requires Valid()
      ensures response.Some? ==> path in g && Answers(path, response.value)
      ensures steady && path in g ==> response.Some? && Garbled !in response.value
    {
      response := None;
      var answered := *;
      if path in g {
        if steady || answered {
          response := Some([Encoded(g[path])]);
        }
      }
    }

    /** The server has a file that defines the name. */
    ghost predicate Defined(name: string) {
      exists p :: p in g && name in g[p].symbols
    }

    method RequestSymbol(name: string) returns (response: Option<seq<RawFile>>, ghost top: Path)
      requires Valid()
      ensures response.Some? ==> Answers(top, response.value) && name in g[top].symbols
      ensures steady && Defined(name) ==> response.Some? && Garbled !in response.value
    {
      response, top := None, "";
      var answered := *;
      var owners := set p | p in g && name in g[p].symbols;
      assert Defined(name) ==> owners != {} by {
        if Defined(name) {
          var p :| p in g && name in g[p].symbols;
          assert p in owners;
        }
      }
      if owners != {} {
        if steady || answered {
          var p :| p in owners;
          response, top := Some([Encoded(g[p])]), p;
        }
      }
    }

    method FindDescriptorByName(name: string) returns (r: Result<Path, FetchError>, ghost top: Path)
      requires Valid()
      modifies this
      ensures Valid() && Extends(old(files), files)
      ensures r.Ok? ==> r.value in g && name in g[r.value].symbols
      ensures r.Ok? ==> files.Keys == old(files).Keys + Closure(g, rank, r.value)
      ensures old(name in names) ==> r == Ok(old(names)[name]) && files == old(files)
      ensures steady && Defined(name) ==> r.Ok?
      ensures files != old(files) ==> top in g && name in g[top].symbols && files.Keys <= old(files).Keys + Closure(g, rank, top)
    {
      top := "";
      if name in names {
        ClosedHoldsClosure(g, rank, files, names[name]);
        return Ok(names[name]), top;
      }
      var response;
      response, top := RequestSymbol(name);
      if response == None {
        return Err(StreamError), top;
      }
      var err := RegisterFileResponse(response.value, top);
      if err.Some? {
        return Err(err.value), top;
      }
      ClosedHoldsClosure(g, rank, files, top);
      r := Ok(names[name]);
    }

    method FindFileByPath(path: Path) returns (r: Result<File, FetchError>)
      requires Valid()
      modifies this
      ensures Valid() && Extends(old(files), files)
      ensures path !in g ==> r.Err? && files == old(files)
      ensures path in g ==> files.Keys <= old(files).Keys + Closure(g, rank, path)
      ensures r.Ok? ==> path in g && path in files && r.value == g[path]
      ensures r.Ok? ==> files.Keys == old(files).Keys + Closure(g, rank, path)
      ensures r != Err(Collision) && r != Err(NotFound)
      ensures old(path in files) ==> r == Ok(old(files)[path]) && files == old(files)
      ensures steady && path in g ==> r.Ok?
      decreases Rank(path), 3, 0
    {
      if path in files {
        ClosedHoldsClosure(g, rank, files, path);
        return Ok(files[path]);
      }
      r := FetchAndIncludeFile(path);
    }

    method FetchAndIncludeFile(path: Path) returns (r: Result<File, FetchError>)
      requires Valid()
      modifies this
      ensures Valid() && Extends(old(files), files)
      ensures path !in g ==> r.Err? && files == old(files)
      ensures path in g ==> files.Keys <= old(files).Keys + Closure(g, rank, path)
      ensures r.Ok? ==> path in g && path in files && r.value == g[path]
      ensures r.Ok? ==> files.Keys == old(files).Keys + Closure(g, rank, path)
      ensures r != Err(Collision) && r != Err(NotFound)
      ensures steady && path in g ==> r.Ok?
      decreases Rank(path), 2, 0
    {
      var response := RequestFile(path);
      if response == None {
        return Err(StreamError);
      }
      var err := RegisterFileResponse(response.value, path);
      if err.Some? {
        return Err(err.value);
      }
      ClosedHoldsClosure(g, rank, files, path);
      if path !in files {
        return Err(NotFound);
      }
      r := Ok(files[path]);
    }

    /** Registers what is not registered yet; `top` is the file the response was asked for. */
    method RegisterFileResponse(response: seq<RawFile>, ghost top: Path) returns (err: Option<FetchError>)
      requires Valid() && Answers(top, response)
      modifies this
      ensures Valid() && Extends(old(files), files)
      ensures files.Keys <= old(files).Keys + Closure(g, rank, top)
      ensures err == None ==> top in files
      ensures err != Some(Collision) && err != Some(NotFound)
      ensures steady && Garbled !in response ==> err == None
      decreases Rank(top), 1, 0
    {
      for i := 0 to |response|
        invariant Valid() && Extends(old(files), files)
        invariant files.Keys <= old(files).Keys + Closure(g, rank, top)
        invariant forall j :: 0 <= j < i ==> response[j].Encoded? && response[j].file.path in files
      {
        if response[i].Garbled? {
          return Some(BadFile);
        }
        var file := response[i].file;
        assert response[i] in response;
        ClosureMember(g, rank, top, file.path);
        if file.path in files {
          continue;
        }
        var ok := NewFile(file);
        if !ok {
          return Some(ImportFailed);
        }
        var failed := RegisterFile(file);
        if failed {
          return Some(Collision);
        }
      }
      return None;
    }

    /** Resolves the imports of a file; whatever that registers, it is not the file itself. */
    method NewFile(file: File) returns (ok: bool)
      requires Valid() && file.path in g && file == g[file.path] && file.path !in files
      modifies this
      ensures Valid() && Extends(old(files), files)
      ensures files.Keys <= old(files).Keys + (Closure(g, rank, file.path) - {file.path})
      ensures ok ==> forall i :: i in file.imports ==> i in files
      ensures steady ==> ok
      decreases Rank(file.path), 0, 0
    {
      ghost var below := Closure(g, rank, file.path) - {file.path};
      for i := 0 to |file.imports|
        invariant Valid() && Extends(old(files), files)
        invariant files.Keys <= old(files).Keys + below
        invariant SetOf(file.imports[..i]) <= files.Keys
      {
        var path := file.imports[i];
        ImportsRankBelow(g, rank, file.path, path);
        var r := FindFileByPath(path);
        if r.Err? {
          return false;
        }
        SetOfNext(file.imports, i);
      }
      assert file.imports[..|file.imports|] == file.imports;
      ok := true;
    }

    /** protoregistry refuses a path or a symbol that is already there. */
    method RegisterFile(file: File) returns (collision: bool)
      requires Valid() && file.path in g && file == g[file.path]
      requires forall i :: i in file.imports ==> i in files
      modifies this
      ensures collision <==> file.path in old(files) || exists n :: n in file.symbols && n in old(names)
      ensures collision ==> files == old(files) && names == old(names)
      ensures !collision ==> files == old(files)[file.path := file]
      ensures Valid()
      ensures file.path !in old(files) ==> !collision
    {
      collision := file.path in files || exists n :: n in file.symbols && n in names;
      if !collision {
        IndexesAfter(files, names, file);
        files := files[file.path := file];
        names := names + map n | n in file.symbols :: file.path;
      }
    }
  }

  lemma IndexesAfter(files: map<Path, File>, names: map<string, Path>, file: File)
    requires IndexesAgree(files, names) && file.path !in files
    requires forall n :: n in file.symbols ==> n !in names
    ensures IndexesAgree(files[file.path := file], names + map n | n in file.symbols :: file.path)
  {
  }

  ghost predicate IndexesAgree(files: map<Path, File>, names: map<string, Path>) {
    && (forall n :: n in names ==> names[n] in files && n in files[names[n]].symbols)
    && (forall p, n :: p in files && n in files[p].symbols ==> n in names && names[n] == p)
  }

  /** Nothing registered is ever replaced. */
  ghost predicate Extends(before: map<Path, File>, after: map<Path, File>) {
    forall p :: p in before ==> p in after && after[p] == before[p]
  }

  /**
   Whatever a file refers to is defined in a file of its closure, so once its
   imports are registered every reference is answered from the registry.
   */
  lemma ReferencesAreLocal(g: Graph, rank: Ranks, files: map<Path, File>, names: map<string, Path>, file: File, n: string, p: Path)
    requires Ranked(g, rank) && IndexesAgree(files, names) && ImportClosed(files)
    requires forall q :: q in files ==> q in g && files[q] == g[q]
    requires file.path in g && file == g[file.path] && forall i :: i in file.imports ==> i in files
    requires p in Closure(g, rank, file.path) && p in g && n in g[p].symbols && n !in file.symbols
    ensures n in names && names[n] == p
  {
    ClosureAllMembers(g, rank, file.imports, rank[file.path], p);
    var i :| i in file.imports && p in Closure(g, rank, i);
    ClosedHoldsClosure(g, rank, files, i);
  }
}
