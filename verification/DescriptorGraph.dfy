/** The descriptor files of a gRPC server and their import graph. */
module DescriptorGraph {
  type Path = string

  /** `symbols` are full names; `services` are the simple names of the services declared in the file. */
  datatype File = File(path: Path, pkg: string, imports: seq<Path>, symbols: set<string>, services: seq<string>)

  type Graph = map<Path, File>

  type Ranks = map<Path, nat>

  /** Every file is stored under its path, imports exist, and every symbol is defined in one file. */
  ghost predicate Consistent(g: Graph) {
    && (forall p :: p in g ==> g[p].path == p)
    && (forall p, i :: p in g && i in g[p].imports ==> i in g)
    && (forall p, q, n :: p in g && q in g && n in g[p].symbols && n in g[q].symbols ==> p == q)
  }

  /** Imports have strictly lower rank, so there are no import cycles. */
  ghost predicate Ranked(g: Graph, rank: Ranks) {
    && rank.Keys == g.Keys
    && forall p, i :: p in g && i in g[p].imports ==> i in g && rank[i] < rank[p]
  }

  /** A file and everything it imports, directly or not. */
  function Closure(g: Graph, rank: Ranks, p: Path): set<Path>
    requires Ranked(g, rank) && p in g
    decreases rank[p], 1, 0
  {
    {p} + ClosureAll(g, rank, g[p].imports, rank[p])
  }

  function ClosureAll(g: Graph, rank: Ranks, paths: seq<Path>, bound: nat): set<Path>
    requires Ranked(g, rank) && forall q :: q in paths ==> q in g && rank[q] < bound
    decreases bound, 0, |paths|
  {
    if paths == [] then {} else Closure(g, rank, paths[0]) + ClosureAll(g, rank, paths[1..], bound)
  }

  ghost predicate ImportClosed(files: map<Path, File>) {
    forall p, i :: p in files && i in files[p].imports ==> i in files
  }

  lemma {:induction false} ClosureAllMembers(g: Graph, rank: Ranks, paths: seq<Path>, bound: nat, x: Path)
    requires Ranked(g, rank) && forall q :: q in paths ==> q in g && rank[q] < bound
    ensures x in ClosureAll(g, rank, paths, bound) <==> exists q :: q in paths && x in Closure(g, rank, q)
    decreases |paths|
  {
    if paths != [] {
      ClosureAllMembers(g, rank, paths[1..], bound, x);
      if x in Closure(g, rank, paths[0]) {
        assert paths[0] in paths;
      }
    }
  }

  /** The closure of a direct import is part of the closure. */
  lemma ImportInClosure(g: Graph, rank: Ranks, p: Path, i: Path)
    requires Ranked(g, rank) && p in g && i in g[p].imports
    ensures Closure(g, rank, i) <= Closure(g, rank, p)
  {
    forall x | x in Closure(g, rank, i)
      ensures x in Closure(g, rank, p)
    {
      ClosureAllMembers(g, rank, g[p].imports, rank[p], x);
    }
  }

  /** What lies in a closure is a file, brings its own closure along, and ranks lower than the file it belongs to. */
  lemma {:induction false} ClosureMember(g: Graph, rank: Ranks, p: Path, x: Path)
    requires Ranked(g, rank) && p in g && x in Closure(g, rank, p)
    ensures x in g && Closure(g, rank, x) <= Closure(g, rank, p)
    ensures x == p || rank[x] < rank[p]
    decreases rank[p]
  {
    if x != p {
      ClosureAllMembers(g, rank, g[p].imports, rank[p], x);
      var i :| i in g[p].imports && x in Closure(g, rank, i);
      ClosureMember(g, rank, i, x);
      ImportInClosure(g, rank, p, i);
    }
  }

  /** What an import brings in ranks below the importing file; in particular it is not that file. */
  lemma ImportsRankBelow(g: Graph, rank: Ranks, p: Path, i: Path)
    requires Ranked(g, rank) && p in g && i in g[p].imports
    ensures Closure(g, rank, i) <= Closure(g, rank, p) - {p}
  {
    ImportInClosure(g, rank, p, i);
    if p in Closure(g, rank, i) {
      ClosureMember(g, rank, i, p);
    }
  }

  /** An import-closed set of the graph's files that has a file has its closure. */
  lemma {:induction false} ClosedHoldsClosure(g: Graph, rank: Ranks, files: map<Path, File>, p: Path)
    requires Ranked(g, rank) && ImportClosed(files) && p in files
    requires forall q :: q in files ==> q in g && files[q] == g[q]
    ensures Closure(g, rank, p) <= files.Keys
    decreases rank[p]
  {
    forall x | x in Closure(g, rank, p)
      ensures x in files
    {
      if x != p {
        ClosureAllMembers(g, rank, g[p].imports, rank[p], x);
        var i :| i in g[p].imports && x in Closure(g, rank, i);
        ClosedHoldsClosure(g, rank, files, i);
      }
    }
  }
}
