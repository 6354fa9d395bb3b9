/**
 The module loader: a depth-first walk over the import graph that either lists every
 module after the ones it imports or reports an import cycle.
 */
module ModuleLoader {
  import opened Common

  type Path = string

  /** A source file: whether it lexes and parses, whether an importing module accepts
      its top level, whether the C file it needs is there, and where each of its import
      statements leads. */
  datatype Source = Source(parses: bool, importable: bool, sibling: bool, imports: seq<Option<Path>>)

  type Files = map<Path, Source>

  datatype Module = Module(path: Path, id: string, deps: seq<string>, isEntry: bool)

  datatype Failure =
    | Cycle(chain: seq<Path>)
    | Unreadable(p: Path)
    | Malformed(p: Path)
    | NotImportable(p: Path)
    | NoSibling(p: Path)
    | Unresolved(p: Path)

  // ---- the graph ----

  predicate Edge(files: Files, a: Path, b: Path) {
    a in files && Some(b) in files[a].imports
  }

  /** Each step of `p` is an import. */
  ghost predicate Walk(files: Files, p: seq<Path>) {
    p != [] && forall i {:trigger p[i]} :: 0 < i < |p| ==> Edge(files, p[i - 1], p[i])
  }

  ghost predicate Leads(files: Files, p: seq<Path>, a: Path, b: Path) {
    Walk(files, p) && p[0] == a && p[|p| - 1] == b
  }

  ghost predicate Reaches(files: Files, a: Path, b: Path) { exists p :: Leads(files, p, a, b) }

  /** Some module that `entry` needs, itself included, imports itself in the end. */
  ghost predicate CycleFrom(files: Files, entry: Path) {
    exists x, y :: Reaches(files, entry, x) && Edge(files, x, y) && Reaches(files, y, x)
  }

  /** `chain` goes from `entry` along imports, through distinct modules, until it comes
      back to one of them. */
  ghost predicate Closes(files: Files, entry: Path, chain: seq<Path>) {
    && |chain| >= 2 && Walk(files, chain) && chain[0] == entry
    && (forall i, j :: 0 <= i < j < |chain| - 1 ==> chain[i] != chain[j])
    && chain[|chain| - 1] in chain[..|chain| - 1]
  }

  /** A chain that closes shows a cycle. */
  lemma ClosedCycle(files: Files, entry: Path, chain: seq<Path>)
    requires Closes(files, entry, chain)
    ensures CycleFrom(files, entry)
  {
    hide Edge, Reaches, Walk, Leads;
    var n := |chain| - 1;
    var k :| 0 <= k < |chain[..n]| && chain[..n][k] == chain[n];
    WalkPart(files, chain, 0, n);
    WalkPart(files, chain, k, n);
    LastEdge(files, chain);
    LeadsReaches(files, chain[0..n], entry, chain[n - 1]);
    LeadsReaches(files, chain[k..n], chain[n], chain[n - 1]);
  }

  lemma WalkPart(files: Files, p: seq<Path>, a: nat, b: nat)
    requires Walk(files, p) && a < b <= |p|
    ensures Leads(files, p[a..b], p[a], p[b - 1])
  {
    hide Edge;
    var q := p[a..b];
    forall i | 0 < i < |q| ensures Edge(files, q[i - 1], q[i]) { assert q[i] == p[a + i] && q[i - 1] == p[a + i - 1]; }
  }

  lemma LastEdge(files: Files, p: seq<Path>)
    requires Walk(files, p) && |p| >= 2
    ensures Edge(files, p[|p| - 2], p[|p| - 1])
  {
    assert p[|p| - 1] == p[|p| - 1];
  }

  lemma LeadsReaches(files: Files, p: seq<Path>, a: Path, b: Path)
    requires Leads(files, p, a, b)
    ensures Reaches(files, a, b)
  {
  }

  /** The file is there and may be loaded for its part in this program. */
  predicate Admitted(files: Files, p: Path, isEntry: bool) {
    p in files && files[p].parses && (isEntry || files[p].importable) && files[p].sibling
  }

  predicate Faulty(files: Files, p: Path, isEntry: bool) {
    !Admitted(files, p, isEntry) || None in files[p].imports
  }

  /** Something that `entry` needs cannot be loaded for a reason of its own. */
  ghost predicate FaultFrom(files: Files, entry: Path) {
    exists x :: Reaches(files, entry, x) && Faulty(files, x, x == entry)
  }

  lemma ReachesSelf(files: Files, a: Path)
    ensures Reaches(files, a, a)
  {
    assert Leads(files, [a], a, a);
  }

  lemma ReachesOn(files: Files, a: Path, b: Path, c: Path)
    requires Reaches(files, a, b) && Edge(files, b, c)
    ensures Reaches(files, a, c)
  {
    var p :| Leads(files, p, a, b);
    var q := p + [c];
    forall i | 0 < i < |q| ensures Edge(files, q[i - 1], q[i]) {
      if i < |p| { assert p[i] == q[i]; }
    }
    assert Leads(files, q, a, c);
  }

  lemma WalkOn(files: Files, p: seq<Path>, x: Path)
    requires p != [] ==> Walk(files, p) && Edge(files, p[|p| - 1], x)
    ensures Walk(files, p + [x])
  {
    hide Edge;
    forall i | 0 < i < |p + [x]| ensures Edge(files, (p + [x])[i - 1], (p + [x])[i]) {
      if i < |p| { assert p[i] == (p + [x])[i]; }
    }
  }

  // ---- the list of modules ----

  ghost predicate Listed(order: seq<Module>, p: Path) { exists i :: 0 <= i < |order| && order[i].path == p }

  /** No module twice, each after everything it imports, with the ids of its imports. */
  ghost predicate Sorted(files: Files, id: Path -> string, order: seq<Module>) {
    && (forall i, j :: 0 <= i < j < |order| ==> order[i].path != order[j].path)
    && (forall i :: 0 <= i < |order| ==> order[i].path in files && order[i].id == id(order[i].path))
    && (forall i, q :: 0 <= i < |order| && Edge(files, order[i].path, q) ==> Listed(order[..i], q))
    && (forall i :: 0 <= i < |order| ==> DepsOf(files, id, order[i].path, order[i].deps))
  }

  /** `deps` names each import once, by its id. */
  ghost predicate DepsOf(files: Files, id: Path -> string, p: Path, deps: seq<string>) {
    && (forall i, j :: 0 <= i < j < |deps| ==> deps[i] != deps[j])
    && (forall q :: Edge(files, p, q) ==> id(q) in deps)
    && (forall d :: d in deps ==> exists q :: Edge(files, p, q) && id(q) == d)
  }

  lemma ImportBefore(files: Files, id: Path -> string, order: seq<Module>, i: nat, q: Path) returns (a: nat)
    requires Sorted(files, id, order) && i < |order| && Edge(files, order[i].path, q)
    ensures a < i && order[a].path == q && order[a].id == id(q)
  {
    hide Edge, DepsOf;
    assert Listed(order[..i], q);
    a :| 0 <= a < |order[..i]| && order[..i][a].path == q;
  }

  /** Along a walk that starts in a sorted list, positions only go down. */
  lemma {:induction false} WalkSinks(files: Files, id: Path -> string, order: seq<Module>, i: nat, p: seq<Path>, k: nat)
    returns (j: nat)
    requires Sorted(files, id, order) && i < |order| && Walk(files, p) && p[0] == order[i].path && k < |p|
    ensures j <= i && order[j].path == p[k] && (k > 0 ==> j < i)
    decreases k
  {
    hide Sorted, Edge;
    if k == 0 {
      j := i;
    } else {
      var m := WalkSinks(files, id, order, i, p, k - 1);
      assert p[k] == p[k];
      j := ImportBefore(files, id, order, m, p[k]);
    }
  }

  /** A sorted list contains everything its modules need, and no cycle. */
  lemma {:induction false} SortedClosed(files: Files, id: Path -> string, order: seq<Module>, i: nat, x: Path)
    requires Sorted(files, id, order) && i < |order| && Reaches(files, order[i].path, x)
    ensures Listed(order, x)
  {
    var p :| Leads(files, p, order[i].path, x);
    var j := WalkSinks(files, id, order, i, p, |p| - 1);
  }

  lemma {:induction false} SortedAcyclic(files: Files, id: Path -> string, order: seq<Module>, i: nat)
    requires Sorted(files, id, order) && i < |order|
    ensures !CycleFrom(files, order[i].path)
  {
    hide Sorted, Leads, Edge;
    forall x, y | Reaches(files, order[i].path, x) && Edge(files, x, y) ensures !Reaches(files, y, x) {
      SortedClosed(files, id, order, i, x);
      NoWayBack(files, id, order, x, y);
    }
  }

  lemma NoWayBack(files: Files, id: Path -> string, order: seq<Module>, x: Path, y: Path)
    requires Sorted(files, id, order) && Listed(order, x) && Edge(files, x, y)
    ensures !Reaches(files, y, x)
  {
    hide Edge, DepsOf;
    var a: nat :| 0 <= a < |order| && order[a].path == x;
    assert Listed(order[..a], y);
    var b: nat :| 0 <= b < |order[..a]| && order[..a][b].path == y;
    forall p ensures !Leads(files, p, y, x) {
      if Leads(files, p, y, x) {
        var c := WalkSinks(files, id, order, b, p, |p| - 1);
      }
    }
  }

  // ---- the loader ----

  /** The loader's state between steps: the modules being loaded form a walk from the
      entry, the others in the cache are listed and sorted. */
  ghost predicate Good(files: Files, id: Path -> string, entry: Path,
                       cache: set<Path>, grey: set<Path>, stack: seq<Path>, order: seq<Module>) {
    && Sorted(files, id, order)
    && (forall p :: p in grey <==> p in stack)
    && (forall i, j :: 0 <= i < j < |stack| ==> stack[i] != stack[j])
    && (stack != [] ==> Walk(files, stack) && stack[0] == entry)
    && cache <= files.Keys && (forall p :: p in cache <==> p in grey || Listed(order, p))
    && (forall p :: p in grey ==> !Listed(order, p))
    && (forall i :: 0 <= i < |order| ==> Reaches(files, entry, order[i].path))
    && (forall p :: p in grey ==> Admitted(files, p, p == entry))
    && (forall i :: 0 <= i < |order| ==> !Faulty(files, order[i].path, order[i].path == entry))
  }

  /** The first thing that is wrong with the file of a failure, in the order in which they
      are looked at. */
  predicate Reason(files: Files, entry: Path, f: Failure) {
    match f
    case Cycle(_) => false
    case Unreadable(p) => p !in files
    case Malformed(p) => p in files && !files[p].parses
    case NotImportable(p) => p in files && files[p].parses && p != entry && !files[p].importable
    case NoSibling(p) =>
      p in files && files[p].parses && (p == entry || files[p].importable) && !files[p].sibling
    case Unresolved(p) =>
      && p in files && files[p].parses && (p == entry || files[p].importable) && files[p].sibling
      && None in files[p].imports
  }

  class Loader {
    const files: Files
    const id: Path -> string
    const entry: Path
    var cache: set<Path>
    var grey: set<Path>
    var stack: seq<Path>
    var order: seq<Module>

    ghost predicate Valid() reads this { Good(files, id, entry, cache, grey, stack, order) }

    /** `p` is the entry, or imported by the module being loaded. */
    ghost predicate Wanted(p: Path) reads this {
      if stack == [] then p == entry else Edge(files, stack[|stack| - 1], p)
    }

    constructor (files: Files, id: Path -> string, entry: Path)
      ensures Valid() && this.files == files && this.id == id && this.entry == entry
      ensures stack == [] && order == [] && cache == {}
    {
      this.files, this.id, this.entry := files, id, entry;
      cache, grey, stack, order := {}, {}, [], [];
    }

    /** What a failure says about the graph. */
    ghost predicate Truthful(f: Failure) {
      if f.Cycle? then CycleFrom(files, entry) && Closes(files, entry, f.chain)
      else Reaches(files, entry, f.p) && Reason(files, entry, f)
    }

    method LoadPath(p: Path, isEntry: bool) returns (failure: Option<Failure>)
      requires Valid() && Wanted(p) && (isEntry <==> stack == [])
      modifies this
      ensures failure.None? ==> Valid() && Listed(order, p) && stack == old(stack) && grey == old(grey)
      ensures failure.None? ==> old(order) <= order && old(cache) <= cache
      ensures failure.None? && !old(Listed(order, p)) ==>
        order != [] && order[|order| - 1].path == p && order[|order| - 1].isEntry == isEntry
      ensures failure.Some? ==> Truthful(failure.value)
      decreases files.Keys - cache, 0
    {
      hide Good, Walk, CycleFrom, Closes, Reaches, Listed;
      if p in grey {
        CycleFound(p);
        return Some(Cycle(stack + [p]));
      }
      if p in cache {
        CachedListed(p);
        return None;
      }
      EntryFirst(p);
      if p !in files { return Some(Unreadable(p)); }
      if !files[p].parses { return Some(Malformed(p)); }
      if !isEntry && !files[p].importable { return Some(NotImportable(p)); }
      if !files[p].sibling { return Some(NoSibling(p)); }
      ghost var below, greyBelow := stack, grey;
      PushStep(p);
      cache := cache + {p};
      grey := grey + {p};
      stack := stack + [p];
      var deps;
      failure, deps := LoadImports(p);
      if failure.Some? { return; }
      PopStep(p, deps, isEntry, below, greyBelow);
      stack := stack[..|stack| - 1];
      grey := grey - {p};
      order := order + [Module(p, id(p), deps, isEntry)];
      return None;
    }

    /** Loads what `p`, on top of the stack, imports, and collects the ids. */
    method LoadImports(p: Path) returns (failure: Option<Failure>, deps: seq<string>)
      requires Valid() && stack != [] && stack[|stack| - 1] == p && p in files
      modifies this
      ensures failure.None? ==> Valid() && stack == old(stack) && grey == old(grey)
      ensures failure.None? ==> old(order) <= order && old(cache) <= cache
      ensures failure.None? ==> DepsSoFar(files[p].imports, deps)
      ensures failure.None? ==> forall k :: 0 <= k < |files[p].imports| ==>
        files[p].imports[k].Some? && Listed(order, files[p].imports[k].value)
      ensures failure.Some? ==> Truthful(failure.value)
      decreases files.Keys - cache, 1
    {
      hide Good, Walk, CycleFrom, Closes, Reaches, Listed;
      deps := [];
      var imports := files[p].imports;
      var i := 0;
      while i < |imports|
        invariant 0 <= i <= |imports| && Valid() && stack == old(stack) && grey == old(grey)
        invariant old(order) <= order && old(cache) <= cache
        invariant forall k :: 0 <= k < i ==> imports[k].Some? && Listed(order, imports[k].value)
        invariant DepsSoFar(imports[..i], deps)
      {
        if imports[i].None? {
          ImportMissing(p, i);
          return Some(Unresolved(p)), deps;
        }
        var dep := imports[i].value;
        assert Edge(files, p, dep);
        ghost var had := order;
        failure := LoadPath(dep, false);
        if failure.Some? { return; }
        ListedMore(had, order);
        assert imports[..i + 1] == imports[..i] + [imports[i]];
        if id(dep) !in deps { deps := deps + [id(dep)]; }
        i := i + 1;
      }
      assert imports[..|imports|] == imports;
      return None, deps;
    }

    lemma CachedListed(p: Path)
      requires Valid() && p in cache && p !in grey
      ensures Listed(order, p)
    {
    }

    /** What is loaded first is the entry, and nothing else is. */
    lemma EntryFirst(p: Path)
      requires Valid() && Wanted(p) && p !in grey
      ensures Reaches(files, entry, p) && (p == entry <==> stack == [])
    {
      hide Sorted, Listed, Reaches;
      WantedReached(p);
      if stack != [] { assert entry == stack[0] && entry in stack; }
    }

    lemma ImportMissing(p: Path, i: nat)
      requires Valid() && stack != [] && stack[|stack| - 1] == p && p in files
      requires i < |files[p].imports| && files[p].imports[i].None?
      ensures Reaches(files, entry, p) && Reason(files, entry, Unresolved(p))
    {
      hide Sorted, Listed;
      assert Leads(files, stack, entry, p);
      assert p in stack && Admitted(files, p, p == entry);
      assert files[p].imports[i] == None && None in files[p].imports;
    }

    ghost predicate DepsSoFar(imports: seq<Option<Path>>, deps: seq<string>) {
      && (forall i, j :: 0 <= i < j < |deps| ==> deps[i] != deps[j])
      && (forall q :: Some(q) in imports ==> id(q) in deps)
      && (forall d :: d in deps ==> exists q :: Some(q) in imports && id(q) == d)
    }

    lemma WantedReached(p: Path)
      requires Valid() && Wanted(p)
      ensures Reaches(files, entry, p)
    {
      if stack == [] {
        ReachesSelf(files, p);
      } else {
        assert Leads(files, stack, entry, stack[|stack| - 1]);
        ReachesOn(files, entry, stack[|stack| - 1], p);
      }
    }

    lemma CycleFound(p: Path)
      requires Valid() && Wanted(p) && p in grey
      ensures CycleFrom(files, entry) && Closes(files, entry, stack + [p])
    {
      hide Good, Closes, CycleFrom;
      ChainCloses(p);
      ClosedCycle(files, entry, stack + [p]);
    }

    lemma ChainCloses(p: Path)
      requires Valid() && Wanted(p) && p in grey
      ensures Closes(files, entry, stack + [p])
    {
      hide Sorted, Listed, Edge, Reaches, Walk;
      WalkOn(files, stack, p);
      assert (stack + [p])[..|stack|] == stack;
    }

    lemma PushStep(p: Path)
      requires Valid() && Wanted(p) && p !in cache && Admitted(files, p, p == entry)
      ensures Good(files, id, entry, cache + {p}, grey + {p}, stack + [p], order)
      ensures p !in grey && !Listed(order, p)
    {
      hide Sorted, Listed, Reaches, Walk, Edge;
      WalkOn(files, stack, p);
      assert forall i :: 0 <= i < |stack| ==> (stack + [p])[i] == stack[i];
    }

    /** Everything `p` imports is listed: `p` can be listed too. */
    lemma PopStep(p: Path, deps: seq<string>, isEntry: bool, below: seq<Path>, greyBelow: set<Path>)
      requires Valid() && stack == below + [p] && grey == greyBelow + {p} && p !in greyBelow && p in files
      requires forall k :: 0 <= k < |files[p].imports| ==>
        files[p].imports[k].Some? && Listed(order, files[p].imports[k].value)
      requires DepsSoFar(files[p].imports, deps)
      ensures var now := order + [Module(p, id(p), deps, isEntry)];
        Good(files, id, entry, cache, greyBelow, below, now) && Listed(now, p)
    {
      hide Sorted, Walk, Reaches, Listed;
      var now := order + [Module(p, id(p), deps, isEntry)];
      Unlisted(p);
      assert Admitted(files, p, p == entry);
      assert None !in files[p].imports;
      ListMore(p, deps, isEntry);
      BelowWalks(p, below);
      assert forall q :: q in grey <==> q in below || q == p;
      assert forall i :: 0 <= i < |below| ==> below[i] == stack[i];
      assert forall i :: 0 <= i < |order| ==> now[i] == order[i];
      assert stack[|below|] == p && p !in below;
    }

    lemma Unlisted(p: Path)
      requires Valid() && p in grey
      ensures !Listed(order, p)
    {
    }

    lemma BelowWalks(p: Path, below: seq<Path>)
      requires Valid() && stack == below + [p]
      ensures below != [] ==> Walk(files, below) && below[0] == entry
      ensures Reaches(files, entry, p)
    {
      assert Leads(files, stack, entry, p);
      assert forall i :: 0 <= i < |below| ==> below[i] == stack[i];
    }

    lemma ListMore(p: Path, deps: seq<string>, isEntry: bool)
      requires Sorted(files, id, order) && !Listed(order, p) && p in files && DepsSoFar(files[p].imports, deps)
      requires forall k :: 0 <= k < |files[p].imports| ==>
        files[p].imports[k].Some? && Listed(order, files[p].imports[k].value)
      ensures var now := order + [Module(p, id(p), deps, isEntry)];
        Sorted(files, id, now) && (forall q :: Listed(now, q) <==> q == p || Listed(order, q))
    {
      var now := order + [Module(p, id(p), deps, isEntry)];
      assert now[..|order|] == order;
      forall i, q | 0 <= i < |now| && Edge(files, now[i].path, q) ensures Listed(now[..i], q) {
        if i < |order| {
          assert now[..i] == order[..i];
        } else {
          var k :| 0 <= k < |files[p].imports| && files[p].imports[k] == Some(q);
        }
      }
      ListedMore(order, now);
      assert now[|order|].path == p;
    }
  }

  lemma ListedMore(a: seq<Module>, b: seq<Module>)
    requires a <= b
    ensures forall q :: Listed(a, q) ==> Listed(b, q)
  {
    forall q | Listed(a, q) ensures Listed(b, q) {
      var i :| 0 <= i < |a| && a[i].path == q;
      assert b[i].path == q;
    }
  }

  // ---- the theorem ----

  /** Loading from `entry` fails exactly when something needed is at fault by itself or
      needs itself. A failure names such a file and the first thing that is wrong with
      it, or a chain of imports that closes. Without one every module that is needed is
      there, parses, may be imported (the entry need not), has its C file and its
      imports, and is listed exactly once, after everything it imports, the entry last. */
  method Load(files: Files, id: Path -> string, entry: Path) returns (failure: Option<Failure>, order: seq<Module>)
    ensures failure.None? ==> Sorted(files, id, order) && order != [] && order[|order| - 1].path == entry
    ensures failure.None? ==> forall p :: Listed(order, p) <==> Reaches(files, entry, p)
    ensures failure.None? ==> !CycleFrom(files, entry)
    ensures failure.None? ==> forall p :: Reaches(files, entry, p) ==>
      && p in files && files[p].parses && (p == entry || files[p].importable) && files[p].sibling
      && None !in files[p].imports
    ensures failure.Some? && failure.value.Cycle? ==>
      CycleFrom(files, entry) && Closes(files, entry, failure.value.chain)
    ensures failure.Some? && !failure.value.Cycle? ==> Reaches(files, entry, failure.value.p)
    ensures failure.Some? && !failure.value.Cycle? ==>
      match failure.value
      case Unreadable(p) => p !in files
      case Malformed(p) => p in files && !files[p].parses
      case NotImportable(p) => p in files && files[p].parses && p != entry && !files[p].importable
      case NoSibling(p) => p in files && files[p].parses && (p == entry || files[p].importable) && !files[p].sibling
      case Unresolved(p) =>
        && p in files && files[p].parses && (p == entry || files[p].importable) && files[p].sibling
        && None in files[p].imports
      case Cycle(_) => false
    ensures failure.Some? <==> FaultFrom(files, entry) || CycleFrom(files, entry)
    ensures !FaultFrom(files, entry) ==> ((failure.Some? && failure.value.Cycle?) <==> CycleFrom(files, entry))
  {
    hide Sorted, Walk, Edge, Closes, CycleFrom;
    var l := new Loader(files, id, entry);
    failure := l.LoadPath(entry, true);
    order := l.order;
    if failure.None? {
      SortedAcyclic(files, id, order, |order| - 1);
      forall p ensures Listed(order, p) <==> Reaches(files, entry, p) {
        if Reaches(files, entry, p) { SortedClosed(files, id, order, |order| - 1, p); }
      }
      NoFault(files, id, entry, l.cache, l.grey, l.stack, order);
    } else if !failure.value.Cycle? {
      FaultShown(files, entry, failure.value);
    }
  }

  lemma NoFault(files: Files, id: Path -> string, entry: Path,
                cache: set<Path>, grey: set<Path>, stack: seq<Path>, order: seq<Module>)
    requires Good(files, id, entry, cache, grey, stack, order)
    requires forall p :: Reaches(files, entry, p) ==> Listed(order, p)
    ensures forall p :: Reaches(files, entry, p) ==> !Faulty(files, p, p == entry)
    ensures !FaultFrom(files, entry)
  {
    hide Sorted, Reaches, Faulty;
  }

  lemma FaultShown(files: Files, entry: Path, f: Failure)
    requires !f.Cycle? && Reaches(files, entry, f.p) && Reason(files, entry, f)
    ensures FaultFrom(files, entry)
  {
    hide Reaches;
    assert Faulty(files, f.p, f.p == entry);
  }

  /** The module that a dep is looked up as when the importing one is type-checked. */
  function FindByID(order: seq<Module>, d: string): (r: Option<nat>)
    ensures r.Some? ==> r.value < |order| && order[r.value].id == d && forall j :: 0 <= j < r.value ==> order[j].id != d
    ensures r.None? ==> forall j :: 0 <= j < |order| ==> order[j].id != d
    decreases |order|
  {
    if order == [] then None
    else if order[0].id == d then Some(0)
    else
      var r := FindByID(order[1..], d);
      if r.None? then None else Some(r.value + 1)
  }

  /** Whatever the ids are, every dep is found and has been checked before. It is looked up
      as the import `a` of that name exactly when no module listed before `a` has its id. */
  lemma DepFound(files: Files, id: Path -> string, order: seq<Module>, i: nat, d: string)
    returns (a: nat)
    requires Sorted(files, id, order) && i < |order| && d in order[i].deps
    ensures a < i && order[a].id == d && Edge(files, order[i].path, order[a].path)
    ensures var j := FindByID(order, d);
      j.Some? && j.value <= a && (j.value == a <==> forall b :: 0 <= b < a ==> order[b].id != d)
  {
    hide Sorted, Listed, Edge;
    var q := DepImported(files, id, order, i, d);
    a := ImportBefore(files, id, order, i, q);
  }

  /** With distinct ids every dep is found, has been checked before, and is an import. */
  lemma DepsChecked(files: Files, id: Path -> string, order: seq<Module>, i: nat, d: string)
    requires Sorted(files, id, order) && i < |order| && d in order[i].deps
    requires forall a, b :: 0 <= a < b < |order| ==> order[a].id != order[b].id
    ensures var j := FindByID(order, d); j.Some? && j.value < i && Edge(files, order[i].path, order[j.value].path)
  {
    hide Sorted, Listed, Edge;
    var q := DepImported(files, id, order, i, d);
    var a := ImportBefore(files, id, order, i, q);
    assert order[a].id == d;
  }

  lemma DepImported(files: Files, id: Path -> string, order: seq<Module>, i: nat, d: string) returns (q: Path)
    requires Sorted(files, id, order) && i < |order| && d in order[i].deps
    ensures Edge(files, order[i].path, q) && id(q) == d
  {
    hide Edge, Listed;
    assert DepsOf(files, id, order[i].path, order[i].deps);
    q :| Edge(files, order[i].path, q) && id(q) == d;
  }
}
